/** What is sent to the server, what it answers, and what working through the queue amounts to, as far
    as it has come.  Nothing here refers to the agent that does it. */
module Posting {
  import opened Wrappers
  import opened Delivery

  datatype Response = Unreachable | Status(code: int)

  datatype Outcome =
    | Done
    | Deferred
    | NotPaired
    | CollectFailed
    | QueueFull
    | NotSaved
    | BadRequest
    | NoConnection
    | StorageFull
    | Rejected(code: int)
    | NothingPending
    | InvalidAnswer
    | RevocationPending

  type Positive = n: nat | n > 0 witness 1

  /** What the collectors deliver: at least one metric, and never an empty encoding. */
  datatype Sample = Sample(count: Positive, size: Positive)

  /** A batch sent to the server under a credential. */
  datatype Posted = Posted(credential: string, batch: Batch)

  /** Older than the server accepts. */
  predicate Stale(b: Batch, now: int) { now - b.sentAt > MAX_CLOCK_PAST }

  /** A batch taken at that instant: dated, and numbered from the next sequence number on. */
  predicate Taken(b: Batch, s: State, now: int, sample: Sample) {
    && b.sentAt == now && b.size == sample.size && |b.sequences| == sample.count
    && forall i :: 0 <= i < sample.count ==> b.sequences[i] == (if s.nextSequence < 1 then 1 else s.nextSequence) + i
  }

  // ------------------------------------------------------------- what is to come

  /** What the clock shows at the n-th reading from now; the last reading lasts. */
  function Shows(now: int, readings: seq<int>, n: nat): int {
    if n == 0 || readings == [] then now
    else if n <= |readings| then readings[n - 1] else readings[|readings| - 1]
  }

  /** The i-th answer to come; after the last, the server is out of reach. */
  function AnswerAt(answers: seq<Response>, i: nat): Response { if i < |answers| then answers[i] else Unreachable }

  /** The answers after the first `n`. */
  function Skip(answers: seq<Response>, n: nat): seq<Response> { if n <= |answers| then answers[n..] else [] }

  lemma SkipSome(answers: seq<Response>, m: nat, n: nat)
    ensures AnswerAt(Skip(answers, m), n) == AnswerAt(answers, m + n)
    ensures Skip(Skip(answers, m), n) == Skip(answers, m + n) && Skip(answers, 0) == answers
  {
  }

  // ---------------------------------------------------------------- one batch

  /** The credentials to offer: the current one, then the one it replaced. */
  function Held(c: Connection): seq<string> {
    [c.credential] + if c.previous != "" && c.previous != c.credential then [c.previous] else []
  }

  /** The statuses that leave the outcome open to another credential. */
  predicate Refuses(answer: Response) { answer.Status? && answer.code in {401, 403, 409} }

  /** What the outcome of a post tells of the server's answer. */
  predicate Tells(answer: Response, r: Outcome) {
    match answer
    case Unreachable => r == NoConnection
    case Status(code) =>
      if code == 507 then r == StorageFull
      else if code == 202 then r in {Done, NotSaved}
      else r == Rejected(code)
  }

  /** The posts of one batch under each of some credentials. */
  function Offers(batch: Batch, credentials: seq<string>): (posts: seq<Posted>)
    ensures |posts| == |credentials|
    ensures forall i :: 0 <= i < |credentials| ==> posts[i] == Posted(credentials[i], batch)
  {
    seq(|credentials|, i requires 0 <= i < |credentials| => Posted(credentials[i], batch))
  }

  /** A batch is offered under the credentials held, in order, as long as these are refused; what comes
      of it tells the last answer. */
  ghost predicate Tried(head: Batch, held: seq<string>, posts: seq<Posted>, posts': seq<Posted>,
                        answers: seq<Response>, answers': seq<Response>, r: Outcome)
  {
    var n := |posts'| - |posts|;
    && 1 <= n <= |held| && posts' == posts + Offers(head, held)[..n] && answers' == Skip(answers, n)
    && (forall j: nat :: j < n - 1 ==> Refuses(AnswerAt(answers, j)))
    && (Refuses(AnswerAt(answers, n - 1)) ==> n == |held|)
    && Tells(AnswerAt(answers, n - 1), r)
  }

  /** As far as the credentials offered have all been refused. */
  ghost predicate RefusedSoFar(i: nat, head: Batch, held: seq<string>, posts: seq<Posted>, posts': seq<Posted>,
                               answers: seq<Response>, answers': seq<Response>, r: Outcome)
  {
    && i <= |held| && posts' == posts + Offers(head, held)[..i] && answers' == Skip(answers, i)
    && (forall j: nat :: j < i ==> Refuses(AnswerAt(answers, j)))
    && (i > 0 ==> Tells(AnswerAt(answers, i - 1), r))
  }

  lemma RefusedNone(head: Batch, held: seq<string>, posts: seq<Posted>, answers: seq<Response>, r: Outcome)
    ensures RefusedSoFar(0, head, held, posts, posts, answers, answers, r)
  {
  }

  /** One more credential offered. */
  lemma RefusedNext(i: nat, head: Batch, held: seq<string>, posts: seq<Posted>, posts1: seq<Posted>,
                    posts2: seq<Posted>, answers: seq<Response>, answers1: seq<Response>, answers2: seq<Response>,
                    before: Outcome, r: Outcome)
    requires i < |held| && RefusedSoFar(i, head, held, posts, posts1, answers, answers1, before)
    requires posts2 == posts1 + [Posted(held[i], head)] && answers2 == Skip(answers1, 1)
    requires Tells(AnswerAt(answers1, 0), r)
    ensures if Refuses(AnswerAt(answers1, 0))
            then RefusedSoFar(i + 1, head, held, posts, posts2, answers, answers2, r)
            else Tried(head, held, posts, posts2, answers, answers2, r)
  {
    hide Skip, AnswerAt, Tells, Refuses;
    SkipSome(answers, i, 0);
    SkipSome(answers, i, 1);
    var offers := Offers(head, held);
    assert offers[..i] + [offers[i]] == offers[..i + 1];
    assert posts2 == posts + offers[..i + 1];
  }

  lemma RefusedAll(head: Batch, held: seq<string>, posts: seq<Posted>, posts': seq<Posted>,
                   answers: seq<Response>, answers': seq<Response>, r: Outcome)
    requires held != [] && RefusedSoFar(|held|, head, held, posts, posts', answers, answers', r)
    ensures Tried(head, held, posts, posts', answers, answers', r)
  {
    hide Skip, AnswerAt, Tells, Refuses;
  }

  /** One of the held credentials has become the only one. */
  predicate Settled(c: Connection, c': Connection) {
    Holds(c, c'.credential) && c' == c.(credential := c'.credential, previous := "")
  }

  // ---------------------------------------------------------------- the queue

  /** The same pairing, but for its credentials, the queue and the numbering. */
  predicate SamePairing(s: State, s': State) {
    s' == s.(delivery := s'.delivery, nextSequence := s'.nextSequence,
             connection := s.connection.(credential := s'.connection.credential, previous := s'.connection.previous))
  }

  lemma SamePairingAlways(s: State)
    ensures SamePairing(s, s)
  {
  }

  ghost predicate OnlyDrops(run: seq<Event>, run': seq<Event>) {
    run <= run' && forall i :: |run| <= i < |run'| ==> run'[i].DroppedStale?
  }

  /** What working through a queue amounts to.  If nothing is posted, all that has happened is that stale
      batches were dropped, and either the queue is done or no request can be built.  Otherwise the first
      post is made under the current credential, and the outcome tells the last answer. */
  ghost predicate Offered(r: Outcome, s: State, run: seq<Event>, run': seq<Event>, posts: seq<Posted>,
                          posts': seq<Posted>, answers: seq<Response>, malformed: bool)
  {
    && posts <= posts'
    && (if posts' == posts then OnlyDrops(run, run') && (r == Done || (malformed && r == BadRequest))
        else
          && !malformed && posts'[|posts|].credential == s.connection.credential
          && Tells(AnswerAt(answers, |posts'| - |posts| - 1), r))
  }

  lemma OfferedSame(r: Outcome, s: State, s1: State, run: seq<Event>, run': seq<Event>, posts: seq<Posted>,
                    posts': seq<Posted>, answers: seq<Response>, malformed: bool)
    requires Offered(r, s, run, run', posts, posts', answers, malformed) && s1.connection == s.connection
    ensures Offered(r, s1, run, run', posts, posts', answers, malformed)
  {
  }

  /** The head of the queue is not stale at the n-th reading. */
  predicate HeadIsFresh(s: State, now: int, readings: seq<int>, n: nat) {
    s.delivery.queue != [] && !Stale(s.delivery.queue[0], Shows(now, readings, n))
  }

  ghost predicate StartsWith(posts: seq<Posted>, n: nat, batch: Batch) { n < |posts| && posts[n].batch == batch }

  /** A head that is not stale is what is posted first, unless no request can be built. */
  ghost predicate Reaches(r: Outcome, s: State, run: seq<Event>, run': seq<Event>, posts: seq<Posted>,
                          posts': seq<Posted>, malformed: bool)
    requires s.delivery.queue != []
  {
    if malformed then r == BadRequest && run' == run && posts' == posts
    else StartsWith(posts', |posts|, s.delivery.queue[0])
  }

  ghost predicate FreshAt(b: Batch, clock: set<int>) { exists t :: t in clock && !Stale(b, t) }

  /** Nothing is posted but what is not stale at some reading of the clock. */
  ghost predicate PostedFresh(posts: seq<Posted>, posts': seq<Posted>, clock: set<int>) {
    posts <= posts' && forall i :: |posts| <= i < |posts'| ==> FreshAt(posts'[i].batch, clock)
  }

  lemma FreshNothing(posts: seq<Posted>, clock: set<int>)
    ensures PostedFresh(posts, posts, clock)
  {
  }

  lemma FreshMore(posts: seq<Posted>, posts': seq<Posted>, clock: set<int>, wider: set<int>)
    requires PostedFresh(posts, posts', clock) && clock <= wider
    ensures PostedFresh(posts, posts', wider)
  {
    hide Stale;
    forall i | |posts| <= i < |posts'| ensures FreshAt(posts'[i].batch, wider) {
      assert FreshAt(posts'[i].batch, clock);
      var t :| t in clock && !Stale(posts'[i].batch, t);
      assert t in wider;
    }
  }

  lemma FreshOffer(posts: seq<Posted>, posts1: seq<Posted>, posts2: seq<Posted>, clock: set<int>, head: Batch,
                   held: seq<string>, answers: seq<Response>, answers': seq<Response>, r: Outcome, now: int)
    requires PostedFresh(posts, posts1, clock) && now in clock && !Stale(head, now)
    requires posts2 == posts1 || Tried(head, held, posts1, posts2, answers, answers', r)
    ensures PostedFresh(posts, posts2, clock)
  {
    hide Stale, Tells, Refuses, AnswerAt, Skip;
    assert FreshAt(head, clock);
    if posts2 != posts1 {
      forall i | |posts1| <= i < |posts2| ensures posts2[i].batch == head {
        assert posts2[i] == Offers(head, held)[i - |posts1|];
      }
    }
  }

  /** Every batch once, in order, under one credential. */
  function Sendings(credential: string, queue: seq<Batch>): (posts: seq<Posted>)
    ensures |posts| == |queue|
    ensures forall i :: 0 <= i < |queue| ==> posts[i] == Posted(credential, queue[i])
  {
    seq(|queue|, i requires 0 <= i < |queue| => Posted(credential, queue[i]))
  }

  ghost predicate NeverStale(queue: seq<Batch>, clock: set<int>) {
    forall b, t :: b in queue && t in clock ==> !Stale(b, t)
  }

  ghost predicate AllAccepted(answers: seq<Response>, n: nat) {
    forall i: nat :: i < n ==> AnswerAt(answers, i) == Status(202)
  }

  // ------------------------------------------------------------------ half-way

  /** As far as every offer made has been accepted. */
  ghost predicate SoFar(s: State, s': State, run: seq<Event>, run': seq<Event>, posts: seq<Posted>,
                        posts': seq<Posted>, answers: seq<Response>, answers': seq<Response>, malformed: bool)
  {
    && SamePairing(s, s') && run <= run' && posts <= posts' && answers' == Skip(answers, |posts'| - |posts|)
    && (if posts' == posts then OnlyDrops(run, run') && s'.connection == s.connection
        else
          && !malformed && posts'[|posts|].credential == s.connection.credential
          && AnswerAt(answers, |posts'| - |posts| - 1) == Status(202))
  }

  lemma SoFarNothing(s: State, run: seq<Event>, posts: seq<Posted>, answers: seq<Response>, malformed: bool)
    ensures SoFar(s, s, run, run, posts, posts, answers, answers, malformed)
  {
  }

  lemma SoFarDone(s: State, s': State, run: seq<Event>, run': seq<Event>, posts: seq<Posted>,
                  posts': seq<Posted>, answers: seq<Response>, answers': seq<Response>, malformed: bool)
    requires SoFar(s, s', run, run', posts, posts', answers, answers', malformed)
    ensures Offered(Done, s, run, run', posts, posts', answers, malformed) && SamePairing(s, s')
  {
  }

  lemma SoFarDrop(s: State, s1: State, s2: State, run: seq<Event>, run1: seq<Event>, run2: seq<Event>,
                  posts: seq<Posted>, posts': seq<Posted>, answers: seq<Response>, answers': seq<Response>,
                  malformed: bool, now: int)
    requires SoFar(s, s1, run, run1, posts, posts', answers, answers', malformed)
    requires s2 == s1.(delivery := s2.delivery) && (run2 == run1 || run2 == run1 + [DroppedStale(now)])
    ensures SoFar(s, s2, run, run2, posts, posts', answers, answers', malformed)
  {
  }

  /** One more batch offered. */
  lemma SoFarOffer(r: Outcome, s: State, s1: State, s2: State, run: seq<Event>, run1: seq<Event>, run2: seq<Event>,
                   posts: seq<Posted>, posts1: seq<Posted>, posts2: seq<Posted>,
                   answers: seq<Response>, answers1: seq<Response>, answers2: seq<Response>, malformed: bool)
    requires SoFar(s, s1, run, run1, posts, posts1, answers, answers1, malformed) && s1.delivery.queue != []
    requires run1 <= run2 && SamePairing(s1, s2)
    requires if malformed then r == BadRequest && posts2 == posts1 && run2 == run1
             else Tried(s1.delivery.queue[0], Held(s1.connection), posts1, posts2, answers1, answers2, r)
    ensures if malformed then posts1 == posts && Offered(r, s, run, run2, posts, posts2, answers, malformed)
            else
              && StartsWith(posts2, |posts1|, s1.delivery.queue[0]) && posts <= posts1 <= posts2
              && Offered(r, s, run, run2, posts, posts2, answers, malformed)
              && (r == Done ==> SoFar(s, s2, run, run2, posts, posts2, answers, answers2, malformed))
    ensures SamePairing(s, s2)
  {
    hide OnlyDrops, Skip, AnswerAt, Offers;
    if !malformed {
      var m, n := |posts1| - |posts|, |posts2| - |posts1|;
      SkipSome(answers, m, n - 1);
      SkipSome(answers, m, n);
      assert posts2[|posts1|] == Offers(s1.delivery.queue[0], Held(s1.connection))[0];
    }
  }

  lemma SoFarAnswers(s: State, s': State, run: seq<Event>, run': seq<Event>, posts: seq<Posted>,
                     posts': seq<Posted>, answers: seq<Response>, answers': seq<Response>, malformed: bool)
    requires SoFar(s, s', run, run', posts, posts', answers, answers', malformed)
    ensures posts <= posts' && answers' == Skip(answers, |posts'| - |posts|)
  {
  }

  /** As far as a willing server has been sent every batch once. */
  ghost predicate SentSoFar(s: State, s': State, posts: seq<Posted>, posts': seq<Posted>) {
    var k, queue := |posts'| - |posts|, s.delivery.queue;
    && 0 <= k <= |queue| && s'.delivery.queue == queue[k..]
    && posts' == posts + Sendings(s.connection.credential, queue[..k])
    && s'.connection.credential == s.connection.credential
  }

  lemma SentNothing(s: State, posts: seq<Posted>)
    ensures SentSoFar(s, s, posts, posts)
  {
  }

  lemma SentAll(s: State, s': State, posts: seq<Posted>, posts': seq<Posted>)
    requires s'.delivery.queue == [] && SentSoFar(s, s', posts, posts')
    ensures posts' == posts + Sendings(s.connection.credential, s.delivery.queue)
  {
    assert s.delivery.queue[..|s.delivery.queue|] == s.delivery.queue;
  }

  lemma SentFresh(s: State, s1: State, posts: seq<Posted>, posts1: seq<Posted>, clock: set<int>, now: int)
    requires SentSoFar(s, s1, posts, posts1) && s1.delivery.queue != []
    requires NeverStale(s.delivery.queue, clock) && now in clock
    ensures !Stale(s1.delivery.queue[0], now)
  {
    assert s1.delivery.queue[0] == s.delivery.queue[|posts1| - |posts|];
  }

  /** One more batch sent to a willing server. */
  lemma SentOffer(r: Outcome, s: State, s1: State, s2: State, posts: seq<Posted>, posts1: seq<Posted>,
                  posts2: seq<Posted>, answers: seq<Response>, answers1: seq<Response>, answers2: seq<Response>)
    requires SentSoFar(s, s1, posts, posts1) && s1.delivery.queue != []
    requires posts <= posts1 && answers1 == Skip(answers, |posts1| - |posts|)
    requires AllAccepted(answers, |s.delivery.queue|)
    requires Tried(s1.delivery.queue[0], Held(s1.connection), posts1, posts2, answers1, answers2, r)
    requires r == Done ==> s2.delivery.queue == s1.delivery.queue[1..]
    requires r == Done ==> posts2[|posts2| - 1].credential == s2.connection.credential
    ensures r == Done || r == NotSaved
    ensures r == Done ==> SentSoFar(s, s2, posts, posts2)
  {
    hide Skip, AnswerAt;
    var k, queue := |posts1| - |posts|, s.delivery.queue;
    SkipSome(answers, k, 0);
    assert AnswerAt(answers1, 0) == Status(202);
    assert |posts2| == |posts1| + 1;
    assert posts2 == posts1 + [Posted(s.connection.credential, queue[k])];
    assert Sendings(s.connection.credential, queue[..k + 1]) ==
           Sendings(s.connection.credential, queue[..k]) + [Posted(s.connection.credential, queue[k])];
  }
}
