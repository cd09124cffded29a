/** The agent's telemetry sender and its pairing client, over one saved state.  What the network, the
    clock, the disk and the collectors answer is arbitrary and is passed in. */
module Telemetry {
  import opened Wrappers
  import opened Delivery
  import opened Posting
  import P = DeliveryProofs

  /** One round of the background loop: what the collectors and, if a revocation is pending, the
      server answer. */
  datatype Round = Round(sample: Option<Sample>, response: Response)

  /** A retry is due. */
  predicate Due(nextRetryAt: Option<int>, now: int) { nextRetryAt.Some? ==> nextRetryAt.value <= now }

  /** `queue'` is `queue` without some of its oldest batches. */
  predicate SuffixOf(queue': seq<Batch>, queue: seq<Batch>) {
    |queue'| <= |queue| && queue' == queue[|queue| - |queue'|..]
  }

  lemma SuffixAll(queue: seq<Batch>)
    ensures SuffixOf(queue, queue)
  {
  }

  lemma SuffixPop(queue': seq<Batch>, queue: seq<Batch>)
    requires SuffixOf(queue', queue)
    ensures queue' != [] ==> SuffixOf(queue'[1..], queue)
  {
  }

  lemma Extend(run: seq<Event>, e: Event)
    requires Possible(run) && Enabled(run, e)
    ensures Possible(run + [e]) && Replay(run + [e]) == Apply(Replay(run), e)
  {
    assert (run + [e])[..|run|] == run;
  }

  /** What the sender meets: any readings of the clock, in any order, any answers of the server, and
      any finite number of failing saves. */
  class World {
    /** What the clock shows, and what its next readings will be; the last one lasts. */
    var now: int
    var readings: seq<int>
    /** The answers to come; after the last, the server is out of reach. */
    var answers: seq<Response>
    /** No request can be built for the server's address. */
    const malformed: bool
    /** How many more saves may fail. */
    var diskFaults: nat

    /** No server, a working disk, and one instant. */
    predicate CutOff()
      reads this
    {
      readings == [] && answers == [] && !malformed && diskFaults == 0
    }

    /** Everything the clock can still show. */
    function Clock(): set<int>
      reads this`now, this`readings
    {
      {now} + set t | t in readings
    }

    constructor (now: int, readings: seq<int>, answers: seq<Response>, malformed: bool, diskFaults: nat)
      ensures this.now == now && this.readings == readings && this.answers == answers
      ensures this.malformed == malformed && this.diskFaults == diskFaults
    {
      this.now, this.readings, this.answers := now, readings, answers;
      this.malformed, this.diskFaults := malformed, diskFaults;
    }

    method Now() returns (t: int)
      modifies this`now, this`readings
      ensures t == now && now == if old(readings) == [] then old(now) else old(readings)[0]
      ensures readings == if old(readings) == [] then [] else old(readings)[1..]
      ensures t in old(Clock()) && Clock() <= old(Clock())
      ensures t == Shows(old(now), old(readings), 1)
      ensures forall n: nat :: Shows(now, readings, n) == Shows(old(now), old(readings), n + 1)
      ensures old(CutOff()) ==> CutOff() && now == old(now)
    {
      if readings != [] {
        now, readings := readings[0], readings[1..];
      }
      t := now;
    }

    method Answer() returns (r: Response)
      modifies this`answers
      ensures r == AnswerAt(old(answers), 0) && answers == Skip(old(answers), 1)
    {
      r := Unreachable;
      if answers != [] {
        r, answers := answers[0], answers[1..];
      }
    }

    method Writes() returns (ok: bool)
      modifies this`diskFaults
      ensures diskFaults == old(diskFaults) - if ok then 0 else 1
    {
      var fault: bool := *;
      ok := !fault || diskFaults == 0;
      if !ok {
        diskFaults := diskFaults - 1;
      }
    }
  }

  class Agent {
    /** What the store holds, in memory and on disk. */
    var state: State
    /** The committed steps and the server's acceptances so far. */
    ghost var run: seq<Event>
    /** What has been sent to the server so far. */
    ghost var posts: seq<Posted>

    ghost predicate Valid()
      reads this
    {
      Possible(run) && state == Replay(run)
    }

    constructor ()
      ensures Valid() && state == FIRST && run == [] && posts == []
    {
      state, run, posts := FIRST, [], [];
    }

    /** `Store.Update` once the callback has produced the next state. */
    method Save(w: World, next: State, ghost e: Event) returns (ok: bool)
      requires Valid() && Enabled(run, e) && next == Apply(state, e)
      modifies this`state, this`run, w`diskFaults
      ensures Valid()
      ensures ok ==> state == next && run == old(run) + [e] && w.diskFaults == old(w.diskFaults)
      ensures !ok ==> state == old(state) && run == old(run) && w.diskFaults == old(w.diskFaults) - 1
    {
      ok := w.Writes();
      if ok {
        Extend(run, e);
        state, run := next, run + [e];
      }
    }

    /** Posts the head of the queue; a 202 means the server has it. */
    method Post(credential: string, w: World) returns (r: Response)
      requires Valid() && Enabled(run, Accepted(credential))
      modifies this`run, this`posts, w`answers
      ensures Valid() && posts == old(posts) + [Posted(credential, state.delivery.queue[0])]
      ensures run == if r == Status(202) then old(run) + [Accepted(credential)] else old(run)
      ensures r == AnswerAt(old(w.answers), 0) && w.answers == Skip(old(w.answers), 1)
    {
      r := w.Answer();
      posts := posts + [Posted(credential, state.delivery.queue[0])];
      if r == Status(202) {
        Extend(run, Accepted(credential));
        run := run + [Accepted(credential)];
      }
    }

    /** Records a failure and sets the next attempt; a failure to save it is ignored. */
    method MarkFailure(w: World)
      requires Valid() && state.connection.credential != ""
      modifies this`state, this`run, w`now, w`readings, w`diskFaults
      ensures Valid() && w.diskFaults <= old(w.diskFaults)
      ensures state == old(state).(delivery := state.delivery) && state.delivery.queue == old(state.delivery.queue)
      ensures SamePairing(old(state), state)
      ensures Flushes(old(run), run, old(w.Clock())) && Noted(old(w.diskFaults), w.diskFaults, run)
      ensures w.Clock() <= old(w.Clock())
      ensures old(w.CutOff()) ==> w.CutOff() && w.now == old(w.now)
      ensures old(w.CutOff()) ==> FailedOnly(old(state), state, old(run), run, w.now)
    {
      var now := w.Now();
      var _ := Save(w, Fail(state, now), FailedAt(now));
    }

    /** Queues a sample of `count` metrics that encodes to `size` bytes. */
    method EnqueueBatch(sample: Sample, w: World) returns (r: Outcome, ghost now: int)
      requires Valid() && state.connection.credential != ""
      modifies this`state, this`run, w`now, w`readings, w`diskFaults
      ensures Valid() && w.diskFaults <= old(w.diskFaults)
      ensures r == QueueFull <==> !Fits(old(state).delivery.queue, sample.size)
      ensures r == Done || r == QueueFull || r == NotSaved
      ensures r != Done ==> state == old(state) && run == old(run)
      ensures r == NotSaved ==> w.diskFaults < old(w.diskFaults)
      ensures r == Done ==>
        && Enqueue(old(state), now, sample.count, sample.size) == Some(state)
        && run == old(run) + [Enqueued(now, sample.count, sample.size)]
      // The batch goes to the end, dated when it was taken and numbered from the next sequence number.
      ensures r == Done ==>
        && state == old(state).(nextSequence := state.nextSequence, delivery := state.delivery)
        && state.delivery == old(state).delivery.(queue := state.delivery.queue)
        && exists b :: state.delivery.queue == old(state).delivery.queue + [b] && Taken(b, old(state), now, sample)
      ensures now == Shows(old(w.now), old(w.readings), 1) && w.Clock() <= old(w.Clock())
      ensures forall n: nat :: Shows(w.now, w.readings, n) == Shows(old(w.now), old(w.readings), n + 1)
      ensures now == w.now && (old(w.CutOff()) ==> w.CutOff() && w.now == old(w.now))
    {
      var reading := w.Now();
      now := reading;
      var next := Enqueue(state, reading, sample.count, sample.size);
      if next.None? { return QueueFull, now; }
      assert Taken(NewBatch(state, reading, sample.count, sample.size), state, reading, sample);
      var ok := Save(w, next.value, Enqueued(reading, sample.count, sample.size));
      return if ok then Done else NotSaved, now;
    }

    /** Drops a head that the server can no longer accept. */
    method DropHead(now: int, w: World) returns (ok: bool)
      requires Valid() && Enabled(run, DroppedStale(now))
      modifies this`state, this`run, w`diskFaults
      ensures Valid() && run == old(run) + if ok then [DroppedStale(now)] else []
      ensures state == old(state).(delivery := state.delivery)
      ensures ok ==> state.delivery.queue == old(state).delivery.queue[1..] && w.diskFaults == old(w.diskFaults)
      ensures !ok ==> state == old(state) && w.diskFaults < old(w.diskFaults)
      ensures old(w.CutOff()) ==> w.CutOff()
    {
      ok := Save(w, DropStale(state), DroppedStale(now));
    }

    /** Saves the delivery of the head that was just accepted. */
    method PopHead(credential: string, w: World) returns (ok: bool)
      requires Valid() && Enabled(run, Delivered(credential, 0)) && Enabled(run[..|run| - 1], Accepted(credential))
      modifies this`state, this`run, w`now, w`readings, w`diskFaults
      ensures Valid() && Flushes(old(run), run, old(w.Clock())) && w.Clock() <= old(w.Clock())
      ensures ok ==>
        && state.delivery.queue == old(state).delivery.queue[1..] && w.diskFaults == old(w.diskFaults)
        && state.connection == old(state).connection.(credential := credential, previous := "")
      ensures SamePairing(old(state), state)
      ensures !ok ==> state == old(state) && w.diskFaults < old(w.diskFaults)
    {
      var now := w.Now();
      assert Replay(run) == Replay(run[..|run| - 1]);
      ok := Save(w, Deliver(state, credential != state.connection.credential, now), Delivered(credential, now));
    }

    /** Offers the head with one credential.  Only a refusal of that credential leaves the outcome
        open. */
    method Attempt(credential: string, w: World) returns (r: Outcome, settled: bool)
      requires Valid() && state.delivery.queue != [] && state.connection.credential != ""
      requires credential in Held(state.connection)
      modifies this`state, this`run, this`posts, w
      ensures Valid() && Flushes(old(run), run, old(w.Clock())) && w.diskFaults <= old(w.diskFaults)
      ensures w.Clock() <= old(w.Clock())
      ensures posts ==
        if w.malformed then old(posts) else old(posts) + [Posted(credential, old(state).delivery.queue[0])]
      ensures if w.malformed then r == BadRequest && w.answers == old(w.answers)
              else Tells(AnswerAt(old(w.answers), 0), r) && w.answers == Skip(old(w.answers), 1)
      ensures settled <==> w.malformed || !Refuses(AnswerAt(old(w.answers), 0))
      ensures w.malformed ==> state == old(state) && run == old(run)
      ensures r == BadRequest <==> w.malformed
      ensures r == NotSaved ==> w.diskFaults < old(w.diskFaults)
      ensures SamePairing(old(state), state)
      ensures !settled ==> r.Rejected? && r.code in {401, 403, 409}
      ensures !settled ==> w.now == old(w.now) && w.readings == old(w.readings)
      ensures !settled ==> state == old(state) && run == old(run) && w.diskFaults == old(w.diskFaults)
      ensures settled && !r.Rejected? ==> r in {Done, BadRequest, NoConnection, StorageFull, NotSaved}
      ensures settled && r.Rejected? ==> r.code !in {401, 403, 409}
      ensures r == Done ==> state.delivery.queue == old(state).delivery.queue[1..] && w.diskFaults == old(w.diskFaults)
      ensures r == Done ==> state.connection == old(state).connection.(credential := credential, previous := "")
      ensures r != Done ==>
        state.delivery.queue == old(state).delivery.queue && state.connection == old(state).connection
      ensures settled && (r in {NoConnection, StorageFull} || r.Rejected?) ==>
        Noted(old(w.diskFaults), w.diskFaults, run)
      ensures old(w.CutOff()) ==> w.CutOff() && w.now == old(w.now)
      ensures old(w.CutOff()) ==> r == NoConnection && settled && FailedOnly(old(state), state, old(run), run, w.now)
    {
      hide Replay, Possible, Noted, FailedOnly, Flushes, SamePairing, World.Clock;
      FlushesNothing(run, w.Clock());
      SamePairingAlways(state);
      if w.malformed { return BadRequest, true; }
      ghost var clock := w.Clock();
      var response := Post(credential, w);
      ghost var run1 := run;
      FlushesPost(old(run), run1, credential, clock);
      match response {
        case Unreachable =>
          MarkFailure(w);
          return NoConnection, true;
        case Status(code) =>
          if code == 507 {
            MarkFailure(w);
            return StorageFull, true;
          } else if code == 202 {
            var ok := PopHead(credential, w);
            FlushesGrow(old(run), run1, run, clock, clock);
            return if ok then Done else NotSaved, true;
          }
          settled := code != 401 && code != 403 && code != 409;
          if settled {
            MarkFailure(w);
          }
          return Rejected(code), settled;
      }
    }

    /** Offers the head with each credential held, newest first, until the outcome is settled. */
    method Offer(w: World) returns (r: Outcome)
      requires Valid() && state.delivery.queue != [] && state.connection.credential != ""
      modifies this`state, this`run, this`posts, w
      ensures Valid() && Flushes(old(run), run, old(w.Clock())) && w.diskFaults <= old(w.diskFaults)
      ensures w.Clock() <= old(w.Clock())
      ensures r in {Done, BadRequest, NoConnection, StorageFull, NotSaved} || r.Rejected?
      ensures r == NotSaved ==> w.diskFaults < old(w.diskFaults)
      ensures r == Done ==> state.delivery.queue == old(state).delivery.queue[1..] && w.diskFaults == old(w.diskFaults)
      ensures SamePairing(old(state), state)
      ensures r == Done ==> Settled(old(state).connection, state.connection)
      ensures r == Done ==> posts != [] && posts[|posts| - 1].credential == state.connection.credential
      // The head is posted under the credentials held, as far as these are refused; the last answer
      // decides, and everything is as it was if the address is malformed.
      ensures r == BadRequest <==> w.malformed
      ensures w.malformed ==> posts == old(posts) && run == old(run)
      ensures !w.malformed ==>
        Tried(old(state).delivery.queue[0], Held(old(state).connection), old(posts), posts,
              old(w.answers), w.answers, r)
      ensures r != Done ==>
        state.delivery.queue == old(state).delivery.queue && state.connection == old(state).connection
      ensures r in {NoConnection, StorageFull} || r.Rejected? ==> Noted(old(w.diskFaults), w.diskFaults, run)
      ensures old(w.CutOff()) ==> w.CutOff() && w.now == old(w.now)
      ensures old(w.CutOff()) ==> r == NoConnection && FailedOnly(old(state), state, old(run), run, w.now)
    {
      hide Replay, Possible, Noted, Flushes, FailedOnly, Offers, Skip, AnswerAt, World.Clock, Tried, SamePairing;
      hide Tells, Refuses, World.CutOff, RefusedSoFar;
      var connection := state.connection;
      var credentials := [connection.credential];
      if connection.previous != "" && connection.previous != connection.credential {
        credentials := credentials + [connection.previous];
      }
      FlushesNothing(run, w.Clock());
      SamePairingAlways(state);
      assert credentials == Held(connection);
      ghost var head := state.delivery.queue[0];
      r := NotPaired;
      RefusedNone(head, credentials, posts, w.answers, r);
      for i := 0 to |credentials|
        invariant Valid() && run == old(run) && state == old(state) && w.diskFaults == old(w.diskFaults)
        invariant w.now == old(w.now) && w.readings == old(w.readings) && w.Clock() == old(w.Clock())
        invariant RefusedSoFar(i, head, credentials, old(posts), posts, old(w.answers), w.answers, r)
        invariant if i > 0 then r.Rejected? && r.code in {401, 403, 409} && !old(w.CutOff()) else r == NotPaired
        invariant i > 0 ==> !w.malformed
        invariant i == 0 ==> w.CutOff() == old(w.CutOff()) && posts == old(posts)
      {
        ghost var posts1, answers1, before := posts, w.answers, r;
        var settled;
        r, settled := Attempt(credentials[i], w);
        if !w.malformed {
          RefusedNext(i, head, credentials, old(posts), posts1, posts, old(w.answers), answers1, w.answers, before, r);
        }
        if settled { return; }
      }
      RefusedAll(head, credentials, old(posts), posts, old(w.answers), w.answers, r);
      MarkFailure(w);
    }

    /** A server that accepts everything, an address that can be used, a working disk, and no batch that
        goes stale. */
    ghost predicate Willing(w: World)
      reads this, w
    {
      && !w.malformed && w.diskFaults == 0
      && NeverStale(state.delivery.queue, w.Clock()) && AllAccepted(w.answers, |state.delivery.queue|)
    }

    /** Offers the head, as a step of working through the queue that started with `s`, `run0`, `posts0`
        and `answers0`. */
    method OfferHead(w: World, ghost s: State, ghost run0: seq<Event>, ghost posts0: seq<Posted>,
                     ghost answers0: seq<Response>, ghost clock: set<int>, ghost willing: bool, ghost now: int)
      returns (r: Outcome)
      requires Valid() && state.delivery.queue != [] && state.connection.credential != ""
      requires Flushes(run0, run, clock) && w.Clock() <= clock
      requires PostedFresh(posts0, posts, clock) && now in clock && !Stale(state.delivery.queue[0], now)
      requires SoFar(s, state, run0, run, posts0, posts, answers0, w.answers, w.malformed)
      requires willing ==>
        SentSoFar(s, state, posts0, posts) && AllAccepted(answers0, |s.delivery.queue|) && !w.malformed
      modifies this`state, this`run, this`posts, w
      ensures Valid() && Flushes(run0, run, clock) && w.Clock() <= clock && w.diskFaults <= old(w.diskFaults)
      ensures PostedFresh(posts0, posts, clock)
      ensures r in {Done, BadRequest, NoConnection, StorageFull, NotSaved} || r.Rejected?
      ensures SamePairing(s, state)
      ensures r == NotSaved ==> w.diskFaults < old(w.diskFaults)
      ensures state.delivery.queue == if r == Done then old(state).delivery.queue[1..] else old(state).delivery.queue
      ensures r == Done ==> SoFar(s, state, run0, run, posts0, posts, answers0, w.answers, w.malformed)
      ensures r != Done ==> Offered(r, s, run0, run, posts0, posts, answers0, w.malformed)
      ensures if w.malformed then r == BadRequest && posts == old(posts) == posts0 && run == old(run)
              else StartsWith(posts, |old(posts)|, old(state).delivery.queue[0]) && posts0 <= old(posts) <= posts
      ensures willing ==> r == NotSaved || (r == Done && SentSoFar(s, state, posts0, posts))
      ensures r in {NoConnection, StorageFull} || r.Rejected? ==> Noted(old(w.diskFaults), w.diskFaults, run)
      ensures old(w.CutOff()) ==> w.CutOff() && w.now == old(w.now)
      ensures old(w.CutOff()) ==> r == NoConnection && FailedOnly(old(state), state, old(run), run, w.now)
    {
      hide Replay, Possible, FailedOnly, Flushes, Noted, Tried, Offered, Skip, AnswerAt, SoFar, SentSoFar;
      hide World.Clock, AllAccepted, SamePairing, Settled, Held, World.CutOff, PostedFresh, Stale;
      ghost var s1, run1, posts1, answers1, clock1 := state, run, posts, w.answers, w.Clock();
      r := Offer(w);
      FlushesGrow(run0, run1, run, clock, clock1);
      FreshOffer(posts0, posts1, posts, clock, s1.delivery.queue[0], Held(s1.connection), answers1, w.answers, r, now);
      SoFarOffer(r, s, s1, state, run0, run1, run, posts0, posts1, posts, answers0, answers1, w.answers, w.malformed);
      if willing {
        SoFarAnswers(s, s1, run0, run1, posts0, posts1, answers0, answers1, w.malformed);
        SentOffer(r, s, s1, state, posts0, posts1, posts, answers0, answers1, w.answers);
      }
    }

    /** Works through the queue from its head. */
    method Flush(w: World) returns (r: Outcome)
      requires Valid()
      modifies this`state, this`run, this`posts, w
      ensures Valid() && Flushes(old(run), run, old(w.Clock())) && w.Clock() <= old(w.Clock())
      ensures r in {Done, BadRequest, NoConnection, StorageFull, NotSaved} || r.Rejected?
      ensures r == Done ==> state.delivery.queue == []
      ensures SuffixOf(state.delivery.queue, old(state).delivery.queue) && SamePairing(old(state), state)
      // Either something was posted, first of all under the current credential, and the outcome tells
      // the last answer; or there was nothing to post but what was stale, or no way to post it.
      ensures Offered(r, old(state), old(run), run, old(posts), posts, old(w.answers), w.malformed)
      ensures HeadIsFresh(old(state), old(w.now), old(w.readings), 1) ==>
        Reaches(r, old(state), old(run), run, old(posts), posts, w.malformed)
      // What is stale is not posted.
      ensures PostedFresh(old(posts), posts, old(w.Clock()))
      // A server that accepts everything is sent every batch once, in order.
      ensures old(Willing(w)) ==>
        r == Done && posts == old(posts) + Sendings(old(state).connection.credential, old(state).delivery.queue)
      ensures r in {NoConnection, StorageFull} || r.Rejected? ==> Noted(old(w.diskFaults), w.diskFaults, run)
      ensures w.diskFaults <= old(w.diskFaults)
      ensures old(w.CutOff()) ==> w.CutOff() && w.now == old(w.now)
      ensures old(w.CutOff()) && old(state).delivery.queue != [] && !Stale(old(state).delivery.queue[0], w.now) ==>
        r == NoConnection && FailedOnly(old(state), state, old(run), run, w.now)
    {
      hide Replay, Possible, FailedOnly, Flushes, Tried, Offered, Skip, AnswerAt, SoFar, SentSoFar;
      hide World.Clock, NeverStale, AllAccepted, SamePairing, Sendings, Shows, Settled, SuffixOf, World.CutOff;
      hide PostedFresh;
      ghost var willing, timely := Willing(w), HeadIsFresh(state, w.now, w.readings, 1);
      FlushesNothing(run, w.Clock());
      SoFarNothing(state, run, posts, w.answers, w.malformed);
      SentNothing(state, posts);
      FreshNothing(posts, w.Clock());
      SuffixAll(state.delivery.queue);
      while true
        invariant Valid() && Flushes(old(run), run, old(w.Clock())) && w.Clock() <= old(w.Clock())
        invariant SuffixOf(state.delivery.queue, old(state).delivery.queue)
        invariant w.diskFaults <= old(w.diskFaults)
        invariant SoFar(old(state), state, old(run), run, old(posts), posts, old(w.answers), w.answers, w.malformed)
        invariant PostedFresh(old(posts), posts, old(w.Clock()))
        invariant willing ==> SentSoFar(old(state), state, old(posts), posts)
        invariant timely ==>
          if posts == old(posts)
          then run == old(run) && state == old(state) && w.now == old(w.now) && w.readings == old(w.readings)
          else StartsWith(posts, |old(posts)|, old(state).delivery.queue[0])
        invariant old(w.CutOff()) ==> w.CutOff() && w.now == old(w.now)
        invariant old(w.CutOff()) && old(state).delivery.queue != [] && !Stale(old(state).delivery.queue[0], w.now)
          ==> state == old(state) && run == old(run)
        decreases |state.delivery.queue|, w.diskFaults
      {
        var queue := state.delivery.queue;
        SuffixPop(queue, old(state).delivery.queue);
        if queue == [] {
          SoFarDone(old(state), state, old(run), run, old(posts), posts, old(w.answers), w.answers, w.malformed);
          if willing {
            SentAll(old(state), state, old(posts), posts);
          }
          return Done;
        }
        P.AlwaysAuthorised(run);
        ghost var s1, run1 := state, run;
        var now := w.Now();
        if now - queue[0].sentAt > MAX_CLOCK_PAST {
          if willing {
            SentFresh(old(state), s1, old(posts), posts, old(w.Clock()), now);
          }
          var _ := DropHead(now, w);
          SoFarDrop(old(state), s1, state, old(run), run1, run, old(posts), posts, old(w.answers), w.answers,
                    w.malformed, now);
          FlushesDrop(old(run), run1, run, old(w.Clock()), now);
        } else {
          r := OfferHead(w, old(state), old(run), old(posts), old(w.answers), old(w.Clock()), willing, now);
          if r != Done { return; }
        }
      }
    }

    /** One collection cycle: queue a sample, then flush unless a retry is not yet due.  A queue
        that cannot take the sample ends the cycle before anything is posted.  `saved` says that
        the sample was queued, and `seen` is when the retry was looked at. */
    method Send(sample: Option<Sample>, w: World) returns (r: Outcome, ghost saved: bool, ghost seen: int)
      requires Valid()
      modifies this`state, this`run, this`posts, w
      ensures Valid() && old(run) <= run && w.diskFaults <= old(w.diskFaults) && SamePairing(old(state), state)
      ensures r == NotPaired <==> old(state).connection.credential == ""
      ensures r == CollectFailed <==> old(state).connection.credential != "" && sample.None?
      ensures saved ==> Ready(old(state), sample)
      ensures Ready(old(state), sample) && !saved ==> w.diskFaults < old(w.diskFaults)
      ensures !saved ==> state == old(state) && run == old(run) && posts == old(posts)
      ensures !saved ==> r in {NotPaired, CollectFailed, QueueFull, NotSaved}
      ensures saved ==> seen == Shows(old(w.now), old(w.readings), 2)
      ensures saved ==>
        |run| > |old(run)| &&
        run[|old(run)|] == Enqueued(Shows(old(w.now), old(w.readings), 1), sample.value.count, sample.value.size)
      ensures PostedFresh(old(posts), posts, old(w.Clock()))
      // It is flushed exactly if a retry is due.
      ensures saved && !Due(old(state).delivery.nextRetryAt, seen) ==>
        && r == Deferred && posts == old(posts) && |run| == |old(run)| + 1
        && state == Queued(old(state), Shows(old(w.now), old(w.readings), 1), sample.value)
      ensures saved && Due(old(state).delivery.nextRetryAt, seen) ==>
        && Offered(r, old(state), run[..|old(run)| + 1], run, old(posts), posts, old(w.answers), w.malformed)
        && (r == Done ==> state.delivery.queue == [])
      ensures saved && Due(old(state).delivery.nextRetryAt, seen) ==>
        var s := Queued(old(state), Shows(old(w.now), old(w.readings), 1), sample.value);
        HeadIsFresh(s, old(w.now), old(w.readings), 3) ==>
          Reaches(r, s, run[..|old(run)| + 1], run, old(posts), posts, w.malformed)
      ensures old(w.CutOff()) && saved && Due(old(state).delivery.nextRetryAt, w.now) ==>
        Patient(old(state).delivery.queue, w.now) ==>
          QueuedAndFailed(old(state), state, old(run), run, sample.value, w.now)
      ensures old(w.CutOff()) ==> w.CutOff() && w.now == old(w.now) && (seen == w.now || !saved)
    {
      hide Replay, Possible, Noted, Flushes, FailedOnly, SuffixOf, Offered, Taken, World.CutOff, World.Clock, Shows;
      saved, seen := false, 0;
      FreshNothing(posts, w.Clock());
      if state.connection.credential == "" { return NotPaired, saved, seen; }
      if sample.None? { return CollectFailed, saved, seen; }
      ghost var at;
      r, at := EnqueueBatch(sample.value, w);
      if r != Done { return; }
      saved := true;
      ghost var queued, run1 := state, run;
      var now := w.Now();
      seen := now;
      if state.delivery.nextRetryAt.Some? && now < state.delivery.nextRetryAt.value {
        return Deferred, saved, seen;
      }
      ghost var clock := w.Clock();
      r := Flush(w);
      FlushesNothing(run1, clock);
      FlushesGrow(run1, run1, run, clock, clock);
      assert run[..|old(run)| + 1] == run1;
      FreshMore(old(posts), posts, clock, old(w.Clock()));
      OfferedSame(r, queued, old(state), run1, run, old(posts), posts, old(w.answers), w.malformed);
      if old(w.CutOff()) && Patient(old(state).delivery.queue, w.now) {
        Together(old(state), queued, state, old(run), run1, run, sample.value, w.now);
      }
    }

    /** Asks a server for a pairing; it takes effect only once that is approved. */
    method RequestPairing(server: string, allowed: bool, secret: Option<string>,
                          response: Response, id: string, phrase: string, w: World)
      returns (r: Outcome)
      requires Valid()
      modifies this`state, this`run, w`diskFaults
      ensures Valid() && w.diskFaults <= old(w.diskFaults)
      ensures r == Done ==>
        && secret.Some? && state == Request(old(state), Pending(server, id, secret.value))
        && run == old(run) + [Requested(state.pending)]
      ensures r == Done ==> allowed && response == Status(201) && id != "" && phrase != ""
      ensures r != Done ==> state == old(state) && run == old(run)
      ensures allowed && secret.Some? && response == Status(201) && id != "" && phrase != "" ==>
        r == Done || w.diskFaults < old(w.diskFaults)
    {
      if !allowed || secret.None? { return BadRequest; }
      if response.Unreachable? { return NoConnection; }
      if response.code != 201 { return Rejected(response.code); }
      if id == "" || phrase == "" { return InvalidAnswer; }
      var pending := Pending(server, id, secret.value);
      var ok := Save(w, Request(state, pending), Requested(pending));
      return if ok then Done else NotSaved;
    }

    /** Asks Watchpost about the pending request and, once approved, starts a new pairing and
        sends a first sample. */
    method Poll(response: Response, approved: bool, postId: string, credential: string, sample: Option<Sample>,
                w: World)
      returns (r: Outcome, paired: bool)
      requires Valid()
      modifies this`state, this`run, this`posts, w
      ensures Valid() && old(run) <= run && w.diskFaults <= old(w.diskFaults)
      ensures !paired ==> state == old(state) && run == old(run) && posts == old(posts)
      ensures paired ==> Answered(old(state).pending, response, approved, postId, credential)
      ensures Answered(old(state).pending, response, approved, postId, credential) && !paired ==>
        w.diskFaults < old(w.diskFaults)
      ensures paired ==> old(run) + [Approved(postId, credential)] <= run
      // The new pairing is with the server that was asked, and a first sample is sent at once, numbered
      // from one.
      ensures paired ==>
        && state.connection.url == old(state).pending.url && state.connection.postId == postId
        && state.pending == NO_PENDING && !state.connection.revocationPending
      ensures paired && sample.Some? && sample.value.size <= MAX_BYTES && w.diskFaults == old(w.diskFaults) ==>
        var first := FirstBatch(old(w.now), old(w.readings), sample.value);
        !w.malformed && !Stale(first, Shows(old(w.now), old(w.readings), 3)) ==>
          |posts| > |old(posts)| && posts[|old(posts)|] == Posted(credential, first)
      ensures old(w.CutOff()) ==> w.CutOff() && w.now == old(w.now)
      ensures paired && sample.None? ==>
        state == Approve(old(state), postId, credential) && run == old(run) + [Approved(postId, credential)]
    {
      hide Replay, Possible;
      if state.pending.requestId == "" || state.pending.secret == "" { return NothingPending, false; }
      if response.Unreachable? { return NoConnection, false; }
      if response.code != 200 { return Rejected(response.code), false; }
      if !approved { return Done, false; }
      if postId == "" || credential == "" { return InvalidAnswer, false; }
      var ok := Save(w, Approve(state, postId, credential), Approved(postId, credential));
      if !ok { return NotSaved, false; }
      paired := true;
      ApprovedState(old(state), postId, credential);
      ghost var s1 := state;
      if sample.Some? {
        FirstQueued(s1, Shows(w.now, w.readings, 1), sample.value);
      }
      ghost var saved, seen;
      r, saved, seen := Send(sample, w);
    }

    /** Replaces the credential, keeping the old one until one of them is confirmed. */
    method RotateCredential(response: Response, credential: string, w: World) returns (r: Outcome)
      requires Valid()
      modifies this`state, this`run, w`diskFaults
      ensures Valid() && old(run) <= run && w.diskFaults <= old(w.diskFaults)
      ensures r != Done ==> state == old(state) && run == old(run)
      ensures r == Done ==> old(state).connection.credential != "" && response == Status(200) && credential != ""
      ensures old(state).connection.credential != "" && response == Status(200) && credential != "" ==>
        r == Done || w.diskFaults < old(w.diskFaults)
      ensures r == Done ==>
        && state.connection ==
           old(state).connection.(credential := credential, previous := old(state).connection.credential)
        && state.delivery == old(state).delivery
    {
      if state.connection.credential == "" { return NotPaired; }
      if response.Unreachable? { return NoConnection; }
      if response.code != 200 { return Rejected(response.code); }
      if credential == "" { return InvalidAnswer; }
      var ok := Save(w, Rotate(state, credential), Rotated(credential));
      return if ok then Done else NotSaved;
    }

    /** Revokes at Watchpost first; authority is kept locally until that is confirmed. */
    method Unpair(response: Response, w: World) returns (r: Outcome)
      requires Valid()
      modifies this`state, this`run, w`diskFaults
      ensures Valid() && old(run) <= run && w.diskFaults <= old(w.diskFaults)
      ensures r == NotPaired <==> old(state).connection.credential == ""
      ensures r == Done ==> Revokes(response)
      ensures r == RevocationPending ==> !Revokes(response)
      ensures r in {NotPaired, Done, RevocationPending} || (r == NotSaved && w.diskFaults < old(w.diskFaults))
      ensures r == NotPaired || r == NotSaved ==> state == old(state) && run == old(run)
      ensures r == Done ==> state.connection == NO_CONNECTION && state.delivery == NO_DELIVERY
      ensures r == RevocationPending ==>
        && state.connection == old(state).connection.(revocationPending := true) && state.connection.credential != ""
        && state.delivery == old(state).delivery
    {
      if state.connection.credential == "" { return NotPaired; }
      var revoked := RequestServerUnpair(response);
      if revoked {
        var cause := Revoked(response.code);
        var ok := Save(w, Clear(state, cause), Cleared(cause));
        return if ok then Done else NotSaved;
      }
      var ok := Save(w, MarkRevocation(state), RevocationMarked);
      return if ok then RevocationPending else NotSaved;
    }

    /** Continues an unpair that could not reach Watchpost. */
    method RetryPendingRevocation(response: Response, w: World) returns (r: Outcome)
      requires Valid()
      modifies this`state, this`run, w`diskFaults
      ensures Valid() && old(run) <= run && w.diskFaults <= old(w.diskFaults)
      ensures r != Done || !old(state).connection.revocationPending ==> state == old(state) && run == old(run)
      ensures r == Done && old(state).connection.revocationPending ==>
        state.connection == NO_CONNECTION && Revokes(response)
      ensures old(state).connection.revocationPending && Revokes(response) ==>
        r == Done || w.diskFaults < old(w.diskFaults)
      ensures old(state).connection.revocationPending && r == Done ==>
        response.Status? && run == old(run) + [Cleared(Revoked(response.code))]
    {
      P.AlwaysAuthorised(run);
      if !state.connection.revocationPending || state.connection.credential == "" { return Done; }
      var revoked := RequestServerUnpair(response);
      if !revoked { return NoConnection; }
      var cause := Revoked(response.code);
      var ok := Save(w, Clear(state, cause), Cleared(cause));
      return if ok then Done else NotSaved;
    }

    /** Rounds of the agent's background loop. */
    method DeliveryLoop(rounds: seq<Round>, w: World)
      requires Valid()
      modifies this`state, this`run, this`posts, w
      ensures Valid() && old(run) <= run && w.diskFaults <= old(w.diskFaults)
      // A queue that none of the samples fits is never sent again, however long the loop runs and
      // whatever the server would answer: each cycle ends at the enqueue, before the flush.
      ensures Stuck(old(state), rounds) ==> state == old(state) && run == old(run) && posts == old(posts)
      // Otherwise, on a working disk, the first round queues its sample if that fits, or completes a
      // pending revocation once the server confirms it.
      ensures rounds != [] && w.diskFaults == old(w.diskFaults) ==>
        Begins(old(state), rounds[0], old(run), run, Shows(old(w.now), old(w.readings), 1))
    {
      hide Replay, Possible, Shows, Ready, Offered, Begins;
      for i := 0 to |rounds|
        invariant Valid() && old(run) <= run && w.diskFaults <= old(w.diskFaults)
        invariant i == 0 ==> state == old(state) && run == old(run) && w.diskFaults == old(w.diskFaults)
        invariant i == 0 ==> w.now == old(w.now) && w.readings == old(w.readings)
        invariant i > 0 && w.diskFaults == old(w.diskFaults) ==>
          Begins(old(state), rounds[0], old(run), run, Shows(old(w.now), old(w.readings), 1))
        invariant Stuck(old(state), rounds) ==> state == old(state) && run == old(run) && posts == old(posts)
      {
        ghost var s, run1 := state, run;
        StuckIsNotReady(s, rounds, i);
        ghost var at := Shows(w.now, w.readings, 1);
        if state.connection.revocationPending && state.connection.credential != "" {
          P.AlwaysAuthorised(run);
          var _ := RetryPendingRevocation(rounds[i].response, w);
          if i == 0 && w.diskFaults == old(w.diskFaults) {
            RetryBegins(s, rounds[0], run1, run, at);
          }
        } else {
          ghost var saved, seen;
          var r;
          P.AlwaysAuthorised(run);
          r, saved, seen := Send(rounds[i].sample, w);
          if i == 0 && w.diskFaults == old(w.diskFaults) {
            SendBegins(s, rounds[0], run1, run, at);
          }
        }
        if i > 0 {
          BeginsLater(old(state), rounds[0], old(run), run1, run, Shows(old(w.now), old(w.readings), 1));
        }
      }
    }
  }

  /** A credential that Watchpost no longer knows is revoked as well. */
  predicate Revokes(response: Response) { response.Status? && RevokedStatus(response.code) }

  /** Whether the server's answer confirms the revocation. */
  method RequestServerUnpair(response: Response) returns (revoked: bool)
    ensures revoked <==> response in {Status(204), Status(401), Status(404)}
  {
    if response.Unreachable? { return false; }
    return response.code == 204 || response.code == 401 || response.code == 404;
  }

  /** The state once a sample that fits has been queued. */
  function Queued(s: State, now: int, sample: Sample): State {
    var next := Enqueue(s, now, sample.count, sample.size);
    if next.Some? then next.value else s
  }

  /** A paired agent whose sample fits the queue. */
  predicate Ready(s: State, sample: Option<Sample>) {
    s.connection.credential != "" && sample.Some? && Fits(s.delivery.queue, sample.value.size)
  }

  /** What a round does first of all. */
  ghost predicate Begins(s: State, round: Round, run: seq<Event>, run': seq<Event>, at: int) {
    && run <= run'
    && (s.connection.revocationPending && Revokes(round.response) ==>
          |run| < |run'| && run'[|run|] == Cleared(Revoked(round.response.code)))
    && (!s.connection.revocationPending && Ready(s, round.sample) ==>
          |run| < |run'| && run'[|run|] == Enqueued(at, round.sample.value.count, round.sample.value.size))
  }

  lemma RetryBegins(s: State, round: Round, run: seq<Event>, run': seq<Event>, at: int)
    requires s.connection.revocationPending && run <= run'
    requires Revokes(round.response) ==> run' == run + [Cleared(Revoked(round.response.code))]
    ensures Begins(s, round, run, run', at)
  {
  }

  lemma SendBegins(s: State, round: Round, run: seq<Event>, run': seq<Event>, at: int)
    requires !s.connection.revocationPending && run <= run'
    requires Ready(s, round.sample) ==>
      |run| < |run'| && run'[|run|] == Enqueued(at, round.sample.value.count, round.sample.value.size)
    ensures Begins(s, round, run, run', at)
  {
  }

  lemma BeginsLater(s: State, round: Round, run: seq<Event>, run1: seq<Event>, run2: seq<Event>, at: int)
    requires run1 <= run2
    ensures Begins(s, round, run, run1, at) ==> Begins(s, round, run, run2, at)
  {
    hide Ready;
  }

  /** No sample of the rounds fits, and no revocation is pending. */
  predicate Stuck(s: State, rounds: seq<Round>) {
    && !s.connection.revocationPending
    && forall i :: 0 <= i < |rounds| && rounds[i].sample.Some? ==> !Fits(s.delivery.queue, rounds[i].sample.value.size)
  }

  lemma StuckIsNotReady(s: State, rounds: seq<Round>, i: nat)
    requires i < |rounds|
    ensures Stuck(s, rounds) ==> !Ready(s, rounds[i].sample)
  {
  }

  /** The pending request has been approved in a form that can be used. */
  predicate Answered(pending: Pending, response: Response, approved: bool, postId: string, credential: string) {
    && pending.requestId != "" && pending.secret != ""
    && response == Status(200) && approved && postId != "" && credential != ""
  }

  /** Nothing at the head of the queue is stale. */
  predicate Patient(queue: seq<Batch>, now: int) { queue != [] ==> !Stale(queue[0], now) }

  /** All that happened is a recorded failure. */
  ghost predicate FailedOnly(s: State, s': State, run: seq<Event>, run': seq<Event>, now: int) {
    s' == Fail(s, now) && run' == run + [FailedAt(now)]
  }

  /** A sample was queued, and then a failure recorded. */
  ghost predicate QueuedAndFailed(s: State, s': State, run: seq<Event>, run': seq<Event>, sample: Sample, now: int) {
    && Enqueue(s, now, sample.count, sample.size).Some?
    && s' == Fail(Enqueue(s, now, sample.count, sample.size).value, now)
    && run' == run + [Enqueued(now, sample.count, sample.size), FailedAt(now)]
  }

  lemma Together(s: State, s1: State, s2: State, run: seq<Event>, run1: seq<Event>, run2: seq<Event>,
                 sample: Sample, now: int)
    requires Enqueue(s, now, sample.count, sample.size) == Some(s1)
    requires run1 == run + [Enqueued(now, sample.count, sample.size)] && FailedOnly(s1, s2, run1, run2, now)
    ensures QueuedAndFailed(s, s2, run, run2, sample, now)
  {
  }

  /** A step of the sender's flush, at an instant that the clock has shown. */
  predicate Flushing(e: Event, clock: set<int>) {
    match e
    case Accepted(_) => true
    case Delivered(_, now) => now in clock
    case DroppedStale(now) => now in clock
    case FailedAt(now) => now in clock
    case _ => false
  }

  /** A run continued by such steps only. */
  ghost predicate Flushes(run: seq<Event>, run': seq<Event>, clock: set<int>) {
    run <= run' && forall i :: |run| <= i < |run'| ==> Flushing(run'[i], clock)
  }

  lemma FlushesNothing(run: seq<Event>, clock: set<int>)
    ensures Flushes(run, run, clock)
  {
  }

  lemma FlushesPost(run: seq<Event>, run': seq<Event>, credential: string, clock: set<int>)
    requires run' == run || run' == run + [Accepted(credential)]
    ensures Flushes(run, run', clock)
  {
  }

  lemma FlushesGrow(run: seq<Event>, run1: seq<Event>, run2: seq<Event>, clock: set<int>, clock1: set<int>)
    requires Flushes(run, run1, clock) && Flushes(run1, run2, clock1) && clock1 <= clock
    ensures run1 <= run2 && Flushes(run, run2, clock)
  {
  }

  lemma FlushesDrop(run: seq<Event>, run1: seq<Event>, run2: seq<Event>, clock: set<int>, now: int)
    requires Flushes(run, run1, clock) && now in clock && (run2 == run1 || run2 == run1 + [DroppedStale(now)])
    ensures Flushes(run, run2, clock)
  {
  }

  /** The failure was recorded as the last step, unless saving it failed. */
  ghost predicate Noted(faults: nat, faults': nat, run: seq<Event>) {
    faults' < faults || (run != [] && run[|run| - 1].FailedAt?)
  }

  // ------------------------------------------------------ queues that get stuck

  const INTERVAL := 300 * SECOND

  /** An agent that has just been paired. */
  method Paired(w: World) returns (a: Agent)
    requires w.CutOff()
    modifies w
    ensures fresh(a) && a.Valid() && w.CutOff() && w.now == old(w.now)
    ensures a.state.connection.credential != "" && !a.state.connection.revocationPending
    ensures a.state.delivery == NO_DELIVERY && |a.run| == 2
  {
    hide Replay, Possible, Request, Approve;
    a := new Agent();
    var r := a.RequestPairing("server", true, Some("secret"), Status(201), "id", "phrase", w);
    PendingAfterRequest(FIRST, Pending("server", "id", "secret"));
    ghost var s := a.state;
    var paired;
    r, paired := a.Poll(Status(200), true, "post", "credential", None, w);
    ApprovedState(s, "post", "credential");
  }

  lemma PendingAfterRequest(s: State, pending: Pending)
    ensures Request(s, pending).pending == pending
  {
  }

  lemma ApprovedState(s: State, postId: string, credential: string)
    ensures var s' := Approve(s, postId, credential);
      && s'.connection.credential == credential && !s'.connection.revocationPending
      && s'.connection.url == s.pending.url && s'.connection.postId == postId && s'.connection.previous == ""
      && s'.pending == NO_PENDING && s'.delivery == NO_DELIVERY && s'.nextSequence == 1
  {
  }

  /** The first batch of a pairing. */
  function FirstBatch(now: int, readings: seq<int>, sample: Sample): Batch {
    Batch(Shows(now, readings, 1), seq(sample.count, i => 1 + i), sample.size)
  }

  lemma FirstQueued(s: State, now: int, sample: Sample)
    requires s.delivery == NO_DELIVERY && s.nextSequence == 1
    ensures sample.size <= MAX_BYTES <==> Fits(s.delivery.queue, sample.size)
    ensures sample.size <= MAX_BYTES ==>
      Queued(s, now, sample).delivery.queue == [Batch(now, seq(sample.count, i => 1 + i), sample.size)]
  {
    assert Numbers(1, sample.count) == seq(sample.count, i => 1 + i);
  }

  /** How far an agent has got that was cut off for `n` cycles. */
  ghost predicate FilledState(s: State, n: nat) {
    && s.connection.credential != "" && !s.connection.revocationPending
    && |s.delivery.queue| == n && Total(s.delivery.queue) == 100 * n && s.delivery.failures == n
    && (n > 0 ==> s.delivery.queue[0].sentAt == 0)
    && Due(s.delivery.nextRetryAt, n * INTERVAL)
  }

  ghost predicate Filled(a: Agent, w: World, n: nat)
    reads a, w
  {
    a.Valid() && w.CutOff() && FilledState(a.state, n) && |a.run| == 2 + 2 * n
  }

  lemma MayFill(s: State, n: nat)
    requires FilledState(s, n) && n < MAX_QUEUE
    ensures Ready(s, Some(Sample(1, 100))) && Patient(s.delivery.queue, n * INTERVAL)
  {
    hide Total;
  }

  lemma FillStep(s: State, s': State, run: seq<Event>, run': seq<Event>, n: nat)
    requires FilledState(s, n) && n < MAX_QUEUE
    requires QueuedAndFailed(s, s', run, run', Sample(1, 100), n * INTERVAL)
    ensures FilledState(s', n + 1)
  {
    hide Total, Delay;
    var batch := NewBatch(s, n * INTERVAL, 1, 100);
    P.TotalConcat(s.delivery.queue, [batch]);
    assert Total([batch]) == 100 by { TotalOne(batch); }
    P.DelayExact(n + 1);
  }

  lemma TotalOne(batch: Batch)
    ensures Total([batch]) == batch.size
  {
  }

  /** One cycle, five minutes after the last: the sample is queued, the post fails. */
  method FillOne(a: Agent, w: World, n: nat)
    requires Filled(a, w, n) && n < MAX_QUEUE
    modifies a, w
    ensures Filled(a, w, n + 1)
  {
    hide Replay, Possible, Ready, Patient, FilledState;
    w.now := n * INTERVAL;
    ghost var s, run := a.state, a.run;
    MayFill(s, n);
    assert Due(s.delivery.nextRetryAt, n * INTERVAL) by { StillDue(s, n); }
    ghost var saved, seen;
    var r;
    r, saved, seen := a.Send(Some(Sample(1, 100)), w);
    FillStep(s, a.state, run, a.run, n);
  }

  lemma StillDue(s: State, n: nat)
    requires FilledState(s, n)
    ensures Due(s.delivery.nextRetryAt, n * INTERVAL)
  {
  }

  /** A server that cannot be reached for less than a day fills the queue by count: 256 samples,
      each followed by a failed attempt.  From then on nothing is ever posted, even to a server
      that answers again. */
  method FillsUp(rounds: seq<Round>, later: World) returns (a: Agent)
    modifies later
    ensures a.Valid() && |a.state.delivery.queue| == MAX_QUEUE && a.state.delivery.failures == MAX_QUEUE
    ensures |a.run| == 2 + 2 * MAX_QUEUE
    ensures forall size: nat :: !Fits(a.state.delivery.queue, size)
  {
    var w := new World(0, [], [], false, 0);
    a := Paired(w);
    for n := 0 to MAX_QUEUE
      invariant fresh(a) && fresh(w) && Filled(a, w, n)
    {
      FillOne(a, w, n);
    }
    a.DeliveryLoop(rounds, later);
  }

  /** A single sample can fill the queue by bytes. */
  method FillsUpByBytes(rounds: seq<Round>, later: World) returns (a: Agent)
    modifies later
    ensures a.Valid() && |a.state.delivery.queue| == 1 && a.state.delivery.failures == 1
    ensures forall sample: Sample :: !Fits(a.state.delivery.queue, sample.size)
  {
    var w := new World(0, [], [], false, 0);
    a := Paired(w);
    ghost var s := a.state;
    ghost var saved, seen;
    var r;
    r, saved, seen := a.Send(Some(Sample(1, MAX_BYTES)), w);
    P.TotalConcat(s.delivery.queue, [NewBatch(s, w.now, 1, MAX_BYTES)]);
    a.DeliveryLoop(rounds, later);
  }
}
