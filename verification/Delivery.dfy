/** The durable delivery queue and the pairing it belongs to, as a machine whose steps are the
    committed saves.  A run is the list of those steps; what was enqueued, what left the queue
    and why are read off the run, independently of the state. */
module Delivery {
  import opened Wrappers

  const SECOND := 1_000_000_000
  const MAX_CLOCK_PAST := 24 * 60 * 60 * SECOND
  const MAX_DELAY := 5 * 60 * SECOND
  const MAX_QUEUE := 256
  const MAX_BYTES := 0x80_0000
  const MAX_AUDIT := 200

  /** A queued batch: when it was taken, the sequence numbers of its samples, its encoded size. */
  datatype Batch = Batch(sentAt: int, sequences: seq<int>, size: nat)

  datatype Connection = Connection(
    url: string,
    postId: string,
    credential: string,
    previous: string,
    revocationPending: bool)

  datatype Pending = Pending(url: string, requestId: string, secret: string)

  datatype Queueing = Queueing(
    queue: seq<Batch>,
    failures: nat,
    nextRetryAt: Option<int>,
    lastSuccessAt: Option<int>,
    dropped: nat)

  datatype State = State(
    connection: Connection,
    pending: Pending,
    nextSequence: int,
    delivery: Queueing,
    audit: seq<string>)

  const NO_CONNECTION := Connection("", "", "", "", false)
  const NO_PENDING := Pending("", "", "")
  const NO_DELIVERY := Queueing([], 0, None, None, 0)

  /** What `Open` writes on first start. */
  const FIRST := State(NO_CONNECTION, NO_PENDING, 0, NO_DELIVERY, [])

  /** Why local authority was given up. */
  datatype Cause = Revoked(status: int) | LocalReset

  datatype Event =
    | Enqueued(now: int, count: nat, size: nat)
    | Accepted(credential: string)        // the server answered 202 for the head; nothing saved yet
    | Delivered(credential: string, now: int)
    | DroppedStale(now: int)
    | FailedAt(now: int)
    | Requested(pending: Pending)
    | Approved(postId: string, credential: string)
    | Rotated(credential: string)
    | RevocationMarked
    | Cleared(cause: Cause)

  // ------------------------------------------------------------------- edits

  function Total(queue: seq<Batch>): nat {
    if queue == [] then 0 else queue[0].size + Total(queue[1..])
  }

  /** Consecutive numbers from `first`. */
  function Numbers(first: int, count: nat): (r: seq<int>)
    ensures |r| == count
  {
    seq(count, i => first + i)
  }

  function FirstSequence(s: State): int { if s.nextSequence < 1 then 1 else s.nextSequence }

  function NewBatch(s: State, now: int, count: nat, size: nat): Batch {
    Batch(now, Numbers(FirstSequence(s), count), size)
  }

  /** Whether a batch of that size may join the queue. */
  predicate Fits(queue: seq<Batch>, size: nat) {
    |queue| < MAX_QUEUE && size + Total(queue) <= MAX_BYTES
  }

  /** The enqueue callback; None is its error, which discards the edit. */
  function Enqueue(s: State, now: int, count: nat, size: nat): (next: Option<State>)
    ensures next.Some? <==> Fits(s.delivery.queue, size)
  {
    if |s.delivery.queue| >= MAX_QUEUE then None
    else if size + Total(s.delivery.queue) > MAX_BYTES then None
    else
      Some(s.(nextSequence := FirstSequence(s) + count,
              delivery := s.delivery.(queue := s.delivery.queue + [NewBatch(s, now, count, size)])))
  }

  function Tail(queue: seq<Batch>): seq<Batch> { if queue == [] then [] else queue[1..] }

  /** The callback after a 202: pop the head, forget failures, settle a credential overlap. */
  function Deliver(s: State, usedPrevious: bool, now: int): State {
    s.(delivery := s.delivery.(queue := Tail(s.delivery.queue), failures := 0, nextRetryAt := None,
                               lastSuccessAt := Some(now)),
       connection := if usedPrevious then s.connection.(credential := s.connection.previous, previous := "")
                     else s.connection.(previous := ""))
  }

  function DropStale(s: State): State {
    s.(delivery := s.delivery.(queue := Tail(s.delivery.queue), dropped := s.delivery.dropped + 1))
  }

  function Pow2(n: nat): nat { if n == 0 then 1 else 2 * Pow2(n - 1) }

  /** The retry delay after `failures` consecutive failures. */
  function Delay(failures: nat): int
    requires failures >= 1
  {
    var shift := if failures - 1 > 8 then 8 else failures - 1;
    var delay := Pow2(shift) * SECOND;
    if delay > MAX_DELAY then MAX_DELAY else delay
  }

  function Fail(s: State, now: int): State {
    var n := s.delivery.failures + 1;
    s.(delivery := s.delivery.(failures := n, nextRetryAt := Some(now + Delay(n))))
  }

  /** Keeps the newest rows. */
  function AppendAudit(audit: seq<string>, row: string): seq<string> {
    var all := audit + [row];
    if |all| > MAX_AUDIT then all[|all| - MAX_AUDIT..] else all
  }

  function Request(s: State, pending: Pending): State {
    s.(pending := pending, audit := AppendAudit(s.audit, "pairing_request"))
  }

  function Approve(s: State, postId: string, credential: string): State {
    s.(connection := Connection(s.pending.url, postId, credential, "", false),
       pending := NO_PENDING, nextSequence := 1, delivery := NO_DELIVERY,
       audit := AppendAudit(s.audit, "pairing_poll"))
  }

  /** The new credential becomes current; the old one is kept until one of them is confirmed. */
  function Rotate(s: State, credential: string): State {
    s.(connection := s.connection.(previous := s.connection.credential, credential := credential),
       audit := AppendAudit(s.audit, "rotate"))
  }

  function MarkRevocation(s: State): State {
    s.(connection := s.connection.(revocationPending := true), audit := AppendAudit(s.audit, "unpair_pending"))
  }

  /** Unpairing and resetting; a reset drops the audit rows with the rest of the local accounts. */
  function Clear(s: State, cause: Cause): State {
    State(NO_CONNECTION, NO_PENDING, 1, NO_DELIVERY, if cause.Revoked? then AppendAudit(s.audit, "unpair") else [])
  }

  /** The statuses that mean Watchpost no longer honours the credential. */
  predicate RevokedStatus(status: int) { status == 204 || status == 401 || status == 404 }

  // -------------------------------------------------------------------- runs

  function Apply(s: State, e: Event): State {
    match e
    case Enqueued(now, count, size) => (match Enqueue(s, now, count, size) case Some(next) => next case None => s)
    case Accepted(_) => s
    case Delivered(credential, now) => Deliver(s, credential != s.connection.credential, now)
    case DroppedStale(_) => DropStale(s)
    case FailedAt(now) => Fail(s, now)
    case Requested(pending) => Request(s, pending)
    case Approved(postId, credential) => Approve(s, postId, credential)
    case Rotated(credential) => Rotate(s, credential)
    case RevocationMarked => MarkRevocation(s)
    case Cleared(cause) => Clear(s, cause)
  }

  function Replay(run: seq<Event>): State {
    if run == [] then FIRST else Apply(Replay(run[..|run| - 1]), run[|run| - 1])
  }

  predicate Holds(c: Connection, credential: string) {
    credential == c.credential || (credential == c.previous && credential != "")
  }

  /** When the agent takes a step.  A delivery is saved only right after the server accepted the
      head with the credential it names. */
  predicate Enabled(run: seq<Event>, e: Event) {
    var s := Replay(run);
    match e
    case Enqueued(now, count, size) =>
      s.connection.credential != "" && count > 0 && size > 0 && Fits(s.delivery.queue, size)
    case Accepted(credential) =>
      s.delivery.queue != [] && s.connection.credential != "" && Holds(s.connection, credential)
    case Delivered(credential, _) => |run| > 0 && run[|run| - 1] == Accepted(credential)
    case DroppedStale(now) => s.delivery.queue != [] && now - s.delivery.queue[0].sentAt > MAX_CLOCK_PAST
    case FailedAt(_) => s.connection.credential != ""
    case Requested(_) => true
    case Approved(postId, credential) =>
      s.pending.requestId != "" && s.pending.secret != "" && postId != "" && credential != ""
    case Rotated(credential) => s.connection.credential != "" && credential != ""
    case RevocationMarked => s.connection.credential != ""
    case Cleared(cause) => cause.Revoked? ==> s.connection.credential != "" && RevokedStatus(cause.status)
  }

  predicate Possible(run: seq<Event>) {
    run == [] || (Possible(run[..|run| - 1]) && Enabled(run[..|run| - 1], run[|run| - 1]))
  }

  // ----------------------------------------------------------------- history

  /** A new pairing, or the end of one: the history starts afresh. */
  predicate Boundary(e: Event) { e.Approved? || e.Cleared? }

  /** The batches enqueued in the current pairing. */
  function Sent(run: seq<Event>): seq<Batch> {
    if run == [] then []
    else
      var before, e := run[..|run| - 1], run[|run| - 1];
      if Boundary(e) then []
      else if e.Enqueued? then Sent(before) + [NewBatch(Replay(before), e.now, e.count, e.size)]
      else Sent(before)
  }

  datatype Exit = Exit(batch: Batch, reason: Event)

  /** The batches that left the queue in the current pairing, and the step that removed each. */
  function Exits(run: seq<Event>): seq<Exit> {
    if run == [] then []
    else
      var before, e := run[..|run| - 1], run[|run| - 1];
      var queue := Replay(before).delivery.queue;
      if Boundary(e) then []
      else if (e.Delivered? || e.DroppedStale?) && queue != [] then Exits(before) + [Exit(queue[0], e)]
      else Exits(before)
  }

  /** For each 202 of the current pairing, how many batches had left the queue before it. */
  function Acceptances(run: seq<Event>): seq<nat> {
    if run == [] then []
    else
      var before, e := run[..|run| - 1], run[|run| - 1];
      if Boundary(e) then []
      else if e.Accepted? then Acceptances(before) + [|Exits(before)|]
      else Acceptances(before)
  }

  function Batches(exits: seq<Exit>): (r: seq<Batch>)
    ensures |r| == |exits|
  {
    seq(|exits|, i requires 0 <= i < |exits| => exits[i].batch)
  }

  function Sequences(queue: seq<Batch>): seq<int> {
    if queue == [] then [] else Sequences(queue[..|queue| - 1]) + queue[|queue| - 1].sequences
  }
}
