/** What holds in every reachable state, over runs of any length. */
module DeliveryProofs {
  import opened Wrappers
  import opened Delivery

  function Init(run: seq<Event>): seq<Event>
    requires run != []
  {
    run[..|run| - 1]
  }

  function Last(run: seq<Event>): Event
    requires run != []
  {
    run[|run| - 1]
  }

  lemma ReplaySnoc(run: seq<Event>, e: Event)
    ensures Replay(run + [e]) == Apply(Replay(run), e)
    ensures Possible(run + [e]) ==> Possible(run) && Enabled(run, e)
  {
    assert (run + [e])[..|run|] == run;
  }

  lemma SentSnoc(run: seq<Event>, e: Event)
    ensures Sent(run + [e]) ==
      if Boundary(e) then []
      else if e.Enqueued? then Sent(run) + [NewBatch(Replay(run), e.now, e.count, e.size)]
      else Sent(run)
  {
    hide Replay;
    assert (run + [e])[..|run|] == run;
  }

  lemma ExitsSnoc(run: seq<Event>, e: Event)
    ensures var queue := Replay(run).delivery.queue;
      Exits(run + [e]) ==
        if Boundary(e) then []
        else if (e.Delivered? || e.DroppedStale?) && queue != [] then Exits(run) + [Exit(queue[0], e)]
        else Exits(run)
  {
    hide Replay;
    assert (run + [e])[..|run|] == run;
  }

  // ------------------------------------------------------------ conservation

  /** A step that pops does so from a queue that has a head. */
  lemma PopHasHead(run: seq<Event>)
    requires run != [] && Possible(run) && (Last(run).Delivered? || Last(run).DroppedStale?)
    ensures Replay(Init(run)).delivery.queue != []
  {
    if Last(run).Delivered? {
      var before := Init(run);
      assert Enabled(before, Last(run));
      assert Enabled(Init(before), Last(before));
    }
  }

  lemma EnqueuedFits(run: seq<Event>)
    requires run != [] && Possible(run)
    ensures Last(run).Enqueued? ==> Enqueue(Replay(Init(run)), Last(run).now, Last(run).count, Last(run).size).Some?
  {
  }

  lemma BatchesSnoc(exits: seq<Exit>, x: Exit)
    ensures Batches(exits + [x]) == Batches(exits) + [x.batch]
  {
  }

  lemma NoBatches()
    ensures Batches([]) == []
  {
  }

  /** What a step does to the queue. */
  lemma QueueAfter(s: State, e: Event)
    ensures var queue := s.delivery.queue;
      Apply(s, e).delivery.queue ==
        if Boundary(e) then []
        else if e.Enqueued? && Fits(queue, e.size) then queue + [NewBatch(s, e.now, e.count, e.size)]
        else if (e.Delivered? || e.DroppedStale?) && queue != [] then queue[1..]
        else queue
  {
  }

  lemma HeadMoves(gone: seq<Batch>, queue: seq<Batch>)
    requires queue != []
    ensures gone + [queue[0]] + queue[1..] == gone + queue
  {
  }

  lemma Associates<T>(a: seq<T>, b: seq<T>, c: seq<T>)
    ensures a + (b + c) == a + b + c
  {
  }

  /** First in, first out, and nothing lost: what was enqueued is what left, in order, followed
      by what is still queued. */
  lemma {:induction false} Conservation(run: seq<Event>)
    requires Possible(run)
    ensures Sent(run) == Batches(Exits(run)) + Replay(run).delivery.queue
  {
    if run == [] {
    } else {
      hide Enabled, Enqueue, NewBatch, Apply, Replay, Possible, Sent, Exits, Batches;
      var before, e := Init(run), Last(run);
      assert run == before + [e];
      ReplaySnoc(before, e);
      SentSnoc(before, e);
      ExitsSnoc(before, e);
      Conservation(before);
      EnqueuedFits(run);
      QueueAfter(Replay(before), e);
      var gone, queue := Batches(Exits(before)), Replay(before).delivery.queue;
      NoBatches();
      if e.Enqueued? {
        Associates(gone, queue, [NewBatch(Replay(before), e.now, e.count, e.size)]);
      } else if e.Delivered? || e.DroppedStale? {
        PopHasHead(run);
        BatchesSnoc(Exits(before), Exit(queue[0], e));
        HeadMoves(gone, queue);
      }
    }
  }

  /** Every batch that left did so because the server had accepted it when it was the head, or
      because it was older than the server's bound. */
  ghost predicate Justified(run: seq<Event>, k: nat)
    requires k < |Exits(run)|
  {
    var x := Exits(run)[k];
    match x.reason
    case Delivered(_, _) => k in Acceptances(run)
    case DroppedStale(now) => now - x.batch.sentAt > MAX_CLOCK_PAST
    case _ => false
  }

  lemma {:induction false} ExitsJustified(run: seq<Event>)
    requires Possible(run)
    ensures forall k :: 0 <= k < |Exits(run)| ==> Justified(run, k)
  {
    if run == [] {
    } else {
      var before, e := Init(run), Last(run);
      ExitsJustified(before);
      if e.Delivered? {
        assert Enabled(before, e);
        assert Last(before).Accepted?;
        assert |Exits(before)| in Acceptances(before);
      }
      forall k | 0 <= k < |Exits(run)| ensures Justified(run, k) {
        if k < |Exits(before)| {
          assert Justified(before, k);
        }
      }
    }
  }

  /** The server sees the batches in order: each 202 is for the batch of the previous one or for
      a later one, never for an earlier one, and a batch it skips was dropped as stale. */
  lemma {:induction false} AcceptedInOrder(run: seq<Event>)
    requires Possible(run)
    ensures forall i, j :: 0 <= i < j < |Acceptances(run)| ==> Acceptances(run)[i] <= Acceptances(run)[j]
    ensures forall k :: k in Acceptances(run) ==> k <= |Exits(run)|
  {
    if run == [] {
    } else {
      AcceptedInOrder(Init(run));
      var earlier := Acceptances(Init(run));
      assert forall i :: 0 <= i < |earlier| ==> earlier[i] in earlier;
    }
  }

  lemma SkippedOnlyIfStale(run: seq<Event>, k: nat)
    requires Possible(run) && k < |Exits(run)| && k !in Acceptances(run)
    ensures Exits(run)[k].reason.DroppedStale?
    ensures Exits(run)[k].reason.now - Exits(run)[k].batch.sentAt > MAX_CLOCK_PAST
  {
    ExitsJustified(run);
    assert Justified(run, k);
  }

  // ---------------------------------------------------------------- sequences

  lemma SequencesSnoc(queue: seq<Batch>, b: Batch)
    ensures Sequences(queue + [b]) == Sequences(queue) + b.sequences
  {
    assert (queue + [b])[..|queue|] == queue;
  }

  lemma {:induction false} SequencesConcat(a: seq<Batch>, b: seq<Batch>)
    ensures Sequences(a + b) == Sequences(a) + Sequences(b)
  {
    if b == [] {
      assert a + b == a;
    } else {
      hide Sequences;
      var rest, last := b[..|b| - 1], b[|b| - 1];
      assert b == rest + [last];
      SequencesConcat(a, rest);
      SequencesSnoc(rest, last);
      SequencesSnoc(a + rest, last);
      Associates(a, rest, [last]);
      Associates(Sequences(a), Sequences(rest), last.sequences);
    }
  }

  /** Within a pairing samples are numbered from one without a gap or a repeat. */
  lemma {:induction false} NumberedFromOne(run: seq<Event>)
    requires Possible(run)
    ensures Sequences(Sent(run)) == Numbers(1, |Sequences(Sent(run))|)
    ensures FirstSequence(Replay(run)) == |Sequences(Sent(run))| + 1
  {
    if run == [] {
    } else {
      hide Replay, Possible, Enabled, Sent;
      var before, e := Init(run), Last(run);
      assert run == before + [e];
      ReplaySnoc(before, e);
      SentSnoc(before, e);
      NumberedFromOne(before);
      EnqueuedFits(run);
      if e.Enqueued? {
        hide Sequences, Numbers;
        SequencesSnoc(Sent(before), NewBatch(Replay(before), e.now, e.count, e.size));
        NumbersGrow(Sequences(Sent(before)), e.count);
      }
    }
  }

  lemma NumbersGrow(numbers: seq<int>, k: nat)
    requires numbers == Numbers(1, |numbers|)
    ensures numbers + Numbers(|numbers| + 1, k) == Numbers(1, |numbers| + k)
  {
  }

  lemma SuffixOfNumbers(gone: seq<int>, queued: seq<int>)
    requires gone + queued == Numbers(1, |gone + queued|)
    ensures queued == Numbers(1 + |gone|, |queued|)
  {
    forall i | 0 <= i < |queued| ensures queued[i] == 1 + |gone| + i {
      assert queued[i] == (gone + queued)[|gone| + i];
    }
  }

  /** So the numbers across the whole queue, in order, are consecutive and end just below the
      next one to be assigned. */
  lemma QueueIsContiguous(run: seq<Event>)
    requires Possible(run)
    ensures var s := Replay(run); var n := |Sequences(s.delivery.queue)|;
      Sequences(s.delivery.queue) == Numbers(FirstSequence(s) - n, n)
  {
    var queue := Replay(run).delivery.queue;
    var gone, queued := Sequences(Batches(Exits(run))), Sequences(queue);
    assert Sequences(Sent(run)) == gone + queued by {
      Conservation(run);
      SequencesConcat(Batches(Exits(run)), queue);
    }
    assert gone + queued == Numbers(1, |gone + queued|) && FirstSequence(Replay(run)) == |gone + queued| + 1 by {
      NumberedFromOne(run);
    }
    SuffixOfNumbers(gone, queued);
  }

  // -------------------------------------------------------------- credentials

  /** An overlap or a pending revocation always has a current credential beside it. */
  predicate Authorised(c: Connection) {
    c.previous != "" || c.revocationPending ==> c.credential != ""
  }

  lemma {:induction false} AlwaysAuthorised(run: seq<Event>)
    requires Possible(run)
    ensures Authorised(Replay(run).connection)
    ensures Replay(run).delivery.queue != [] ==> Replay(run).connection.credential != ""
  {
    if run == [] {
    } else {
      AlwaysAuthorised(Init(run));
      if Last(run).Delivered? {
        assert Enabled(Init(run), Last(run));
        assert Enabled(Init(Init(run)), Last(Init(run)));
        assert Replay(Init(run)) == Replay(Init(Init(run)));
      }
    }
  }

  /** A delivery is saved with a credential that was held. */
  lemma AcceptedFirst(run: seq<Event>, e: Event)
    requires Possible(run + [e])
    ensures e.Delivered? ==> Holds(Replay(run).connection, e.credential) && e.credential != ""
  {
    ReplaySnoc(run, e);
    if e.Delivered? {
      assert Enabled(Init(run), Last(run));
      assert Replay(run) == Replay(Init(run));
    }
  }

  /** Local authority ends only after Watchpost confirmed the revocation, or by an explicit local
      reset. */
  lemma AuthorityRetained(run: seq<Event>, e: Event)
    requires Possible(run + [e])
    requires Replay(run).connection.credential != "" && Replay(run + [e]).connection.credential == ""
    ensures e.Cleared? && (e.cause.Revoked? ==> RevokedStatus(e.cause.status))
  {
    ReplaySnoc(run, e);
    AcceptedFirst(run, e);
  }

  /** A delivery settles the overlap in favour of the credential the server accepted; a failure
      keeps both. */
  lemma OverlapSettled(run: seq<Event>, e: Event)
    requires Possible(run + [e])
    ensures e.Delivered? ==>
      && Replay(run + [e]).connection.credential == e.credential
      && Replay(run + [e]).connection.previous == ""
      && Holds(Replay(run).connection, e.credential)
    ensures e.FailedAt? || e.DroppedStale? ==> Replay(run + [e]).connection == Replay(run).connection
  {
    ReplaySnoc(run, e);
    AcceptedFirst(run, e);
  }

  // ------------------------------------------------------------------- bounds

  lemma {:induction false} TotalConcat(a: seq<Batch>, b: seq<Batch>)
    ensures Total(a + b) == Total(a) + Total(b)
  {
    if a == [] {
      assert a + b == b;
    } else {
      TotalConcat(a[1..], b);
      assert (a + b)[1..] == a[1..] + b;
    }
  }

  /** The queue stays within its bounds of 256 batches and eight mebibytes. */
  lemma {:induction false} QueueBounded(run: seq<Event>)
    requires Possible(run)
    ensures |Replay(run).delivery.queue| <= MAX_QUEUE && Total(Replay(run).delivery.queue) <= MAX_BYTES
  {
    if run == [] {
    } else {
      var before, e := Init(run), Last(run);
      QueueBounded(before);
      if e.Enqueued? {
        var s := Replay(before);
        TotalConcat(s.delivery.queue, [NewBatch(s, e.now, e.count, e.size)]);
      }
    }
  }

  /** Failures recorded since the last delivery of the current pairing. */
  function FailuresSince(run: seq<Event>): nat {
    if run == [] then 0
    else
      var e := Last(run);
      if Boundary(e) || e.Delivered? then 0
      else FailuresSince(Init(run)) + if e.FailedAt? then 1 else 0
  }

  lemma {:induction false} Pow2Grows(m: nat, n: nat)
    requires m <= n
    ensures 1 <= Pow2(m) <= Pow2(n)
    decreases n
  {
    if m < n {
      Pow2Grows(m, n - 1);
    } else if m > 0 {
      Pow2Grows(m - 1, n - 1);
    }
  }

  /** The delay is a power of two seconds, from one to 256, and the five-minute cap that is also
      written down never takes effect. */
  lemma DelayExact(n: nat)
    requires n >= 1
    ensures Delay(n) == Pow2(if n - 1 > 8 then 8 else n - 1) * SECOND
    ensures SECOND <= Delay(n) <= 256 * SECOND < MAX_DELAY
  {
    Pow2Grows(if n - 1 > 8 then 8 else n - 1, 8);
    assert Pow2(8) == 256 by {
      assert Pow2(4) == 16;
    }
  }

  lemma DelayGrows(m: nat, n: nat)
    requires 1 <= m <= n
    ensures Delay(m) <= Delay(n)
  {
    DelayExact(m);
    DelayExact(n);
    Pow2Grows(if m - 1 > 8 then 8 else m - 1, if n - 1 > 8 then 8 else n - 1);
  }

  /** When the last of them was. */
  function LastFailure(run: seq<Event>): (at: Option<int>)
    ensures at.Some? <==> FailuresSince(run) > 0
  {
    if run == [] then None
    else
      var e := Last(run);
      if Boundary(e) || e.Delivered? then None
      else if e.FailedAt? then Some(e.now)
      else LastFailure(Init(run))
  }

  /** What a step does to the counter and to the next attempt. */
  lemma FailuresStep(s: State, e: Event)
    ensures Apply(s, e).delivery.failures ==
      if Boundary(e) || e.Delivered? then 0 else s.delivery.failures + if e.FailedAt? then 1 else 0
    ensures Apply(s, e).delivery.nextRetryAt ==
      if Boundary(e) || e.Delivered? then None
      else if e.FailedAt? then Some(e.now + Delay(Apply(s, e).delivery.failures))
      else s.delivery.nextRetryAt
  {
    hide Delay;
  }

  /** Whatever came after it, the next attempt is due exactly as long after the last failure as the
      number of failures since the last delivery demands; without one it is not put off. */
  lemma {:induction false} BackoffCounts(run: seq<Event>)
    requires Possible(run)
    ensures Replay(run).delivery.failures == FailuresSince(run)
    ensures Replay(run).delivery.nextRetryAt ==
      if FailuresSince(run) == 0 then None else Some(LastFailure(run).value + Delay(FailuresSince(run)))
  {
    hide Apply, Enabled, Delay;
    if run == [] {
    } else {
      BackoffCounts(Init(run));
      FailuresStep(Replay(Init(run)), Last(run));
    }
  }

  /** The stale ones among the batches that left, and when the last of the others was delivered. */
  function Stale(exits: seq<Exit>): nat {
    if exits == [] then 0
    else Stale(exits[..|exits| - 1]) + if exits[|exits| - 1].reason.DroppedStale? then 1 else 0
  }

  function LastDelivery(exits: seq<Exit>): Option<int> {
    if exits == [] then None
    else
      var reason := exits[|exits| - 1].reason;
      if reason.Delivered? then Some(reason.now) else LastDelivery(exits[..|exits| - 1])
  }

  lemma ExitAdded(exits: seq<Exit>, x: Exit)
    ensures Stale(exits + [x]) == Stale(exits) + if x.reason.DroppedStale? then 1 else 0
    ensures LastDelivery(exits + [x]) == if x.reason.Delivered? then Some(x.reason.now) else LastDelivery(exits)
  {
    assert (exits + [x])[..|exits|] == exits;
  }

  lemma RecordStep(s: State, e: Event)
    ensures var before, after := s.delivery, Apply(s, e).delivery;
      if Boundary(e) then after.dropped == 0 && after.lastSuccessAt == None
      else
        && after.dropped == before.dropped + (if e.DroppedStale? then 1 else 0)
        && after.lastSuccessAt == if e.Delivered? then Some(e.now) else before.lastSuccessAt
  {
    hide Delay;
  }

  /** What the page reports about a pairing is what its history holds: how many of its batches were
      dropped as stale, and when the last one was delivered. */
  lemma {:induction false} RecordTrue(run: seq<Event>)
    requires Possible(run)
    ensures Replay(run).delivery.dropped == Stale(Exits(run))
    ensures Replay(run).delivery.lastSuccessAt == LastDelivery(Exits(run))
  {
    if run == [] {
    } else {
      var before, e := Init(run), Last(run);
      assert run == before + [e] && Possible(before);
      RecordTrue(before);
      if e.Delivered? || e.DroppedStale? {
        PopHasHead(run);
        ExitAdded(Exits(before), Exit(Replay(before).delivery.queue[0], e));
      }
      hide Enabled, Apply, Stale, LastDelivery, Possible, Replay, Exits;
      ReplaySnoc(before, e);
      ExitsSnoc(before, e);
      RecordStep(Replay(before), e);
      NoExits();
    }
  }

  lemma NoExits()
    ensures Stale([]) == 0 && LastDelivery([]) == None
  {
  }

  // -------------------------------------------------------------------- audit

  /** The row a pairing change commits together with the change. */
  function AuditRow(e: Event): Option<string> {
    match e
    case Requested(_) => Some("pairing_request")
    case Approved(_, _) => Some("pairing_poll")
    case Rotated(_) => Some("rotate")
    case RevocationMarked => Some("unpair_pending")
    case Cleared(Revoked(_)) => Some("unpair")
    case _ => None
  }

  /** Every change of pairing leaves its row as the newest, and no row is lost before it is one
      of more than two hundred. */
  lemma AuditedTogether(run: seq<Event>, e: Event)
    requires e != Cleared(LocalReset)
    ensures var before, after := Replay(run).audit, Replay(run + [e]).audit;
      match AuditRow(e)
      case None => after == before
      case Some(row) => Newest(before, row, after)
  {
    hide Replay, Possible, Enabled, AppendAudit;
    ReplaySnoc(run, e);
    if AuditRow(e).Some? {
      RowAdded(Replay(run).audit, AuditRow(e).value);
    }
  }

  /** The row is the newest, and before it come the rows there were, but for the oldest of two
      hundred. */
  ghost predicate Newest(before: seq<string>, row: string, after: seq<string>) {
    && after != [] && after[|after| - 1] == row
    && after[..|after| - 1] == before[if |before| < MAX_AUDIT then 0 else |before| + 1 - MAX_AUDIT..]
  }

  lemma RowAdded(before: seq<string>, row: string)
    ensures Newest(before, row, AppendAudit(before, row))
  {
    var all := before + [row];
    assert all[..|all| - 1] == before;
  }
}
