/** The login throttle: a list of recent failures, pruned before every attempt, is a true sliding
    window over the failed password checks since the list was last emptied; what emptying it
    without a successful login costs is counted. */
module Throttle {
  import opened Slices

  const SECOND := 1_000_000_000

  const WINDOW := 5 * 60 * SECOND

  const LIMIT := 5

  /** What pruning drops. */
  function NotAfter(cutoff: int): int -> bool { x => x <= cutoff }

  function Outside(start: int, length: int): int -> bool { x => x < start || start + length <= x }

  /** The failed checks of the last five minutes. */
  function Recent(attempts: seq<int>, now: int): seq<int> {
    Filter(attempts, NotAfter(now - WINDOW))
  }

  ghost predicate Sorted(ts: seq<int>) {
    forall i, j :: 0 <= i < j < |ts| ==> ts[i] <= ts[j]
  }

  /** No six of the checks lie within five minutes. */
  ghost predicate Spaced(ts: seq<int>) {
    forall i, j :: 0 <= i && i + LIMIT <= j < |ts| ==> ts[i] + WINDOW <= ts[j]
  }

  /** The list of failures against the failed checks since the list was last emptied: it is their
      tail, it never grows past five, and what it no longer holds is at least five minutes old. */
  ghost predicate Tracks(failures: seq<int>, attempts: seq<int>, now: int) {
    && |failures| <= LIMIT
    && |failures| <= |attempts|
    && failures == attempts[|attempts| - |failures|..]
    && (forall i :: 0 <= i < |attempts| - |failures| ==> attempts[i] + WINDOW <= now)
    && (forall i :: 0 <= i < |attempts| ==> attempts[i] <= now)
    && Sorted(attempts)
    && Spaced(attempts)
  }

  /** `recent = append(recent, failure)` for every failure after the cutoff. */
  method Prune(failures: seq<int>, now: int, ghost attempts: seq<int>) returns (recent: seq<int>)
    requires Tracks(failures, attempts, now)
    ensures Tracks(recent, attempts, now)
    ensures recent == Recent(attempts, now)
  {
    recent := [];
    for i := 0 to |failures|
      invariant recent == Filter(failures[..i], NotAfter(now - WINDOW))
    {
      assert failures[..i + 1][..i] == failures[..i];
      if failures[i] > now - WINDOW {
        recent := recent + [failures[i]];
      }
    }
    assert failures[..|failures|] == failures;
    PruneTracked(failures, attempts, now);
  }

  lemma PruneTracked(failures: seq<int>, attempts: seq<int>, now: int)
    requires Tracks(failures, attempts, now)
    ensures Filter(failures, NotAfter(now - WINDOW)) == Recent(attempts, now)
    ensures Tracks(Recent(attempts, now), attempts, now)
  {
    KeptAreRecent(failures, attempts, now);
    SortedTail(attempts, now - WINDOW);
    TailTracked(failures, attempts, Recent(attempts, now), now);
  }

  lemma KeptAreRecent(failures: seq<int>, attempts: seq<int>, now: int)
    requires Tracks(failures, attempts, now)
    ensures Filter(failures, NotAfter(now - WINDOW)) == Recent(attempts, now) && |Recent(attempts, now)| <= LIMIT
  {
    hide Sorted, Spaced, Filter;
    var older := |attempts| - |failures|;
    assert attempts[..older] + failures == attempts;
    FilterSkips(attempts[..older], failures, NotAfter(now - WINDOW));
    FewKept(failures, NotAfter(now - WINDOW), |failures|);
  }

  /** Every tail that drops old checks only will do. */
  lemma TailTracked(failures: seq<int>, attempts: seq<int>, kept: seq<int>, now: int)
    requires Tracks(failures, attempts, now)
    requires |kept| <= LIMIT && IsTail(attempts, kept, now - WINDOW)
    ensures Tracks(kept, attempts, now)
  {
    hide Sorted, Spaced;
  }

  /** What is kept is a tail, and nothing before it is after the cutoff. */
  ghost predicate IsTail(ts: seq<int>, kept: seq<int>, cutoff: int) {
    && |kept| <= |ts| && kept == ts[|ts| - |kept|..]
    && forall i :: 0 <= i < |ts| - |kept| ==> ts[i] <= cutoff
  }

  /** Of a sorted list, pruning leaves a tail. */
  lemma {:induction false} SortedTail(ts: seq<int>, cutoff: int)
    requires Sorted(ts)
    ensures IsTail(ts, Filter(ts, NotAfter(cutoff)), cutoff)
  {
    if ts == [] {
    } else {
      hide IsTail;
      var n := |ts| - 1;
      SortedTail(ts[..n], cutoff);
      KeptOnly(ts[..n], NotAfter(cutoff));
      TailSnoc(ts, Filter(ts[..n], NotAfter(cutoff)), cutoff);
    }
  }

  lemma TailSnoc(ts: seq<int>, kept: seq<int>, cutoff: int)
    requires ts != [] && Sorted(ts) && IsTail(ts[..|ts| - 1], kept, cutoff)
    requires forall i :: 0 <= i < |kept| ==> kept[i] > cutoff
    ensures IsTail(ts, kept + if ts[|ts| - 1] <= cutoff then [] else [ts[|ts| - 1]], cutoff)
  {
    var n := |ts| - 1;
    assert kept != [] ==> kept[0] == ts[n - |kept|] <= ts[n];
  }

  lemma {:induction false} KeptOnly<T>(xs: seq<T>, remove: T -> bool)
    ensures forall i :: 0 <= i < |Filter(xs, remove)| ==> !remove(Filter(xs, remove)[i])
  {
    if xs == [] {
    } else {
      KeptOnly(xs[..|xs| - 1], remove);
    }
  }

  lemma {:induction false} FilterSkips<T>(before: seq<T>, xs: seq<T>, remove: T -> bool)
    requires forall i :: 0 <= i < |before| ==> remove(before[i])
    ensures Filter(before + xs, remove) == Filter(xs, remove)
  {
    var all := before + xs;
    if xs != [] {
      assert all[..|all| - 1] == before + xs[..|xs| - 1];
      FilterSkips(before, xs[..|xs| - 1], remove);
    } else if before != [] {
      assert all[..|all| - 1] == before[..|before| - 1] + xs;
      FilterSkips(before[..|before| - 1], xs, remove);
    }
  }

  /** Fewer than five failures leave the login open. */
  lemma FewRecent(attempts: seq<int>, now: int)
    requires |attempts| < LIMIT
    ensures |Recent(attempts, now)| < LIMIT
  {
    FewKept(attempts, NotAfter(now - WINDOW), |attempts|);
  }

  lemma NothingTracked(now: int)
    ensures Tracks([], [], now)
  {
  }

  /** Another failed check, when fewer than five are recent. */
  lemma FailureTracked(failures: seq<int>, attempts: seq<int>, now: int, at: int)
    requires Tracks(failures, attempts, now) && |failures| < LIMIT && now <= at
    ensures Tracks(failures + [at], attempts + [at], at)
  {
  }

  lemma {:induction false} FewKept<T>(xs: seq<T>, remove: T -> bool, k: nat)
    requires k <= |xs| && forall i :: 0 <= i < |xs| - k ==> remove(xs[i])
    ensures |Filter(xs, remove)| <= k
  {
    if xs == [] {
    } else {
      FewKept(xs[..|xs| - 1], remove, if k == 0 then 0 else k - 1);
    }
  }

  /** Every five-minute window, wherever it starts, holds at most five failed checks. */
  lemma {:induction false} AtMostFive(attempts: seq<int>, start: int)
    requires Sorted(attempts) && Spaced(attempts)
    ensures |Filter(attempts, Outside(start, WINDOW))| <= 5
  {
    var n := |attempts| - 1;
    if n < LIMIT {
      FewKept(attempts, Outside(start, WINDOW), |attempts|);
    } else if attempts[n] < start || start + WINDOW <= attempts[n] {
      AtMostFive(attempts[..n], start);
    } else {
      FewKept(attempts, Outside(start, WINDOW), LIMIT);
    }
  }

  // ------------------------------------------- since the last successful login

  /** What has happened since the last successful login: a password check failed, or the list of
      failures was emptied without one, by a reset or by a restart. */
  datatype Event = Failed(at: int) | Forgotten(at: int)

  /** The failed checks since the list was last emptied. */
  function Current(history: seq<Event>): seq<int> {
    if history == [] then []
    else
      var n := |history| - 1;
      if history[n].Forgotten? then [] else Current(history[..n]) + [history[n].at]
  }

  /** The failed checks of the five minutes from `start`. */
  function FailedIn(history: seq<Event>, start: int): nat {
    if history == [] then 0
    else
      var n := |history| - 1;
      FailedIn(history[..n], start) + if history[n].Failed? && start <= history[n].at < start + WINDOW then 1 else 0
  }

  /** How often the list was emptied in the five minutes from `start`. */
  function ForgottenIn(history: seq<Event>, start: int): nat {
    if history == [] then 0
    else
      var n := |history| - 1;
      ForgottenIn(history[..n], start) +
      if history[n].Forgotten? && start <= history[n].at < start + WINDOW then 1 else 0
  }

  /** A history in the order of time in which the throttle has worked between any two events that
      emptied its list. */
  ghost predicate Recorded(history: seq<Event>, now: int) {
    && (forall i :: 0 <= i < |history| ==> history[i].at <= now)
    && (forall i, j :: 0 <= i < j < |history| ==> history[i].at <= history[j].at)
    && (forall n :: 0 <= n <= |history| ==> Sorted(Current(history[..n])) && Spaced(Current(history[..n])))
  }

  /** What one more event changes in the counts. */
  lemma OneMore(history: seq<Event>, e: Event, start: int)
    ensures FailedIn(history + [e], start) ==
            FailedIn(history, start) + if e.Failed? && start <= e.at < start + WINDOW then 1 else 0
    ensures ForgottenIn(history + [e], start) ==
            ForgottenIn(history, start) + if e.Forgotten? && start <= e.at < start + WINDOW then 1 else 0
    ensures Current(history + [e]) == if e.Failed? then Current(history) + [e.at] else []
  {
    assert (history + [e])[..|history|] == history;
  }

  lemma NoEvents(start: int)
    ensures FailedIn([], start) == ForgottenIn([], start) == 0 && Current([]) == []
  {
  }

  lemma NothingRecorded(now: int)
    ensures Recorded([], now)
  {
  }

  /** One more event. */
  lemma EventRecorded(history: seq<Event>, now: int, e: Event)
    requires Recorded(history, now) && now <= e.at
    requires e.Failed? ==> Sorted(Current(history) + [e.at]) && Spaced(Current(history) + [e.at])
    ensures Current(history + [e]) == if e.Failed? then Current(history) + [e.at] else []
    ensures Recorded(history + [e], e.at)
  {
    var next := history + [e];
    OneMore(history, e, e.at);
    forall n | 0 <= n <= |next| ensures Sorted(Current(next[..n])) && Spaced(Current(next[..n])) {
      if n <= |history| {
        assert next[..n] == history[..n];
      } else {
        assert next[..n] == next;
      }
    }
  }

  /** Another failed check. */
  lemma FailureRecorded(failures: seq<int>, history: seq<Event>, now: int, at: int)
    requires Tracks(failures, Current(history), now) && Recorded(history, now)
    requires |failures| < LIMIT && now <= at
    ensures Tracks(failures + [at], Current(history + [Failed(at)]), at) && Recorded(history + [Failed(at)], at)
  {
    hide Recorded, Current;
    FailureTracked(failures, Current(history), now, at);
    EventRecorded(history, now, Failed(at));
  }

  lemma RecordedBefore(history: seq<Event>, now: int)
    requires history != [] && Recorded(history, now)
    ensures Recorded(history[..|history| - 1], now)
  {
    var before := history[..|history| - 1];
    forall n | 0 <= n <= |before| ensures Sorted(Current(before[..n])) && Spaced(Current(before[..n])) {
      assert before[..n] == history[..n];
    }
  }

  lemma {:induction false} NoneBefore(history: seq<Event>, start: int)
    requires forall i :: 0 <= i < |history| ==> history[i].at < start
    ensures FailedIn(history, start) == 0
  {
    if history == [] {
    } else {
      NoneBefore(history[..|history| - 1], start);
    }
  }

  /** As long as the window has not passed, the failed checks in it are the current ones and five
      for every time the list was emptied. */
  lemma {:induction false} WithinWindow(history: seq<Event>, now: int, start: int)
    requires Recorded(history, now)
    requires forall i :: 0 <= i < |history| ==> history[i].at < start + WINDOW
    ensures FailedIn(history, start) <=
            LIMIT * ForgottenIn(history, start) + |Filter(Current(history), Outside(start, WINDOW))|
  {
    if history == [] {
    } else {
      var n := |history| - 1;
      var before, e := history[..n], history[n];
      RecordedBefore(history, now);
      if e.Failed? {
        WithinWindow(before, now, start);
        assert Current(history)[..|Current(before)|] == Current(before);
      } else if e.at < start {
        NoneBefore(before, start);
      } else {
        WithinWindow(before, now, start);
        assert before[..n] == before;
        AtMostFive(Current(before), start);
      }
    }
  }

  /** Five minutes, wherever they start, hold at most five failed checks, and five more for every
      time that the list was emptied during them. */
  lemma {:induction false} FivePerStretch(history: seq<Event>, now: int, start: int)
    requires Recorded(history, now)
    ensures FailedIn(history, start) <= 5 * (1 + ForgottenIn(history, start))
  {
    if history == [] {
    } else if history[|history| - 1].at >= start + WINDOW {
      RecordedBefore(history, now);
      FivePerStretch(history[..|history| - 1], now, start);
    } else {
      WithinWindow(history, now, start);
      assert history[..|history|] == history;
      AtMostFive(Current(history), start);
    }
  }
}
