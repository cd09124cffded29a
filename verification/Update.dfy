/** Replacing the installed binary with a verified artifact, recovering when the new one does
    not come up, and rolling back later. */
module Update {
  import opened Machine
  import opened Wrappers
  import opened Text

  datatype UpdateReport = Refused | NotReplaced(step: Op) | Updated | Recovered | RecoveryFailed

  datatype RollbackReport = Declined | Stuck | Undone | NotStarted

  /** The words the prior-state marker may hold. */
  predicate MarkerWord(word: string) {
    word == "active" || word == "inactive" || word == "dead" || word == "failed"
  }

  lemma MarkerWordsAreTrimmed(word: string)
    requires MarkerWord(word)
    ensures TrimSpace(word) == word
  {
    assert Trimmed("active") && Trimmed("inactive") && Trimmed("dead") && Trimmed("failed");
  }

  predicate Managed(w: World, managed: Bytes -> bool) {
    w.Readable(Unit) && managed(w.files[Unit])
  }

  /** The recorded prior state, if the marker is there and holds one of its words. */
  function Marker(files: map<File, Bytes>): Option<string> {
    if PriorActive in files && MarkerWord(TrimSpace(files[PriorActive]))
    then Some(TrimSpace(files[PriorActive]))
    else None
  }

  /** The binary, and the files that an update puts beside it; a rollback adds `Failed`. */
  const COPIES: set<File> := {Binary, Rollback, PriorActive, New(Rollback), New(Binary)}

  /** Equal but for those files and what is running. */
  ghost predicate SameInstall(w: World, w': World, copies: set<File>) {
    && w' == w.(files := w'.files, sd := w.sd.(activity := w'.sd.activity))
    && forall f :: f !in copies ==> w'.At(f) == w.At(f)
  }

  /** The guarded content is where a rollback would look for it, or back in place with nothing
      else for a rollback to restore. */
  ghost predicate Secure(w: World, content: Option<Bytes>) {
    content.None? || w.At(Rollback) == content || (w.At(Binary) == content && w.At(Rollback) == None)
  }

  /** The rollback copy holds the guarded content. */
  ghost predicate Backed(w: World, content: Option<Bytes>) {
    content.None? || w.At(Rollback) == content
  }

  /** The polls that the health window leaves time for, half a second apart. */
  const POLLS := 60

  /** A service is running, started from the binary now in place and the unit systemd loaded. */
  ghost predicate RunsInstalled(w: World) {
    && w.sd.loaded.Some? && Binary in w.files
    && w.sd.activity == Active(Exec(w.files[Binary], w.sd.loaded.value))
  }

  /** What becomes of the service by itself: it may leave the state it was in, and come back started
      from the files in place. */
  function Drifted(w: World, o: Outcome): World {
    if o.landed then w
    else if !o.left.Active? then w.(sd := w.sd.(activity := o.left))
    else if Binary in w.files && w.sd.loaded.Some?
    then w.(sd := w.sd.(activity := Active(Exec(w.files[Binary], w.sd.loaded.value))))
    else w
  }

  /** How a watch over the service ends. */
  datatype Watch = Watch(w: World, tape: seq<Outcome>, healthy: bool)

  /** At most so many polls, up to the first that finds the service active and its endpoint healthy.
      The service may change before every poll. */
  function Watched(w: World, tape: seq<Outcome>, polls: nat): Watch
    decreases polls
  {
    if polls == 0 then Watch(w, tape, false)
    else
      var o, next := Next(tape), Drifted(w, Next(tape));
      if o.ok && next.ActiveWord() == "active" && o.healthy then Watch(next, Rest(tape), true)
      else Watched(next, Rest(tape), polls - 1)
  }

  // ------------------------------------------------- what health means on the tape

  /** Whether a service that was running is running at the k-th poll: it has been since, or the last
      change before brought it up. */
  ghost predicate Up(running: bool, tape: seq<Outcome>, k: nat) {
    || (running && forall i: nat :: i <= k ==> Nth(tape, i).landed)
    || (exists i: nat :: i <= k && CameUp(tape, i) && forall j: nat :: i < j <= k ==> Nth(tape, j).landed)
  }

  predicate CameUp(tape: seq<Outcome>, i: nat) { !Nth(tape, i).landed && Nth(tape, i).left.Active? }

  /** Some poll could be run, found the service active and its endpoint healthy. */
  ghost predicate Healthy(running: bool, tape: seq<Outcome>, polls: nat) {
    exists k: nat :: k < polls && Up(running, tape, k) && Nth(tape, k).ok && Nth(tape, k).healthy
  }

  lemma NthRest(tape: seq<Outcome>, i: nat)
    ensures Nth(Rest(tape), i) == Nth(tape, i + 1) && Nth(tape, 0) == Next(tape)
  {
    assert Drop(tape, 0) == tape;
    RestDrop(tape, 0);
    DropDrop(tape, 1, i);
  }

  /** One poll on. */
  lemma UpNext(running: bool, tape: seq<Outcome>, k: nat)
    ensures var o := Next(tape);
      Up(running, tape, k) <==>
        if k == 0 then (if o.landed then running else o.left.Active?)
        else Up(if o.landed then running else o.left.Active?, Rest(tape), k - 1)
  {
    hide Nth, Rest;
    NthRest(tape, 0);
    forall i: nat ensures Nth(Rest(tape), i) == Nth(tape, i + 1) {
      NthRest(tape, i);
    }
    if k > 0 {
      UpAfter(running, tape, k);
    } else {
      assert CameUp(tape, 0) <==> !Next(tape).landed && Next(tape).left.Active?;
    }
  }

  lemma UpAfter(running: bool, tape: seq<Outcome>, k: nat)
    requires k > 0 && forall i: nat :: Nth(Rest(tape), i) == Nth(tape, i + 1)
    requires Nth(tape, 0) == Next(tape)
    ensures var o := Next(tape);
      Up(running, tape, k) <==> Up(if o.landed then running else o.left.Active?, Rest(tape), k - 1)
  {
    hide Nth, Rest, Next;
    var o := Next(tape);
    var now := if o.landed then running else o.left.Active?;
    if Up(running, tape, k) {
      if i: nat :| i <= k && CameUp(tape, i) && forall j: nat :: i < j <= k ==> Nth(tape, j).landed {
        if i > 0 {
          assert Nth(Rest(tape), i - 1) == Nth(tape, i);
          assert CameUp(Rest(tape), i - 1);
        }
      }
    }
    if Up(now, Rest(tape), k - 1) {
      if i: nat :| i <= k - 1 && CameUp(Rest(tape), i)
                   && forall j: nat :: i < j <= k - 1 ==> Nth(Rest(tape), j).landed
      {
        assert CameUp(tape, i + 1);
        forall j: nat | i + 1 < j <= k ensures Nth(tape, j).landed {
          assert Nth(Rest(tape), j - 1) == Nth(tape, j);
        }
      } else {
        forall j: nat | 0 < j <= k ensures Nth(tape, j).landed {
          assert Nth(Rest(tape), j - 1) == Nth(tape, j);
        }
        if !o.landed {
          assert CameUp(tape, 0);
        }
      }
    }
  }

  lemma HealthyNext(running: bool, tape: seq<Outcome>, polls: nat)
    requires polls > 0
    ensures var o := Next(tape);
      var now := if o.landed then running else o.left.Active?;
      Healthy(running, tape, polls) <==> (now && o.ok && o.healthy) || Healthy(now, Rest(tape), polls - 1)
  {
    hide Nth, Rest, Up;
    var o := Next(tape);
    var now := if o.landed then running else o.left.Active?;
    NthRest(tape, 0);
    UpNext(running, tape, 0);
    if Healthy(running, tape, polls) {
      var k: nat :| k < polls && Up(running, tape, k) && Nth(tape, k).ok && Nth(tape, k).healthy;
      if k > 0 {
        UpNext(running, tape, k);
        NthRest(tape, k - 1);
      }
    }
    if Healthy(now, Rest(tape), polls - 1) {
      var k: nat :| k < polls - 1 && Up(now, Rest(tape), k) && Nth(Rest(tape), k).ok && Nth(Rest(tape), k).healthy;
      UpNext(running, tape, k + 1);
      NthRest(tape, k);
    } else if now && o.ok && o.healthy {
      assert Up(running, tape, 0) && Nth(tape, 0).ok && Nth(tape, 0).healthy;
    }
  }

  /** The files and the loaded unit that a start needs. */
  predicate Startable(w: World) { w.sd.loaded.Some? && Binary in w.files }

  lemma DriftedRuns(w: World, o: Outcome)
    requires Startable(w) && (w.sd.activity.Active? ==> RunsInstalled(w))
    ensures var w' := Drifted(w, o);
      && w' == w.(sd := w.sd.(activity := w'.sd.activity)) && Startable(w')
      && (w'.sd.activity.Active? ==> RunsInstalled(w'))
      && (w'.ActiveWord() == "active" <==> w'.sd.activity.Active?)
      && (w'.sd.activity.Active? <==> if o.landed then w.sd.activity.Active? else o.left.Active?)
  {
  }

  /** What a watch over a service sees: whatever runs was started from the files in place, and it ends
      well exactly if the tape says so. */
  lemma {:induction false} WatchedIs(w: World, tape: seq<Outcome>, polls: nat)
    requires Startable(w) && (w.sd.activity.Active? ==> RunsInstalled(w))
    ensures var watch := Watched(w, tape, polls);
      && watch.w == w.(sd := w.sd.(activity := watch.w.sd.activity))
      && (watch.w.sd.activity.Active? ==> RunsInstalled(watch.w))
      && (watch.healthy ==> watch.w.sd.activity.Active?)
      && (watch.healthy <==> Healthy(w.sd.activity.Active?, tape, polls))
      && (!watch.healthy ==> watch.tape == Drop(tape, polls))
    decreases polls
  {
    hide RunsInstalled, Drifted, World.ActiveWord, Healthy, Startable, Drop;
    if polls == 0 {
      assert Drop(tape, 0) == tape by { DropNone(tape); }
      assert !Healthy(w.sd.activity.Active?, tape, 0) by { NeverHealthy(w.sd.activity.Active?, tape); }
    } else {
      DriftedRuns(w, Next(tape));
      HealthyNext(w.sd.activity.Active?, tape, polls);
      WatchedIs(Drifted(w, Next(tape)), Rest(tape), polls - 1);
      assert Drop(Rest(tape), polls - 1) == Drop(tape, polls) by {
        DropNone(tape);
        RestDrop(tape, 0);
        DropDrop(tape, 1, polls - 1);
      }
    }
  }

  lemma NeverHealthy(running: bool, tape: seq<Outcome>)
    ensures !Healthy(running, tape, 0)
  {
  }

  lemma DropNone(tape: seq<Outcome>)
    ensures Drop(tape, 0) == tape
  {
  }

  /** Polls until the deadline, while the service may come and go.  A poll whose query cannot be run, or
      that finds the service not active, does not ask the endpoint. */
  method VerifyActiveAndHealthy(h: Host, polls: nat) returns (ok: bool)
    requires Startable(h.w) && (h.w.sd.activity.Active? ==> RunsInstalled(h.w))
    modifies h`w, h`tape
    ensures ok <==> Healthy(old(h.w).sd.activity.Active?, old(h.tape), polls)
    ensures h.w == old(h.w).(sd := old(h.w).sd.(activity := h.w.sd.activity))
    ensures ok ==> RunsInstalled(h.w)
    ensures !ok ==> h.tape == Drop(old(h.tape), polls)
  {
    hide Healthy, Drop, RunsInstalled, Startable;
    WatchedIs(h.w, h.tape, polls);
    for i := 0 to polls
      invariant Watched(old(h.w), old(h.tape), polls) == Watched(h.w, h.tape, polls - i)
    {
      var o := Next(h.tape);
      h.w := Drifted(h.w, o);
      ok := h.Query();
      if ok && h.w.ActiveWord() == "active" && o.healthy {
        return true;
      }
    }
    ok := false;
  }

  /** The polls that the window after a start leaves time for. */
  function Window(o: Outcome): nat { if o.polls <= POLLS then o.polls else POLLS }

  /** A start that succeeds and a service that becomes healthy, on the tape. */
  ghost predicate Starts(startable: bool, tape: seq<Outcome>) {
    startable && Nth(tape, 0).ok && Healthy(true, Drop(tape, 1), Window(Nth(tape, 0)))
  }

  /** That is: the restart succeeds, and among the first sixty polls, and before the window closes, there
      is one that finds the service active and healthy. */
  lemma StartsIs(startable: bool, tape: seq<Outcome>)
    ensures Starts(startable, tape) <==>
      && startable && Nth(tape, 0).ok
      && (exists k: nat ::
            k < 60 && k < Nth(tape, 0).polls
            && Up(true, Drop(tape, 1), k) && Nth(tape, k + 1).ok && Nth(tape, k + 1).healthy)
  {
    hide Up, Nth, Drop;
    assert forall k: nat :: Nth(Drop(tape, 1), k) == Nth(tape, k + 1) by {
      forall k: nat ensures Nth(Drop(tape, 1), k) == Nth(tape, k + 1) {
        TapeNext(tape);
        NthRest(tape, k);
      }
    }
  }

  /** The outcomes that a start uses up when it fails. */
  function StartUses(startable: bool, tape: seq<Outcome>): nat {
    if startable && Nth(tape, 0).ok then 1 + Window(Nth(tape, 0)) else 1
  }

  /** The same after resetting a failed state. */
  ghost predicate ComesUp(startable: bool, tape: seq<Outcome>) {
    Nth(tape, 0).ok && Starts(startable, Drop(tape, 1))
  }

  function ComingUses(startable: bool, tape: seq<Outcome>): nat {
    if Nth(tape, 0).ok then 1 + StartUses(startable, Drop(tape, 1)) else 1
  }

  lemma NthIs(tape: seq<Outcome>, n: nat)
    ensures Nth(tape, n) == Next(Drop(tape, n))
  {
  }

  lemma TapeNext(tape: seq<Outcome>)
    ensures Nth(tape, 0) == Next(tape) && Drop(tape, 1) == Rest(tape)
  {
    DropNone(tape);
    RestDrop(tape, 0);
  }

  lemma Restarted(w: World, o: Outcome)
    ensures var w' := After(w, Systemctl(Restart), o);
      && Succeeds(w, Systemctl(Restart), o) == (Startable(w) && o.ok)
      && w' == w.(sd := w.sd.(activity := w'.sd.activity)) && Startable(w') == Startable(w)
      && (Startable(w) && o.ok ==> w'.sd.activity.Active? && RunsInstalled(w'))
  {
  }

  /** Starts the service and waits for it to become healthy. */
  method RestartAndVerify(h: Host) returns (ok: bool)
    modifies h`w, h`tape, h`done, h`failed, h`kept
    ensures h.w == old(h.w).(sd := old(h.w).sd.(activity := h.w.sd.activity))
    ensures old(h.kept) && Holds(old(h.w), h.guarded) ==> h.kept
    ensures ok ==> RunsInstalled(h.w)
    ensures ok <==> Starts(Startable(old(h.w)), old(h.tape))
    ensures !ok ==> h.tape == Drop(old(h.tape), StartUses(Startable(old(h.w)), old(h.tape)))
  {
    hide After, Succeeds, Healthy, Startable, RunsInstalled, Nth, Drop, Rest, Next;
    TapeNext(h.tape);
    var window := Window(Next(h.tape));
    Restarted(h.w, Next(h.tape));
    ok := h.Do(Systemctl(Restart));
    if ok {
      ok := VerifyActiveAndHealthy(h, window);
      DropDrop(old(h.tape), 1, window);
    }
  }

  method ResetFailedState(h: Host) returns (ok: bool)
    modifies h`w, h`tape, h`done, h`failed, h`kept
    ensures h.w == old(h.w).(sd := old(h.w).sd.(activity := h.w.sd.activity))
    ensures old(h.kept) && Holds(old(h.w), h.guarded) ==> h.kept
    ensures ok == Next(old(h.tape)).ok && h.tape == Drop(old(h.tape), 1)
  {
    ok := h.Do(Systemctl(ResetFailed));
  }

  method StartAndVerify(h: Host) returns (ok: bool)
    modifies h`w, h`tape, h`done, h`failed, h`kept
    ensures h.w == old(h.w).(sd := old(h.w).sd.(activity := h.w.sd.activity))
    ensures old(h.kept) && Holds(old(h.w), h.guarded) ==> h.kept
    ensures ok ==> RunsInstalled(h.w)
    ensures ok <==> ComesUp(Startable(old(h.w)), old(h.tape))
    ensures !ok ==> h.tape == Drop(old(h.tape), ComingUses(Startable(old(h.w)), old(h.tape)))
  {
    hide Starts, StartUses, Nth, Drop, RunsInstalled;
    TapeNext(h.tape);
    ok := ResetFailedState(h);
    if ok {
      ok := RestartAndVerify(h);
      DropDrop(old(h.tape), 1, StartUses(Startable(old(h.w)), Drop(old(h.tape), 1)));
    }
  }

  /** Stops the service and copies the old binary back. */
  method BringBack(h: Host) returns (ok: bool)
    modifies h`w, h`tape, h`done, h`failed, h`kept
    ensures SameInstall(old(h.w), h.w, COPIES)
    ensures h.w.At(Rollback) == old(h.w).At(Rollback)
    ensures ok ==> h.w.At(Binary) == old(h.w).At(Rollback) && Binary in h.w.files
    ensures ok <==> Rollback in old(h.w).files && Nth(old(h.tape), 0).ok && Nth(old(h.tape), 1).ok
    ensures ok ==> h.tape == Drop(old(h.tape), 2)
    ensures old(h.kept) && Backed(old(h.w), h.guarded) ==> h.kept
  {
    hide Nth, Drop;
    NextAhead(h.tape);
    ok := h.Do(Systemctl(Stop));
    if ok {
      ok := h.Do(Copy(Rollback, Binary));
    }
  }

  /** Removes the rollback metadata. */
  method Discard(h: Host)
    modifies h`w, h`tape, h`done, h`failed, h`kept
    ensures h.w == old(h.w).(files := old(h.w).files - {PriorActive} - {Rollback})
    ensures old(h.kept) && (h.guarded.None? || old(h.w).At(Binary) == h.guarded) ==> h.kept
  {
    var _ := h.Do(Remove(PriorActive));
    var _ := h.Do(Remove(Rollback));
  }

  /** A recovery whose steps all succeed, on the tape. */
  ghost predicate Recovers(w: World, active: bool, tape: seq<Outcome>) {
    && Rollback in w.files && Nth(tape, 0).ok && Nth(tape, 1).ok
    && (active ==> ComesUp(w.sd.loaded.Some?, Drop(tape, 2)))
  }

  /** Puts the old binary and its running state back. */
  method Recover(h: Host, active: bool) returns (ok: bool)
    modifies h`w, h`tape, h`done, h`failed, h`kept
    ensures SameInstall(old(h.w), h.w, COPIES)
    ensures ok ==>
      && h.w.At(Binary) == old(h.w).At(Rollback) && Binary in h.w.files
      && h.w.At(Rollback) == None && h.w.At(PriorActive) == None
      && (active ==> RunsInstalled(h.w))
    ensures ok <==> Recovers(old(h.w), active, old(h.tape))
    ensures Backed(old(h.w), h.guarded) ==> (old(h.kept) ==> h.kept) && Secure(h.w, h.guarded)
  {
    hide Nth, Drop, ComesUp;
    ok := BringBack(h);
    if ok && active {
      ok := StartAndVerify(h);
    }
    if ok {
      Discard(h);
    }
  }

  /** Recovery after a failed update; it refuses to guess when the marker is missing or bad. */
  method RestoreAfterFailedUpdate(h: Host) returns (ok: bool)
    modifies h`w, h`tape, h`done, h`failed, h`kept
    ensures SameInstall(old(h.w), h.w, COPIES)
    ensures Marker(old(h.w).files).None? ==> !ok && h.w == old(h.w)
    ensures ok ==>
      && h.w.At(Binary) == old(h.w).At(Rollback) && Binary in h.w.files
      && h.w.At(Rollback) == None && h.w.At(PriorActive) == None
      && (Marker(old(h.w).files) == Some("active") ==> RunsInstalled(h.w))
    ensures ok <==> GoesBack(old(h.w), old(h.tape))
    ensures Backed(old(h.w), h.guarded) ==> (old(h.kept) ==> h.kept) && Secure(h.w, h.guarded)
  {
    hide Recovers;
    var marker := Marker(h.w.files);
    if marker.None? { return false; }
    ok := Recover(h, marker.value == "active");
  }

  ghost predicate GoesBack(w: World, tape: seq<Outcome>) {
    Marker(w.files).Some? && Recovers(w, Marker(w.files) == Some("active"), tape)
  }

  /** It depends on the rollback files and the loaded unit only. */
  lemma GoesBackSame(w: World, w': World, tape: seq<Outcome>)
    requires w'.At(Rollback) == w.At(Rollback) && w'.At(PriorActive) == w.At(PriorActive)
    requires w'.sd.loaded == w.sd.loaded
    ensures GoesBack(w', tape) == GoesBack(w, tape)
  {
    hide ComesUp;
    SameMarker(w, w');
  }

  /** What becomes of an earlier backup when an update stops at `step`: it stays if the copy onto
      it was not completed, is gone if the marker could not be written, and is the current binary
      if only the artifact could not be copied. */
  ghost predicate BackupAfter(w: World, w': World, artifact: File, step: Op) {
    if Binary !in w.files then
      step == Copy(artifact, Binary) && w'.At(Rollback) == w.At(Rollback) && w'.At(PriorActive) == w.At(PriorActive)
    else if step == Copy(Binary, Rollback) then
      w'.At(Rollback) == w.At(Rollback) && w'.At(PriorActive) == w.At(PriorActive)
    else if step == Write(PriorActive, w.ActiveWord()) then
      w'.At(Rollback) == None && w'.At(PriorActive) == w.At(PriorActive)
    else
      step == Copy(artifact, Binary) && w'.At(Rollback) == w.At(Binary) && w'.At(PriorActive) == Some(w.ActiveWord())
  }

  lemma CopiedAside(w: World, o: Outcome)
    requires Binary in w.files
    ensures var w' := After(w, Copy(Binary, Rollback), o);
      && w' == w.(files := w'.files) && Succeeds(w, Copy(Binary, Rollback), o) == o.ok
      && w'.At(Rollback) == (if o.ok then w.At(Binary) else w.At(Rollback))
      && (o.ok ==> w'.At(New(Rollback)) == None)
      && forall f :: f !in {Rollback, New(Rollback)} ==> w'.At(f) == w.At(f)
  {
  }

  lemma Recorded(w: World, word: string, o: Outcome)
    ensures After(w, Write(PriorActive, word), o) == if o.ok then w.(files := w.files[PriorActive := word]) else w
    ensures Succeeds(w, Write(PriorActive, word), o) == o.ok
    ensures forall o' :: After(w, Remove(Rollback), o') == w.(files := w.files - {Rollback})
  {
  }

  /** Copies the binary aside and records the state it ran in; the copy is dropped again if the
      record cannot be written.  With the copy complete, what it holds is guarded in place of what
      was guarded before. */
  method RecordRollback(h: Host, word: string) returns (stuck: Option<Op>)
    requires Binary in h.w.files
    modifies h
    ensures h.w == old(h.w).(files := h.w.files)
    ensures forall f :: f !in {Rollback, PriorActive, New(Rollback)} ==> h.w.At(f) == old(h.w).At(f)
    ensures h.failed == old(h.failed) + Single(stuck)
    ensures stuck.None? ==> h.w.At(Rollback) == old(h.w).At(Binary) && h.w.At(PriorActive) == Some(word)
    ensures stuck.None? ==> h.w.At(New(Rollback)) == None
    ensures stuck.Some? ==> h.w.At(PriorActive) == old(h.w).At(PriorActive)
    ensures stuck.Some? ==> stuck.value == Copy(Binary, Rollback) || stuck.value == Write(PriorActive, word)
    ensures stuck == Some(Write(PriorActive, word)) ==> h.w.At(Rollback) == None
    ensures stuck == Some(Copy(Binary, Rollback)) ==> h.w.At(Rollback) == old(h.w).At(Rollback)
    ensures h.guarded == if stuck == Some(Copy(Binary, Rollback)) then old(h.guarded) else old(h.w).At(Binary)
    ensures old(h.kept) && Secure(old(h.w), old(h.guarded)) ==> h.kept && Secure(h.w, h.guarded)
    ensures stuck.None? ==> Backed(h.w, h.guarded)
    ensures stuck.None? ==> h.tape == Drop(old(h.tape), 2)
    ensures stuck == if !Nth(old(h.tape), 0).ok then Some(Copy(Binary, Rollback))
                     else if !Nth(old(h.tape), 1).ok then Some(Write(PriorActive, word)) else None
  {
    hide After;
    stuck := None;
    NextAhead(h.tape);
    CopiedAside(h.w, Next(h.tape));
    h.guarded := h.w.At(Binary);
    var ok := h.Do(Copy(Binary, Rollback));
    Recorded(h.w, word, Next(h.tape));
    if !ok {
      h.guarded := old(h.guarded);
      return Some(Copy(Binary, Rollback));
    }
    ok := h.Do(Write(PriorActive, word));
    if !ok {
      var _ := h.Do(Remove(Rollback));
      return Some(Write(PriorActive, word));
    }
  }

  function Single(step: Option<Op>): seq<Op> { if step.Some? then [step.value] else [] }

  /** After the new binary is in place: bring it up, or go back. */
  method Activate(h: Host) returns (r: UpdateReport)
    modifies h`w, h`tape, h`done, h`failed, h`kept
    ensures r == Updated || r == Recovered || r == RecoveryFailed
    ensures SameInstall(old(h.w), h.w, COPIES)
    ensures r == Updated ==> h.w.files == old(h.w).files && RunsInstalled(h.w)
    ensures r == Recovered ==>
      && h.w.At(Binary) == old(h.w).At(Rollback) && Binary in h.w.files
      && h.w.At(Rollback) == None && h.w.At(PriorActive) == None
      && (Marker(old(h.w).files) == Some("active") ==> RunsInstalled(h.w))
    // On the tape: the start and one healthy poll, or else the steps of the recovery.
    ensures r == Updated <==> ComesUp(Startable(old(h.w)), old(h.tape))
    ensures r == Recovered <==>
      && r != Updated
      && GoesBack(old(h.w), Drop(old(h.tape), ComingUses(Startable(old(h.w)), old(h.tape))))
    ensures Backed(old(h.w), h.guarded) ==> (old(h.kept) ==> h.kept) && Secure(h.w, h.guarded)
  {
    hide ComesUp, Recovers, ComingUses, Drop, Nth;
    var ok := StartAndVerify(h);
    if ok { return Updated; }
    GoesBackSame(old(h.w), h.w, h.tape);
    ok := RestoreAfterFailedUpdate(h);
    return if ok then Recovered else RecoveryFailed;
  }

  /** The paths an update rewrites before it copies the artifact. */
  const REWRITTEN: set<File> := {Rollback, PriorActive, New(Rollback), New(Binary)}

  /** What each report of an update says. */
  ghost predicate Reports(r: UpdateReport, w: World, w': World, artifact: File) {
    && SameInstall(w, w', COPIES)
    && match r
       case Refused => w' == w
       case NotReplaced(step) =>
         w'.At(Binary) == w.At(Binary) && w'.sd == w.sd && BackupAfter(w, w', artifact, step)
       case Updated =>
         && (if w.ActiveWord() == "active" then RunsInstalled(w') else w'.sd == w.sd)
         && (artifact !in REWRITTEN ==> w'.At(Binary) == w.At(artifact))
         && (Binary in w.files ==> w'.At(Rollback) == w.At(Binary) && Marker(w'.files) == Some(w.ActiveWord()))
       case Recovered =>
         && w.ActiveWord() == "active"
         && w'.At(Rollback) == None && w'.At(PriorActive) == None
         && (Binary in w.files ==> w'.At(Binary) == w.At(Binary) && RunsInstalled(w'))
       case RecoveryFailed =>
         && w.ActiveWord() == "active"
         && (Binary in w.files ==> Secure(w', w.At(Binary)))
  }

  /** Puts the artifact in place of the binary. */
  method Swap(h: Host, artifact: File) returns (stuck: Option<Op>)
    modifies h`w, h`tape, h`done, h`failed, h`kept
    ensures h.w == old(h.w).(files := h.w.files)
    ensures forall f :: f != Binary && f != New(Binary) ==> h.w.At(f) == old(h.w).At(f)
    ensures h.failed == old(h.failed) + Single(stuck)
    ensures stuck.Some? ==> stuck.value == Copy(artifact, Binary) && h.w.At(Binary) == old(h.w).At(Binary)
    ensures stuck.None? && artifact != New(Binary) ==> h.w.At(Binary) == old(h.w).At(artifact)
    ensures stuck.None? ==> Binary in h.w.files
    ensures old(h.kept) && Backed(old(h.w), h.guarded) ==> h.kept
    ensures stuck.None? <==> Next(old(h.tape)).ok && old(h.w).Readable(artifact)
    ensures h.tape == Rest(old(h.tape))
  {
    var ok := h.Do(Copy(artifact, Binary));
    stuck := if ok then None else Some(Copy(artifact, Binary));
  }

  /** The installation once the new binary is in place. */
  ghost predicate Replaced(w: World, w': World, artifact: File, word: string) {
    && w' == w.(files := w'.files) && SameInstall(w, w', COPIES)
    && (if Binary in w.files then w'.At(Rollback) == w.At(Binary) && w'.At(PriorActive) == Some(word)
        else w'.At(Rollback) == w.At(Rollback) && w'.At(PriorActive) == w.At(PriorActive))
    && (artifact !in REWRITTEN ==> w'.At(Binary) == w.At(artifact))
  }

  /** What is guarded once an update has gone as far as `stuck` says. */
  function Guarding(w: World, before: Option<Bytes>, stuck: Option<Op>): Option<Bytes> {
    if Binary !in w.files || stuck == Some(Copy(Binary, Rollback)) then before else w.At(Binary)
  }

  /** Where replacing the binary stops, on the tape. */
  function Stops(w: World, tape: seq<Outcome>, artifact: File): Option<Op> {
    if Binary !in w.files then
      if Nth(tape, 0).ok && w.Readable(artifact) then None else Some(Copy(artifact, Binary))
    else if !Nth(tape, 0).ok then Some(Copy(Binary, Rollback))
    else if !Nth(tape, 1).ok then Some(Write(PriorActive, w.ActiveWord()))
    else if Nth(tape, 2).ok && StillThere(w, artifact) then None
    else Some(Copy(artifact, Binary))
  }

  /** An artifact that can be read once the backup has been made. */
  predicate StillThere(w: World, artifact: File) {
    artifact == Rollback || artifact == PriorActive || (artifact != New(Rollback) && w.Readable(artifact))
  }

  function ReplaceUses(w: World): nat { if Binary in w.files then 3 else 1 }

  lemma Remains(w: World, w1: World, artifact: File)
    requires w1 == w.(files := w1.files)
    requires if Binary in w.files then
               && w1.At(Rollback).Some? && w1.At(PriorActive).Some? && w1.At(New(Rollback)) == None
               && forall f :: f !in {Rollback, PriorActive, New(Rollback)} ==> w1.At(f) == w.At(f)
             else w1 == w
    ensures Binary in w.files ==> w1.Readable(artifact) == StillThere(w, artifact)
    ensures Binary !in w.files ==> w1.Readable(artifact) == w.Readable(artifact)
  {
    assert artifact !in {Rollback, PriorActive, New(Rollback)} ==> w1.At(artifact) == w.At(artifact);
  }

  /** What is guarded, and that it stays within reach, once an update has gone as far as `stuck` says. */
  twostate predicate GuardHolds(h: Host, stuck: Option<Op>)
    reads h
  {
    && h.guarded == Guarding(old(h.w), old(h.guarded), stuck)
    && (old(h.kept) && Secure(old(h.w), old(h.guarded)) ==>
          h.kept && Secure(h.w, h.guarded) && (stuck.None? ==> Backed(h.w, h.guarded)))
  }

  /** Records what a rollback needs, if there is a binary. */
  method MakeBackup(h: Host, artifact: File, word: string) returns (stuck: Option<Op>)
    requires word == h.w.ActiveWord()
    modifies h
    ensures h.w == old(h.w).(files := h.w.files) && h.failed == old(h.failed) + Single(stuck)
    ensures GuardHolds(h, stuck)
    ensures stuck.Some? ==> Reports(NotReplaced(stuck.value), old(h.w), h.w, artifact)
    ensures stuck.Some? ==> stuck == Stops(old(h.w), old(h.tape), artifact)
    ensures stuck.None? ==>
      && (forall f :: f !in {Rollback, PriorActive, New(Rollback)} ==> h.w.At(f) == old(h.w).At(f))
      && (if Binary in old(h.w).files then h.w.At(Rollback) == old(h.w).At(Binary) && h.w.At(PriorActive) == Some(word)
          else h.w == old(h.w))
    ensures stuck.None? ==>
      Stops(old(h.w), old(h.tape), artifact) ==
      if Next(h.tape).ok && h.w.Readable(artifact) then None else Some(Copy(artifact, Binary))
    ensures stuck.None? ==> Rest(h.tape) == Drop(old(h.tape), ReplaceUses(old(h.w)))
  {
    hide Drop, Nth, Next, Rest, Reports, Secure, StillThere, World.Readable;
    TapeNext(h.tape);
    RestDrop(h.tape, 2);
    NthIs(h.tape, 2);
    stuck := None;
    if Binary in h.w.files {
      stuck := RecordRollback(h, word);
      if stuck.Some? {
        Stopped(old(h.w), h.w, artifact, stuck.value);
        return;
      }
    } else {
      NoBackup(h.w, h.guarded);
    }
    Remains(old(h.w), h.w, artifact);
  }

  /** Records what a rollback needs, if there is a binary, and then replaces it. */
  method Replace(h: Host, artifact: File, word: string) returns (stuck: Option<Op>)
    requires word == h.w.ActiveWord()
    modifies h
    ensures h.w == old(h.w).(files := h.w.files) && h.failed == old(h.failed) + Single(stuck)
    ensures GuardHolds(h, stuck)
    ensures stuck.Some? ==> Reports(NotReplaced(stuck.value), old(h.w), h.w, artifact)
    ensures stuck.None? ==> Replaced(old(h.w), h.w, artifact, word) && Binary in h.w.files
    ensures stuck == Stops(old(h.w), old(h.tape), artifact)
    ensures stuck.None? ==> h.tape == Drop(old(h.tape), ReplaceUses(old(h.w)))
  {
    hide Drop, Nth, Next, Rest, Reports, Replaced, Secure, Stops, World.Readable;
    stuck := MakeBackup(h, artifact, word);
    if stuck.Some? { return; }
    ghost var w1 := h.w;
    stuck := Swap(h, artifact);
    if stuck.Some? {
      Stopped(old(h.w), h.w, artifact, stuck.value);
    } else {
      Swapped(old(h.w), w1, h.w, artifact, word);
    }
    BackedIsSecure(h.w, h.guarded);
  }

  lemma BackedIsSecure(w: World, guarded: Option<Bytes>)
    ensures Backed(w, guarded) ==> Secure(w, guarded)
  {
  }

  lemma Stopped(w: World, w': World, artifact: File, step: Op)
    requires w' == w.(files := w'.files) && w'.At(Binary) == w.At(Binary)
    requires forall f :: f !in COPIES ==> w'.At(f) == w.At(f)
    requires BackupAfter(w, w', artifact, step)
    ensures Reports(NotReplaced(step), w, w', artifact)
  {
  }

  lemma Swapped(w: World, w1: World, w2: World, artifact: File, word: string)
    requires w1 == w.(files := w1.files) && w2 == w1.(files := w2.files)
    requires forall f :: f !in {Rollback, PriorActive, New(Rollback)} ==> w1.At(f) == w.At(f)
    requires forall f :: f != Binary && f != New(Binary) ==> w2.At(f) == w1.At(f)
    requires if Binary in w.files then w1.At(Rollback) == w.At(Binary) && w1.At(PriorActive) == Some(word) else w1 == w
    requires artifact != New(Binary) ==> w2.At(Binary) == w1.At(artifact)
    ensures Replaced(w, w2, artifact, word)
  {
  }

  lemma NoBackup(w: World, guarded: Option<Bytes>)
    requires Binary !in w.files
    ensures Secure(w, guarded) ==> Backed(w, guarded)
  {
  }

  lemma MarkerOfWord(w: World, word: string)
    requires w.At(PriorActive) == Some(word) && MarkerWord(word)
    ensures Marker(w.files) == Some(word)
  {
    MarkerWordsAreTrimmed(word);
  }

  /** An update the checks let through: a managed unit, a verified artifact, and a prior state the
      marker can record. */
  predicate Admissible(w: World, managed: Bytes -> bool, digest: Bytes -> string, artifact: File, want: string) {
    && w.Readable(Unit) && managed(w.files[Unit]) && w.Readable(artifact) && digest(w.files[artifact]) == want
    && w.ActiveWord() in {"active", "inactive", "dead", "failed"}
  }

  /** The checks before anything changes. */
  method Admit(h: Host, managed: Bytes -> bool, digest: Bytes -> string, artifact: File, want: string)
    returns (word: Option<string>)
    modifies h`tape
    ensures word == if Admissible(h.w, managed, digest, artifact, want) && Next(old(h.tape)).ok
                    then Some(h.w.ActiveWord()) else None
    ensures word.Some? ==> h.tape == Drop(old(h.tape), 1)
  {
    if !Managed(h.w, managed) { return None; }
    if !h.w.Readable(artifact) || digest(h.w.files[artifact]) != want { return None; }
    var ok := h.Query();
    return if ok && MarkerWord(h.w.ActiveWord()) then Some(h.w.ActiveWord()) else None;
  }

  /** The outcomes of what follows the replacement. */
  function AfterSwap(w: World, tape: seq<Outcome>): seq<Outcome> { Drop(tape, 1 + ReplaceUses(w)) }

  /** Whether recovery succeeds after a start that failed: from the backup just made, or from what an
      earlier update has left if there was no binary to back up. */
  ghost predicate RecoversFrom(w: World, tape: seq<Outcome>) {
    var rest := Drop(tape, ComingUses(w.sd.loaded.Some?, tape));
    if Binary in w.files
    then Nth(rest, 0).ok && Nth(rest, 1).ok && ComesUp(w.sd.loaded.Some?, Drop(rest, 2))
    else GoesBack(w, rest)
  }

  lemma ActivationIs(w: World, w1: World, artifact: File, word: string, tape: seq<Outcome>)
    requires Replaced(w, w1, artifact, word) && Binary in w1.files
    requires word == "active" && (Binary in w.files ==> Marker(w1.files) == Some(word))
    ensures Startable(w1) == w.sd.loaded.Some?
    ensures GoesBack(w1, Drop(tape, ComingUses(Startable(w1), tape))) == RecoversFrom(w, tape)
  {
    hide Marker, ComesUp, ComingUses, Drop, Nth;
    if Binary !in w.files {
      GoesBackSame(w, w1, Drop(tape, ComingUses(Startable(w1), tape)));
    }
  }

  method UpdateBinary(h: Host, managed: Bytes -> bool, digest: Bytes -> string, artifact: File, want: string)
    returns (r: UpdateReport)
    modifies h
    ensures Reports(r, old(h.w), h.w, artifact)
    ensures r.Refused? <==> !(Admissible(old(h.w), managed, digest, artifact, want) && Next(old(h.tape)).ok)
    // What is guarded changes exactly when the backup copy is completed, and whatever is guarded
    // stays where a rollback finds it, in every state on the way.
    ensures h.guarded == if r.Refused? then old(h.guarded)
                         else Guarding(old(h.w), old(h.guarded), if r.NotReplaced? then Some(r.step) else None)
    ensures old(h.kept) && Secure(old(h.w), old(h.guarded)) ==> h.kept && Secure(h.w, h.guarded)
    ensures r.NotReplaced? ==> h.failed == old(h.failed) + [r.step]
    // Which outcome it is, on the tape: the step that fails before the binary is replaced, if any; for
    // a service that was active, whether the new binary comes up and some poll finds it healthy; and
    // if not, whether the recovery does the same for the old one.
    ensures r.NotReplaced? <==> !r.Refused? && Stops(old(h.w), Drop(old(h.tape), 1), artifact).Some?
    ensures r.NotReplaced? ==> Stops(old(h.w), Drop(old(h.tape), 1), artifact) == Some(r.step)
    ensures r == Updated <==>
      && !r.Refused? && !r.NotReplaced?
      && (old(h.w).ActiveWord() == "active" ==> ComesUp(old(h.w).sd.loaded.Some?, AfterSwap(old(h.w), old(h.tape))))
    ensures r == Recovered <==>
      && !r.Refused? && !r.NotReplaced? && r != Updated
      && RecoversFrom(old(h.w), AfterSwap(old(h.w), old(h.tape)))
  {
    hide Nth, Drop, Admissible, Reports, Replaced, Secure, Marker, RunsInstalled;
    ghost var w := h.w;
    var word := Admit(h, managed, digest, artifact, want);
    if word.None? {
      assert Reports(Refused, w, h.w, artifact) by { RefusalReports(w, artifact); }
      return Refused;
    }
    DropDrop(old(h.tape), 1, ReplaceUses(w));
    var stuck := Replace(h, artifact, word.value);
    if stuck.Some? { return NotReplaced(stuck.value); }
    ghost var w1 := h.w;
    AdmissibleWord(w, managed, digest, artifact, want);
    ReplacedMarker(w, w1, artifact, word.value);
    if word.value != "active" {
      QuietReports(w, w1, artifact, word.value);
      return Updated;
    }
    ActivationIs(w, w1, artifact, word.value, h.tape);
    r := Activate(h);
    Conclude(r, w, w1, h.w, artifact);
  }

  lemma RefusalReports(w: World, artifact: File)
    ensures Reports(Refused, w, w, artifact)
  {
  }

  lemma ReplacedMarker(w: World, w1: World, artifact: File, word: string)
    requires Replaced(w, w1, artifact, word) && MarkerWord(word)
    ensures Binary in w.files ==> Marker(w1.files) == Some(word) && Backed(w1, w.At(Binary))
    ensures w1 == w.(files := w1.files)
  {
    if Binary in w.files {
      MarkerOfWord(w1, word);
    }
  }

  lemma QuietReports(w: World, w1: World, artifact: File, word: string)
    requires Replaced(w, w1, artifact, word) && word == w.ActiveWord() != "active"
    requires Binary in w.files ==> Marker(w1.files) == Some(word)
    ensures Reports(Updated, w, w1, artifact)
  {
  }

  lemma AdmissibleWord(w: World, managed: Bytes -> bool, digest: Bytes -> string, artifact: File, want: string)
    requires Admissible(w, managed, digest, artifact, want)
    ensures MarkerWord(w.ActiveWord())
  {
  }

  /** After a failed update, the content of an earlier backup is still in the binary's place or in
      the rollback copy if and only if the copy onto the backup was not completed (because it
      failed, or because there was no binary to copy), or the backup held the current binary. */
  lemma BackupSurvives(w: World, w': World, artifact: File, step: Op)
    requires Rollback in w.files && Reports(NotReplaced(step), w, w', artifact)
    ensures Holds(w', w.At(Rollback)) <==>
      Binary !in w.files || step == Copy(Binary, Rollback) || w.At(Rollback) == w.At(Binary)
  {
  }

  lemma Conclude(r: UpdateReport, w: World, w1: World, w2: World, artifact: File)
    requires w.ActiveWord() == "active" && Replaced(w, w1, artifact, "active")
    requires Binary in w.files ==> Marker(w1.files) == Some("active")
    requires SameInstall(w1, w2, COPIES)
    requires match r
             case Updated => w2.files == w1.files && RunsInstalled(w2)
             case Recovered =>
               && w2.At(Binary) == w1.At(Rollback) && Binary in w2.files
               && w2.At(Rollback) == None && w2.At(PriorActive) == None
               && (Marker(w1.files) == Some("active") ==> RunsInstalled(w2))
             case RecoveryFailed => Binary in w.files ==> Secure(w2, w.At(Binary))
             case _ => false
    ensures Reports(r, w, w2, artifact)
  {
    SameInstallTransitive(w, w1, w2, COPIES);
  }

  lemma SameInstallTransitive(a: World, b: World, c: World, copies: set<File>)
    requires SameInstall(a, b, copies) && SameInstall(b, c, copies)
    ensures SameInstall(a, c, copies)
  {
  }

  // ---------------------------------------------------------------- rollback

  /** Where a rollback stops: the binary is where it was and nothing is set aside, whatever was
      before, or it has been set aside and nothing is in its place. */
  ghost predicate StuckAt(w: World, w': World) {
    || (w'.At(Binary) == w.At(Binary) && w'.At(Failed) == None)
    || (Binary in w.files && w'.At(Binary) == None && w'.At(Failed) == w.At(Binary))
  }

  /** Whether both moves of a rollback succeed, and whether the first stays undone otherwise. */
  predicate Moves(w: World, tape: seq<Outcome>) { Binary in w.files && Nth(tape, 1).ok && Nth(tape, 2).ok }

  predicate Strands(w: World, tape: seq<Outcome>) {
    Binary in w.files && Nth(tape, 1).ok && !Nth(tape, 2).ok && !Nth(tape, 3).ok
  }

  /** What each report of a rollback says.  A service recorded as not active is never started:
      nothing about systemd changes. */
  ghost predicate RollbackReports(r: RollbackReport, w: World, w': World) {
    && SameInstall(w, w', COPIES + {Failed})
    && (Marker(w.files) != Some("active") ==> w'.sd == w.sd)
    && match r
       case Declined => w'.files == w.files
       case Stuck =>
         && w'.At(Rollback) == w.At(Rollback) && w'.At(PriorActive) == w.At(PriorActive)
         && StuckAt(w, w')
       case Undone =>
         && Binary in w.files
         && w'.At(Binary) == w.At(Rollback) && Binary in w'.files && w'.At(Failed) == w.At(Binary)
         && w'.At(Rollback) == None && w'.At(PriorActive) == None
         && (Marker(w.files) == Some("active") ==> RunsInstalled(w'))
       case NotStarted =>
         && Marker(w.files) == Some("active") && Binary in w.files
         && w'.At(Binary) == w.At(Rollback) && w'.At(Failed) == w.At(Binary) && w'.At(Rollback) == None
  }

  lemma Renamed(w: World, src: File, dst: File, o: Outcome)
    requires src != dst
    ensures var w', ok := After(w, Rename(src, dst), o), Succeeds(w, Rename(src, dst), o);
      && ok == (o.ok && src in w.files) && w' == w.(files := w'.files)
      && (if ok then w'.At(dst) == w.At(src) && w'.At(src) == None else w' == w)
      && (forall f :: f != src && f != dst ==> w'.At(f) == w.At(f))
  {
  }

  lemma Gone(w: World, file: File, o: Outcome)
    ensures var w' := After(w, Remove(file), o);
      && w' == w.(files := w'.files) && w'.At(file) == None
      && (forall f :: f != file ==> w'.At(f) == w.At(f))
  {
  }

  /** Sets the current binary aside and moves the old one back; a failure of the second move
      tries, unchecked, to take back the first. */
  method Exchange(h: Host) returns (ok: bool)
    requires Rollback in h.w.files
    modifies h`w, h`tape, h`done, h`failed, h`kept
    ensures h.w == old(h.w).(files := h.w.files)
    ensures forall f :: f !in {Binary, Failed, Rollback} ==> h.w.At(f) == old(h.w).At(f)
    ensures ok ==>
      h.w.At(Binary) == old(h.w).At(Rollback) && h.w.At(Failed) == old(h.w).At(Binary) && h.w.At(Rollback) == None
    ensures !ok ==> h.w.At(Rollback) == old(h.w).At(Rollback) && StuckAt(old(h.w), h.w)
    ensures ok <==> Moves(old(h.w), old(h.tape))
    ensures ok ==> h.tape == Drop(old(h.tape), 3)
    ensures !ok ==> (Binary in old(h.w).files && h.w.At(Binary) == None <==> Strands(old(h.w), old(h.tape)))
    ensures old(h.kept) && Backed(old(h.w), h.guarded) ==> h.kept
  {
    hide Nth, Drop, After, Succeeds;
    MovesAhead(h.tape);
    Gone(h.w, Failed, Next(h.tape));
    var _ := h.Do(Remove(Failed));
    Renamed(h.w, Binary, Failed, Next(h.tape));
    ok := h.Do(Rename(Binary, Failed));
    if ok {
      Renamed(h.w, Rollback, Binary, Next(h.tape));
      ok := h.Do(Rename(Rollback, Binary));
      if !ok {
        Renamed(h.w, Failed, Binary, Next(h.tape));
        var _ := h.Do(Rename(Failed, Binary));
      }
    }
  }

  lemma MovesAhead(tape: seq<Outcome>)
    ensures Next(Rest(tape)) == Nth(tape, 1) && Next(Rest(Rest(tape))) == Nth(tape, 2)
    ensures Next(Rest(Rest(Rest(tape)))) == Nth(tape, 3) && Rest(Rest(Rest(tape))) == Drop(tape, 3)
  {
    NextAhead(tape);
    RestDrop(tape, 2);
  }

  /** Up to the exchange of the binaries nothing has changed but the activity and the files it moves. */
  ghost predicate Exchanged(w: World, w1: World, w2: World) {
    && w1 == w.(sd := w.sd.(activity := w1.sd.activity)) && w2 == w1.(files := w2.files)
    && (forall f :: f !in {Binary, Failed, Rollback} ==> w2.At(f) == w1.At(f))
    && (Marker(w.files) != Some("active") ==> w1 == w)
  }

  lemma ExchangedSame(w: World, w1: World, w2: World)
    requires Exchanged(w, w1, w2)
    ensures SameInstall(w, w2, COPIES + {Failed})
    ensures Marker(w.files) != Some("active") ==> w2.sd == w.sd
  {
    hide Marker;
    assert forall f :: f !in COPIES + {Failed} ==> w2.At(f) == w1.At(f) == w.At(f);
  }

  lemma StuckReports(w: World, w1: World, w2: World)
    requires Exchanged(w, w1, w2) && w2.At(Rollback) == w.At(Rollback)
    requires StuckAt(w1, w2)
    ensures RollbackReports(Stuck, w, w2)
  {
    hide Marker, SameInstall;
    ExchangedSame(w, w1, w2);
    assert w2.At(PriorActive) == w1.At(PriorActive);
  }

  /** The old binary is back in place. */
  ghost predicate Returned(w: World, w2: World) {
    && Rollback in w.files && Binary in w.files
    && w2.At(Binary) == w.At(Rollback) && w2.At(Failed) == w.At(Binary) && w2.At(Rollback) == None
  }

  lemma NotStartedReports(w: World, w1: World, w2: World, w3: World)
    requires Exchanged(w, w1, w2) && Returned(w, w2) && Marker(w.files) == Some("active")
    requires w3 == w2.(sd := w2.sd.(activity := w3.sd.activity))
    ensures RollbackReports(NotStarted, w, w3)
  {
    hide Marker;
    ExchangedSame(w, w1, w2);
  }

  lemma UndoneReports(w: World, w1: World, w2: World, w3: World)
    requires Exchanged(w, w1, w2) && Returned(w, w2)
    requires w3 == w2.(files := w2.files - {PriorActive} - {Rollback}, sd := w2.sd.(activity := w3.sd.activity))
    requires if Marker(w.files) == Some("active") then RunsInstalled(w3) else w3.sd == w2.sd
    ensures RollbackReports(Undone, w, w3)
  {
    hide Marker, RunsInstalled;
    ExchangedSame(w, w1, w2);
    assert forall f :: f !in COPIES + {Failed} ==> w3.At(f) == w2.At(f);
  }

  lemma DeclinedReports(w: World, w1: World)
    requires w1 == w.(sd := w.sd.(activity := w1.sd.activity))
    requires Marker(w.files) != Some("active") ==> w1 == w
    ensures RollbackReports(Declined, w, w1)
  {
  }

  /** Removing the metadata leaves what runs. */
  lemma StillRuns(w: World, w': World)
    requires RunsInstalled(w) && w' == w.(files := w.files - {PriorActive} - {Rollback})
    ensures RunsInstalled(w')
  {
  }

  /** A rollback that does not give up before the moves. */
  predicate Begins(w: World, managed: Bytes -> bool, tape: seq<Outcome>) {
    && w.Readable(Unit) && managed(w.files[Unit]) && Rollback in w.files && Marker(w.files).Some?
    && (Marker(w.files) == Some("active") ==> Next(tape).ok)
  }

  /** The outcomes of its moves; resetting a failed state comes first for an active service. */
  function ToMoves(w: World, tape: seq<Outcome>): seq<Outcome> {
    Drop(tape, if Marker(w.files) == Some("active") then 1 else 0)
  }

  /** The moves, and the start of a service recorded active; `w` is the world before its failed state
      was reset. */
  method SwapBack(h: Host, active: bool, ghost w: World) returns (r: RollbackReport)
    requires Rollback in h.w.files && active == (Marker(w.files) == Some("active"))
    requires h.w == w.(sd := w.sd.(activity := h.w.sd.activity)) && (!active ==> h.w == w)
    modifies h`w, h`tape, h`done, h`failed, h`kept
    ensures RollbackReports(r, w, h.w) && !r.Declined?
    ensures r.Stuck? <==> !Moves(w, old(h.tape))
    ensures r.Stuck? ==> (Binary in w.files && h.w.At(Binary) == None <==> Strands(w, old(h.tape)))
    ensures !r.Stuck? ==> (r == Undone <==> (active ==> Starts(w.sd.loaded.Some?, Drop(old(h.tape), 3))))
    ensures old(h.kept) && Secure(w, h.guarded) ==> h.kept && Secure(h.w, h.guarded)
  {
    hide Marker, RunsInstalled, RollbackReports, SameInstall, StuckAt, Nth, Drop, Starts;
    var ok := Exchange(h);
    ghost var w2 := h.w;
    if !ok {
      StuckReports(w, old(h.w), w2);
      return Stuck;
    }
    if active {
      ok := RestartAndVerify(h);
      if !ok {
        NotStartedReports(w, old(h.w), w2, h.w);
        return NotStarted;
      }
      StillRuns(h.w, h.w.(files := h.w.files - {PriorActive} - {Rollback}));
    }
    Discard(h);
    UndoneReports(w, old(h.w), w2, h.w);
    return Undone;
  }

  method RollbackBinary(h: Host, managed: Bytes -> bool) returns (r: RollbackReport)
    modifies h`w, h`tape, h`done, h`failed, h`kept
    ensures RollbackReports(r, old(h.w), h.w)
    ensures r.Declined? <==> !Begins(old(h.w), managed, old(h.tape))
    ensures !Managed(old(h.w), managed) || Rollback !in old(h.w).files || Marker(old(h.w).files).None?
      ==> h.w == old(h.w)
    // It comes to the moves, and whether they succeed decides what it reports.
    ensures Begins(old(h.w), managed, old(h.tape)) ==> (r.Stuck? <==> !Moves(old(h.w), ToMoves(old(h.w), old(h.tape))))
    // For a service recorded active, whether the old one starts and some poll finds it healthy.
    ensures Begins(old(h.w), managed, old(h.tape)) && !r.Stuck? ==>
      (r == Undone <==> (Marker(old(h.w).files) == Some("active") ==>
         Starts(old(h.w).sd.loaded.Some?, Drop(ToMoves(old(h.w), old(h.tape)), 3))))
    ensures r.Stuck? ==>
      (Binary in old(h.w).files && h.w.At(Binary) == None <==> Strands(old(h.w), ToMoves(old(h.w), old(h.tape))))
    ensures old(h.kept) && Secure(old(h.w), h.guarded) ==> h.kept && Secure(h.w, h.guarded)
  {
    hide Marker, RollbackReports, Moves, Strands, Drop, Starts;
    ghost var w := h.w;
    assert Drop(h.tape, 0) == h.tape by { DropNone(h.tape); }
    DeclinedReports(w, w);
    if !Managed(h.w, managed) || Rollback !in h.w.files { return Declined; }
    var marker := Marker(h.w.files);
    if marker.None? { return Declined; }
    var active := marker.value == "active";
    if active {
      var ok := ResetFailedState(h);
      DeclinedReports(w, h.w);
      if !ok { return Declined; }
    }
    r := SwapBack(h, active, w);
  }

  // -------------------------------------------------------------------- runs

  /** A successful update followed by a successful rollback restores the old binary, and runs it
      exactly if the service was running before the update. */
  lemma UpdateThenRollback(w: World, w1: World, w2: World, artifact: File)
    requires Binary in w.files && MarkerWord(w.ActiveWord())
    requires Reports(Updated, w, w1, artifact) && RollbackReports(Undone, w1, w2)
    ensures w2.At(Binary) == w.At(Binary) && w2.At(Unit) == w.At(Unit)
    ensures w2.At(Failed) == w1.At(Binary)
    ensures if w.ActiveWord() == "active" then RunsInstalled(w2) else w2.sd == w.sd
  {
    hide Marker, RunsInstalled, MarkerWord;
  }

  /** Once the binary is missing, no number of rollbacks brings one back, and the first that gets as
      far as the moves deletes what an earlier one has set aside. */
  method NeverBack(h: Host, managed: Bytes -> bool, n: nat) returns (reports: seq<RollbackReport>)
    requires Binary !in h.w.files
    modifies h`w, h`tape, h`done, h`failed, h`kept
    ensures |reports| == n && forall r :: r in reports ==> r == Declined || r == Stuck
    ensures h.w.At(Binary) == None && h.w.At(Rollback) == old(h.w).At(Rollback)
    ensures h.w.At(Failed) == if Stuck in reports then None else old(h.w).At(Failed)
    ensures n > 0 && Begins(old(h.w), managed, old(h.tape)) ==> Stuck in reports
  {
    hide Begins, ToMoves, Marker;
    reports := [];
    for i := 0 to n
      invariant |reports| == i && forall r :: r in reports ==> r == Declined || r == Stuck
      invariant h.w.At(Binary) == None && h.w.At(Rollback) == old(h.w).At(Rollback)
      invariant h.w.At(Failed) == if Stuck in reports then None else old(h.w).At(Failed)
      invariant i == 0 ==> h.w == old(h.w) && h.tape == old(h.tape)
      invariant i > 0 && Begins(old(h.w), managed, old(h.tape)) ==> Stuck in reports
    {
      var r := RollbackBinary(h, managed);
      reports := reports + [r];
    }
  }

  datatype Command = UpdateTo(artifact: File, want: string) | RollBack

  /** Any number of updates and rollbacks, each failing wherever it may.  In every state of the
      run, the binary that was in place when a backup copy was last completed is in its place or
      in the rollback copy. */
  method Run(h: Host, managed: Bytes -> bool, digest: Bytes -> string, commands: seq<Command>)
    requires h.kept && Secure(h.w, h.guarded)
    modifies h
    ensures h.kept && Secure(h.w, h.guarded)
  {
    for i := 0 to |commands|
      invariant h.kept && Secure(h.w, h.guarded)
    {
      match commands[i] {
        case UpdateTo(artifact, want) => var _ := UpdateBinary(h, managed, digest, artifact, want);
        case RollBack => var _ := RollbackBinary(h, managed);
      }
    }
  }

  // ------------------------------------------------------- a backup that is lost

  function Any(unit: Bytes): bool { true }

  function Same(content: Bytes): string { content }

  const ONE := Other("one")
  const TWO := Other("two")

  /** A managed service that is not running, its binary, and two artifacts. */
  const IDLE := World(map[Unit := "unit", Binary := "v1", ONE := "v2", TWO := "v3"],
                      Systemd(true, false, Some("unit"), Inactive), true, true, Facts(false, None, true, true))

  /** The third step fails. */
  const THIRD_FAILS: seq<Outcome> := [SMOOTH, SMOOTH, FAILING]

  lemma FirstSucceeds()
    ensures Admissible(IDLE, Any, Same, ONE, "v2") && Next([]).ok && Stops(IDLE, Drop([], 1), ONE) == None
    ensures IDLE.ActiveWord() != "active"
  {
    assert IDLE.ActiveWord() == "inactive";
    assert Unit in IDLE.files && ONE in IDLE.files && Binary in IDLE.files;
    assert Nth([], 1) == Nth([], 2) == Nth([], 3) == SMOOTH;
  }

  lemma SecondFails(w: World)
    requires Reports(Updated, IDLE, w, ONE)
    ensures Admissible(w, Any, Same, TWO, "v3") && Next(THIRD_FAILS).ok
    ensures Stops(w, Drop(THIRD_FAILS, 1), TWO) == Some(Write(PriorActive, "inactive"))
    ensures w.ActiveWord() == "inactive" && w.At(Binary) == Some("v2") && w.At(Rollback) == Some("v1")
  {
    hide Marker;
    assert w.At(Unit) == IDLE.At(Unit) && w.At(TWO) == IDLE.At(TWO);
  }

  lemma BackupIsLost(w: World, w': World)
    requires Reports(Updated, IDLE, w, ONE)
    requires Reports(NotReplaced(Write(PriorActive, "inactive")), w, w', TWO)
    ensures w'.At(Binary) == Some("v2") && w'.At(Rollback) == None && Marker(w'.files) == Some("inactive")
    ensures forall f :: f !in {New(Rollback), New(Binary)} ==> w'.At(f) != Some("v1")
  {
    hide Marker;
    SecondFails(w);
    SameMarker(w, w');
    NotAWord(w'.files);
    assert forall f :: f !in COPIES ==> w'.At(f) == IDLE.At(f);
  }

  lemma SameMarker(w: World, w': World)
    requires w'.At(PriorActive) == w.At(PriorActive)
    ensures Marker(w'.files) == Marker(w.files)
  {
  }

  lemma NotAWord(files: map<File, Bytes>)
    requires Marker(files).Some?
    ensures Lookup(files, PriorActive) != Some("v1")
  {
    hide TrimSpace;
    assert Trimmed("v1");
  }

  /** What an update replaced can be lost to a later update that fails: once `v1` has been replaced
      by `v2`, an update that completes its backup copy and cannot write the marker removes the
      only copy of `v1`.  The marker that is left belongs to no backup. */
  method LosesBackup() returns (h: Host, ghost updated: World, first: UpdateReport, second: UpdateReport)
    ensures first == Updated && second == NotReplaced(Write(PriorActive, "inactive"))
    ensures updated.At(Binary) == Some("v2") && updated.At(Rollback) == Some("v1")
    ensures h.w.At(Binary) == Some("v2") && h.w.At(Rollback) == None && Marker(h.w.files) == Some("inactive")
    ensures forall f :: f !in {New(Rollback), New(Binary)} ==> h.w.At(f) != Some("v1")
  {
    hide Reports, Admissible, Stops, Secure, Marker, Guarding, ComesUp, RecoversFrom, Drop;
    FirstSucceeds();
    h := new Host(IDLE, []);
    first := UpdateBinary(h, Any, Same, ONE, "v2");
    updated := h.w;
    SecondFails(updated);
    h.tape := THIRD_FAILS;
    second := UpdateBinary(h, Any, Same, TWO, "v3");
    BackupIsLost(updated, h.w);
  }

  /** The same service after an update, with the old binary as the rollback copy. */
  const UPDATED := World(IDLE.files[Binary := "v2"][Rollback := "v1"][PriorActive := "inactive"],
                         IDLE.sd, true, true, IDLE.facts)

  const FAILING := Outcome(false, false, "", Inactive, false, 0)

  /** The second move fails, and so does taking back the first. */
  const STRANDING: seq<Outcome> := [SMOOTH, SMOOTH, FAILING, FAILING]

  lemma RollbackBegins(w: World, tape: seq<Outcome>)
    requires w.At(Unit) == Some("unit") && w.At(Rollback) == Some("v1") && w.At(PriorActive) == Some("inactive")
    requires !w.facts.unitUnreadable
    ensures Begins(w, Any, tape) && ToMoves(w, tape) == tape
  {
    MarkerOfWord(w, "inactive");
    DropNone(tape);
  }

  /** A rollback that fails twice leaves no binary in place, only the one it set aside; repeating it
      deletes that one, and the old binary in the rollback copy can no longer be put in place. */
  method LosesAside() returns (h: Host, ghost stranded: World, first: RollbackReport, second: RollbackReport)
    ensures first == second == Stuck
    ensures stranded.At(Binary) == None && stranded.At(Failed) == UPDATED.At(Binary) == Some("v2")
    ensures h.w.At(Binary) == h.w.At(Failed) == None && h.w.At(Rollback) == Some("v1")
    ensures forall f :: f !in COPIES + {ONE} ==> h.w.At(f) != Some("v2")
  {
    hide Begins, ToMoves, Marker, Drop;
    h := new Host(UPDATED, STRANDING);
    RollbackBegins(UPDATED, STRANDING);
    assert Strands(UPDATED, STRANDING) && !Moves(UPDATED, STRANDING) by { TapeStrands(); }
    first := RollbackBinary(h, Any);
    stranded := h.w;
    RollbackBegins(stranded, h.tape);
    second := RollbackBinary(h, Any);
  }

  lemma TapeStrands()
    ensures Strands(UPDATED, STRANDING) && !Moves(UPDATED, STRANDING)
  {
  }
}
