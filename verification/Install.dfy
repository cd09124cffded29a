/** The failure-atomic install: publish a unit and a binary, and on any failure put back the
    prior unit, binary, enablement and activity. */
module Install {
  import opened Machine
  import opened Wrappers

  /** `preflight` is the verdict of the checks that only read the request. */
  datatype Request = Request(unit: Bytes, source: File, preflight: bool)

  /** What the installer recorded before its first change. */
  datatype Saved = Saved(hasUnit: bool, oldUnit: Bytes, hasBinary: bool, enabled: string, active: string)

  datatype Report =
    | Refused
    | SetupFailed(step: Op)
    | NoOp
    | Repaired
    | Installed
    | RolledBack(step: Op)
    | Incomplete(step: Op, errs: seq<Op>)

  predicate RestorableEnabled(word: string) {
    word == "enabled" || word == "enabled-runtime" || word == "disabled"
  }

  predicate RestorableActive(word: string) {
    word == "active" || word == "inactive"
  }

  function EnableSteps(word: string): seq<Verb> {
    if word == "enabled" then [Disable, Enable]
    else if word == "enabled-runtime" then [Disable, EnableRuntime]
    else [Disable]
  }

  function ActiveStep(word: string): Verb {
    if word == "active" then Restart else Stop
  }

  /** The state of systemd after every step of a list has succeeded. */
  function Fold(w: World, steps: seq<Verb>): Systemd {
    if steps == [] then w.sd
    else
      var n := |steps| - 1;
      Act(Fold(w, steps[..n]), w.facts, UnitSeen(w), w.At(Binary), steps[n], true, SMOOTH)
  }

  lemma StepFrame(w: World, verb: Verb, o: Outcome)
    ensures var sd' := After(w, Systemctl(verb), o).sd;
      && (verb != EnableRuntime && !w.sd.runtime ==> !sd'.runtime)
      && (verb != Restart && w.sd.activity.Inactive? ==> sd'.activity.Inactive?)
      && (Succeeds(w, Systemctl(verb), o)
          ==> sd' == Act(w.sd, w.facts, UnitSeen(w), w.At(Binary), verb, true, SMOOTH))
  {
  }

  /** Where a list of steps comes to a halt: at its end, or at the first step that fails. */
  datatype Halt = Halt(w: World, tape: seq<Outcome>, stuck: Option<Verb>)

  function Ran(w: World, tape: seq<Outcome>, steps: seq<Verb>): Halt
    decreases |steps|
  {
    if steps == [] then Halt(w, tape, None)
    else
      var op, next := Systemctl(steps[0]), After(w, Systemctl(steps[0]), Next(tape));
      if Succeeds(w, op, Next(tape)) then Ran(next, Rest(tape), steps[1..])
      else Halt(next, Rest(tape), Some(steps[0]))
  }

  /** What such a run amounts to. */
  ghost predicate Amounts(w: World, steps: seq<Verb>, halt: Halt) {
    var w', stuck := halt.w, halt.stuck;
    && w' == w.(sd := w'.sd)
    && (stuck.None? ==> w'.sd == Fold(w, steps))
    && (stuck.None? && steps != [] && steps[|steps| - 1] == Restart ==> w'.sd.activity.Active?)
    && (stuck.None? && Enable in steps ==> w.facts.odd.None?)
    && (stuck.Some? ==> stuck.value in steps)
    && (EnableRuntime !in steps && !w.sd.runtime ==> !w'.sd.runtime)
    && (w.sd.activity.Inactive? && (Restart !in steps || (stuck.Some? && stuck.value != Restart))
        ==> w'.sd.activity.Inactive?)
  }

  lemma {:induction false} RanAmounts(w: World, tape: seq<Outcome>, steps: seq<Verb>)
    requires forall i :: 0 <= i < |steps| - 1 ==> steps[i] != Restart
    ensures Amounts(w, steps, Ran(w, tape, steps))
    decreases |steps|
  {
    if steps == [] {
    } else {
      var op, o := Systemctl(steps[0]), Next(tape);
      var next := After(w, op, o);
      StepFrame(w, steps[0], o);
      if Succeeds(w, op, o) {
        RanAmounts(next, Rest(tape), steps[1..]);
        FoldCons(w, next, steps);
      }
    }
  }

  /** Folding from the first step on. */
  lemma {:induction false} FoldCons(w: World, next: World, steps: seq<Verb>)
    requires steps != []
    requires next == w.(sd := Act(w.sd, w.facts, UnitSeen(w), w.At(Binary), steps[0], true, SMOOTH))
    ensures Fold(w, steps) == Fold(next, steps[1..])
  {
    hide Act;
    if |steps| == 1 {
      assert steps[..0] == [];
    } else {
      var n := |steps| - 1;
      FoldCons(w, next, steps[..n]);
      assert steps[..n][1..] == steps[1..][..n - 1];
    }
  }

  function Ops(steps: seq<Verb>): (ops: seq<Op>)
    ensures |ops| == |steps|
  {
    seq(|steps|, i requires 0 <= i < |steps| => Systemctl(steps[i]))
  }

  lemma OpsSnoc(steps: seq<Verb>, i: nat)
    requires i < |steps|
    ensures Ops(steps[..i + 1]) == Ops(steps[..i]) + [Systemctl(steps[i])]
  {
  }

  /** Runs a list of systemctl steps up to the first failure. */
  method RunSteps(h: Host, steps: seq<Verb>) returns (stuck: Option<Verb>, ghost ran: nat)
    requires forall i :: 0 <= i < |steps| - 1 ==> steps[i] != Restart
    modifies h`w, h`tape, h`done, h`failed, h`kept
    ensures Halt(h.w, h.tape, stuck) == Ran(old(h.w), old(h.tape), steps)
    ensures Amounts(old(h.w), steps, Halt(h.w, h.tape, stuck))
    ensures ran <= |steps| && h.done == old(h.done) + Ops(steps[..ran])
    ensures stuck.None? ==> ran == |steps| && h.failed == old(h.failed)
    ensures stuck.Some? ==> ran > 0 && steps[ran - 1] == stuck.value
    ensures stuck.Some? ==> h.failed == old(h.failed) + [Systemctl(stuck.value)]
  {
    hide Amounts, After, Succeeds, Ops;
    RanAmounts(h.w, h.tape, steps);
    assert Ops([]) == [];
    ran := 0;
    for i := 0 to |steps|
      invariant ran == i
      invariant Ran(old(h.w), old(h.tape), steps) == Ran(h.w, h.tape, steps[i..])
      invariant h.done == old(h.done) + Ops(steps[..i]) && h.failed == old(h.failed)
    {
      var ok := h.Do(Systemctl(steps[i]));
      OpsSnoc(steps, i);
      ran := i + 1;
      if !ok {
        return Some(steps[i]), ran;
      }
      assert steps[i..][1..] == steps[i + 1..];
    }
    return None, ran;
  }

  predicate SystemctlOnly(ops: seq<Op>) { forall op :: op in ops ==> op.Systemctl? }

  /** Stops and disables; without a failure nothing runs, and what neither runs nor is odd in a way
      that stopping does not clear is inactive. */
  method Neutralize(h: Host) returns (errs: seq<Op>)
    modifies h`w, h`tape, h`done, h`failed, h`kept
    ensures h.w == old(h.w).(sd := h.w.sd)
    ensures h.done == old(h.done) + [Systemctl(Stop), Systemctl(Disable)] && h.failed == old(h.failed) + errs
    ensures h.tape == Drop(old(h.tape), 2)
    ensures errs == Unless(Nth(old(h.tape), 0).ok, Systemctl(Stop)) + Unless(Nth(old(h.tape), 1).ok, Systemctl(Disable))
    ensures errs == [] ==>
      (h.w.sd.activity.Inactive? <==> (!old(h.w).sd.activity.Odd? || old(h.w).facts.stopClearsOdd))
    ensures errs == [] ==> !h.w.sd.activity.Active? && !h.w.sd.persistent
    ensures old(h.w).sd.activity.Inactive? ==> h.w.sd.activity.Inactive?
    ensures !old(h.w).sd.runtime ==> !h.w.sd.runtime
    ensures SystemctlOnly(errs)
  {
    errs := [];
    var ok := h.Do(Systemctl(Stop));
    if !ok { errs := errs + [Systemctl(Stop)]; }
    ok := h.Do(Systemctl(Disable));
    if !ok { errs := errs + [Systemctl(Disable)]; }
  }

  lemma FoldSnoc(w: World, steps: seq<Verb>, verb: Verb)
    ensures Fold(w, steps + [verb]) == Act(Fold(w, steps), w.facts, UnitSeen(w), w.At(Binary), verb, true, SMOOTH)
  {
    assert (steps + [verb])[..|steps|] == steps;
  }

  /** Systemd's state once an enablement list has run. */
  function Relinked(sd: Systemd, facts: Facts, word: string): Systemd {
    sd.(persistent := (word == "enabled"),
        runtime := (word == "enabled-runtime" || (sd.runtime && !facts.disableClearsRuntime)))
  }

  /** What the link changes do when they succeed. */
  lemma ActLinks(sd: Systemd, facts: Facts, unit: Option<Bytes>, binary: Option<Bytes>)
    ensures Act(sd, facts, unit, binary, Disable, true, SMOOTH) ==
            sd.(persistent := false, runtime := sd.runtime && !facts.disableClearsRuntime)
    ensures Act(sd, facts, unit, binary, Enable, true, SMOOTH) == sd.(persistent := true)
    ensures Act(sd, facts, unit, binary, EnableRuntime, true, SMOOTH) == sd.(runtime := true)
  {
  }

  lemma FoldEnable(w: World, steps: seq<Verb>, word: string)
    ensures Fold(w, steps + EnableSteps(word)) == Relinked(Fold(w, steps), w.facts, word)
  {
    hide Fold, Act, UnitSeen;
    ActLinks(Fold(w, steps), w.facts, UnitSeen(w), w.At(Binary));
    ActLinks(Fold(w, steps + [Disable]), w.facts, UnitSeen(w), w.At(Binary));
    FoldSnoc(w, steps, Disable);
    FoldSnoc(w, steps + [Disable], Enable);
    FoldSnoc(w, steps + [Disable], EnableRuntime);
    assert steps + [Disable, Enable] == steps + [Disable] + [Enable];
    assert steps + [Disable, EnableRuntime] == steps + [Disable] + [EnableRuntime];
  }

  lemma FoldEnableAlone(w: World, word: string)
    ensures Fold(w, EnableSteps(word)) == Relinked(w.sd, w.facts, word)
  {
    FoldEnable(w, [], word);
    assert [] + EnableSteps(word) == EnableSteps(word);
  }

  /** Equal everywhere outside `touched`. */
  ghost predicate SameOutside(files: map<File, Bytes>, files': map<File, Bytes>, touched: set<File>) {
    forall f :: f !in touched ==> Lookup(files', f) == Lookup(files, f)
  }

  /** The files after a rollback in which the steps `errs` failed. */
  ghost predicate FilesBack(files: map<File, Bytes>, files': map<File, Bytes>, s: Saved, errs: seq<Op>) {
    var copied, written := Copy(Preinstall, Binary) !in errs, Write(Unit, s.oldUnit) !in errs;
    && Lookup(files', Preinstall) == None
    && SameOutside(files, files', {Unit, Binary, Preinstall, New(Binary)})
    && (if s.hasUnit then Lookup(files', Unit) == (if written then Some(s.oldUnit) else Lookup(files, Unit))
        else Lookup(files', Unit) == None)
    && (if s.hasBinary then Lookup(files', Binary) == Lookup(files, if copied then Preinstall else Binary)
        else Lookup(files', Binary) == None)
  }

  function BinaryStep(hasBinary: bool): Op { if hasBinary then Copy(Preinstall, Binary) else Remove(Binary) }

  function UnitStep(s: Saved): Op { if s.hasUnit then Write(Unit, s.oldUnit) else Remove(Unit) }

  function ActivitySteps(active: string): seq<Op> {
    (if active == "active" then [Systemctl(ResetFailed)] else []) + [Systemctl(ActiveStep(active))]
  }

  /** The enablement calls of a rollback; `cut` says that the first of two failed. */
  function LinkOps(s: Saved, cut: bool): seq<Op> {
    if s.hasUnit then Ops(if cut then [Disable] else EnableSteps(s.enabled)) else []
  }

  function FileOps(s: Saved): seq<Op> { [BinaryStep(s.hasBinary), Remove(Preinstall), UnitStep(s)] }

  function StateOps(s: Saved, cut: bool): seq<Op> {
    [Systemctl(DaemonReload)] + LinkOps(s, cut) + if s.hasUnit then ActivitySteps(s.active) else []
  }

  /** Everything a rollback attempts. */
  function RestoreOps(s: Saved, cut: bool): seq<Op> {
    [Systemctl(Stop), Systemctl(Disable)] + FileOps(s) + StateOps(s, cut)
  }

  /** The steps that fail in a rollback to no unit, as the tape has it; `aside` says that there is
      a copy of the binary. */
  function FreshErrs(tape: seq<Outcome>, hasBinary: bool, aside: bool): seq<Op> {
    Unless(Nth(tape, 0).ok, Systemctl(Stop)) + Unless(Nth(tape, 1).ok, Systemctl(Disable)) +
    Unless(!hasBinary || (Nth(tape, 2).ok && aside), Copy(Preinstall, Binary)) +
    Unless(Nth(tape, 5).ok, Systemctl(DaemonReload))
  }

  method RestoreBinary(h: Host, hasBinary: bool) returns (errs: seq<Op>)
    modifies h`w, h`tape, h`done, h`failed, h`kept
    ensures h.w == old(h.w).(files := h.w.files)
    ensures h.done == old(h.done) + [BinaryStep(hasBinary), Remove(Preinstall)] && h.failed == old(h.failed) + errs
    ensures h.tape == Drop(old(h.tape), 2)
    ensures errs ==
      Unless(!hasBinary || (Next(old(h.tape)).ok && Preinstall in old(h.w).files), Copy(Preinstall, Binary))
    ensures SameOutside(old(h.w).files, h.w.files, {Binary, Preinstall, New(Binary)})
    ensures h.w.At(Preinstall) == None
    ensures if !hasBinary then h.w.At(Binary) == None
            else h.w.At(Binary) == old(h.w).At(if errs == [] then Preinstall else Binary)
  {
    errs := [];
    if hasBinary {
      var ok := h.Do(Copy(Preinstall, Binary));
      if !ok { errs := [Copy(Preinstall, Binary)]; }
    } else {
      var _ := h.Do(Remove(Binary));
    }
    var _ := h.Do(Remove(Preinstall));
  }

  method RestoreUnit(h: Host, s: Saved) returns (errs: seq<Op>)
    modifies h`w, h`tape, h`done, h`failed, h`kept
    ensures h.w == old(h.w).(files := h.w.files)
    ensures h.done == old(h.done) + [UnitStep(s)] && h.failed == old(h.failed) + errs
    ensures h.tape == Rest(old(h.tape))
    ensures errs == Unless(!s.hasUnit || Next(old(h.tape)).ok, UnitStep(s))
    ensures SameOutside(old(h.w).files, h.w.files, {Unit})
    ensures h.w.At(Unit) == if errs != [] then old(h.w).At(Unit) else if s.hasUnit then Some(s.oldUnit) else None
  {
    errs := [];
    if s.hasUnit {
      var ok := h.Do(Write(Unit, s.oldUnit));
      if !ok { errs := [Write(Unit, s.oldUnit)]; }
    } else {
      var _ := h.Do(Remove(Unit));
    }
  }

  lemma EnableShape(word: string)
    ensures EnableSteps(word) != [] && Restart !in EnableSteps(word)
    ensures word != "enabled-runtime" ==> EnableRuntime !in EnableSteps(word)
    ensures forall ran :: 0 < ran <= |EnableSteps(word)| ==>
      EnableSteps(word)[..ran] == if ran < |EnableSteps(word)| then [Disable] else EnableSteps(word)
  {
  }

  method RestoreEnablement(h: Host, s: Saved) returns (errs: seq<Op>, ghost cut: bool)
    modifies h`w, h`tape, h`done, h`failed, h`kept
    ensures h.w == old(h.w).(sd := h.w.sd)
    ensures h.done == old(h.done) + ([Systemctl(DaemonReload)] + LinkOps(s, cut)) && h.failed == old(h.failed) + errs
    ensures cut ==> Systemctl(Disable) in errs
    ensures SystemctlOnly(errs)
    ensures !s.hasUnit ==> errs == Unless(Next(old(h.tape)).ok, Systemctl(DaemonReload))
    ensures errs == [] ==> h.w.sd.loaded == UnitSeen(h.w)
    ensures errs == [] && s.hasUnit ==> h.w.sd.persistent == (s.enabled == "enabled")
    ensures errs == [] && s.hasUnit && s.enabled == "enabled-runtime" ==> h.w.sd.runtime
    ensures s.enabled != "enabled-runtime" && !old(h.w).sd.runtime ==> !h.w.sd.runtime
    ensures errs == [] ==> h.w.sd.activity == old(h.w).sd.activity
    ensures !s.hasUnit ==> h.w.sd == old(h.w).sd.(loaded := h.w.sd.loaded)
    ensures old(h.w).sd.activity.Inactive? ==> h.w.sd.activity.Inactive?
  {
    hide Ran, Fold, EnableSteps, Ops;
    errs, cut := [], false;
    var ok := h.Do(Systemctl(DaemonReload));
    if !ok { errs := [Systemctl(DaemonReload)]; }
    if s.hasUnit {
      FoldEnableAlone(h.w, s.enabled);
      ghost var ran;
      var stuck;
      var steps := EnableSteps(s.enabled);
      EnableShape(s.enabled);
      stuck, ran := RunSteps(h, steps);
      cut := ran < |steps|;
      assert steps[..ran] == if cut then [Disable] else steps;
      if stuck.Some? { errs := errs + [Systemctl(stuck.value)]; }
    }
  }

  method RestoreActivity(h: Host, active: string) returns (errs: seq<Op>)
    modifies h`w, h`tape, h`done, h`failed, h`kept
    ensures h.w == old(h.w).(sd := old(h.w).sd.(activity := h.w.sd.activity))
    ensures h.done == old(h.done) + ActivitySteps(active) && h.failed == old(h.failed) + errs
    ensures SystemctlOnly(errs)
    ensures errs == [] && active == "active" ==>
      && h.w.sd.loaded.Some? && Binary in h.w.files
      && h.w.sd.activity == Active(Exec(h.w.files[Binary], h.w.sd.loaded.value))
    ensures active != "active" && old(h.w).sd.activity.Inactive? ==> h.w.sd.activity.Inactive?
  {
    errs := [];
    if active == "active" {
      var ok := h.Do(Systemctl(ResetFailed));
      if !ok { errs := [Systemctl(ResetFailed)]; }
    }
    var ok := h.Do(Systemctl(ActiveStep(active)));
    if !ok { errs := errs + [Systemctl(ActiveStep(active))]; }
  }

  /** Systemd's state after a rollback with no failing step. */
  ghost predicate StateBack(w: World, w': World, s: Saved) {
    && w'.sd.loaded == UnitSeen(w')
    && (if s.hasUnit then
          && w'.sd.persistent == (s.enabled == "enabled")
          && (s.enabled == "enabled-runtime" ==> w'.sd.runtime)
          && (s.enabled != "enabled-runtime" && !w.sd.runtime ==> !w'.sd.runtime)
          && (if s.active == "active" then
                && w'.sd.loaded.Some? && Binary in w'.files
                && w'.sd.activity == Active(Exec(w'.files[Binary], w'.sd.loaded.value))
              else w.sd.activity.Inactive? ==> w'.sd.activity.Inactive?)
        else
          && !w'.sd.activity.Active?
          && !w'.sd.persistent && (!w.sd.runtime ==> !w'.sd.runtime)
          && (w'.sd.activity.Inactive? <==> (!w.sd.activity.Odd? || w.facts.stopClearsOdd)))
  }

  /** The binary, and then the unit. */
  method RestoreFiles(h: Host, s: Saved) returns (errs: seq<Op>)
    modifies h`w, h`tape, h`done, h`failed, h`kept
    ensures h.w == old(h.w).(files := h.w.files)
    ensures h.done == old(h.done) + FileOps(s) && h.failed == old(h.failed) + errs
    ensures h.tape == Drop(old(h.tape), 3)
    ensures FilesBack(old(h.w).files, h.w.files, s, errs)
    ensures !s.hasUnit ==>
      errs == Unless(!s.hasBinary || (Next(old(h.tape)).ok && Preinstall in old(h.w).files), Copy(Preinstall, Binary))
  {
    errs := RestoreBinary(h, s.hasBinary);
    RestDrop(old(h.tape), 2);
    var more := RestoreUnit(h, s);
    errs := errs + more;
  }

  /** Systemd's state once enablement and activity have been put back without a failure. */
  ghost predicate StateRestored(w: World, w': World, s: Saved) {
    && w'.sd.loaded == UnitSeen(w')
    && (if s.hasUnit then
          && w'.sd.persistent == (s.enabled == "enabled")
          && (s.enabled == "enabled-runtime" ==> w'.sd.runtime)
          && (s.active == "active" ==>
                && w'.sd.loaded.Some? && Binary in w'.files
                && w'.sd.activity == Active(Exec(w'.files[Binary], w'.sd.loaded.value)))
        else w'.sd == w.sd.(loaded := w'.sd.loaded))
  }

  /** Enablement, and then activity. */
  method RestoreState(h: Host, s: Saved) returns (errs: seq<Op>, ghost cut: bool)
    modifies h`w, h`tape, h`done, h`failed, h`kept
    ensures h.w == old(h.w).(sd := h.w.sd)
    ensures h.done == old(h.done) + StateOps(s, cut) && h.failed == old(h.failed) + errs
    ensures cut ==> Systemctl(Disable) in errs
    ensures SystemctlOnly(errs)
    ensures !s.hasUnit ==> errs == Unless(Next(old(h.tape)).ok, Systemctl(DaemonReload))
    ensures errs == [] ==> StateRestored(old(h.w), h.w, s)
    ensures s.enabled != "enabled-runtime" && !old(h.w).sd.runtime ==> !h.w.sd.runtime
    ensures s.active != "active" && old(h.w).sd.activity.Inactive? ==> h.w.sd.activity.Inactive?
  {
    hide LinkOps, ActivitySteps;
    errs, cut := RestoreEnablement(h, s);
    if s.hasUnit {
      var more := RestoreActivity(h, s.active);
      errs := errs + more;
    }
  }

  lemma FilesBackAmid(files: map<File, Bytes>, files': map<File, Bytes>, s: Saved,
                      before: seq<Op>, errs: seq<Op>, after: seq<Op>)
    requires FilesBack(files, files', s, errs) && SystemctlOnly(before) && SystemctlOnly(after)
    ensures FilesBack(files, files', s, before + errs + after)
  {
  }

  lemma StateIsBack(w: World, w1: World, w2: World, w': World, s: Saved)
    requires w1 == w.(sd := w1.sd) && w2 == w1.(files := w2.files) && w' == w2.(sd := w'.sd)
    requires w1.sd.activity.Inactive? <==> (!w.sd.activity.Odd? || w.facts.stopClearsOdd)
    requires w.sd.activity.Inactive? ==> w1.sd.activity.Inactive?
    requires !w1.sd.activity.Active? && !w1.sd.persistent && (!w.sd.runtime ==> !w1.sd.runtime)
    requires StateRestored(w2, w', s)
    requires s.enabled != "enabled-runtime" && !w2.sd.runtime ==> !w'.sd.runtime
    requires s.active != "active" && w2.sd.activity.Inactive? ==> w'.sd.activity.Inactive?
    ensures StateBack(w, w', s)
  {
  }

  lemma Associates<T>(a: seq<T>, b: seq<T>, c: seq<T>, d: seq<T>)
    ensures a + b + c + d == a + (b + c + d)
  {
  }

  /** Puts back what was recorded.  Every step is attempted even after an earlier one failed, except
      that a failing disable ends the enablement list; `errs` are exactly the steps that failed. */
  method Restore(h: Host, s: Saved) returns (errs: seq<Op>, ghost cut: bool)
    modifies h`w, h`tape, h`done, h`failed, h`kept
    ensures h.w == old(h.w).(files := h.w.files, sd := h.w.sd)
    ensures h.done == old(h.done) + RestoreOps(s, cut) && h.failed == old(h.failed) + errs
    ensures cut ==> Systemctl(Disable) in errs
    ensures !s.hasUnit ==> errs == FreshErrs(old(h.tape), s.hasBinary, Preinstall in old(h.w).files)
    ensures FilesBack(old(h.w).files, h.w.files, s, errs)
    ensures errs == [] ==> StateBack(old(h.w), h.w, s)
  {
    hide FilesBack, FileOps, StateOps, StateRestored, StateBack, SystemctlOnly, UnitSeen;
    var before := Neutralize(h);
    ghost var w1 := h.w;
    var files := RestoreFiles(h, s);
    ghost var w2 := h.w;
    var after;
    after, cut := RestoreState(h, s);
    errs := before + files + after;
    FilesBackAmid(old(h.w).files, h.w.files, s, before, files, after);
    Associates(old(h.done), [Systemctl(Stop), Systemctl(Disable)], FileOps(s), StateOps(s, cut));
    Associates(old(h.failed), before, files, after);
    DropDrop(old(h.tape), 2, 3);
    if errs == [] {
      StateIsBack(old(h.w), w1, w2, h.w, s);
    }
  }

  function ReloadSteps(unitChanged: bool): seq<Verb> {
    if unitChanged then [DaemonReload] else []
  }

  function LinkSteps(s: Saved): seq<Verb> {
    if s.hasUnit then EnableSteps(s.enabled) else [Enable]
  }

  /** A start is preceded by reset-failed. */
  function StartSteps(s: Saved): seq<Verb> {
    if s.hasUnit && s.active != "active" then [Stop] else [ResetFailed, Restart]
  }

  /** The systemctl calls of the forward path. */
  function ForwardSteps(s: Saved, unitChanged: bool): seq<Verb> {
    ReloadSteps(unitChanged) + LinkSteps(s) + StartSteps(s)
  }

  function Reloaded(w: World, unitChanged: bool): Systemd {
    if unitChanged then w.sd.(loaded := UnitSeen(w)) else w.sd
  }

  lemma FoldReload(w: World, unitChanged: bool)
    ensures Fold(w, ReloadSteps(unitChanged)) == Reloaded(w, unitChanged)
  {
    hide Act, UnitSeen;
    if unitChanged {
      FoldOne(w, DaemonReload);
      ActReload(w);
    }
  }

  lemma FoldOne(w: World, verb: Verb)
    ensures Fold(w, [verb]) == Act(w.sd, w.facts, UnitSeen(w), w.At(Binary), verb, true, SMOOTH)
  {
    hide Act;
    assert [verb][..0] == [];
  }

  lemma ActReload(w: World)
    ensures Act(w.sd, w.facts, UnitSeen(w), w.At(Binary), DaemonReload, true, SMOOTH) == w.sd.(loaded := UnitSeen(w))
  {
  }

  lemma FoldLink(w: World, s: Saved, steps: seq<Verb>)
    ensures Fold(w, steps + LinkSteps(s)) ==
      if s.hasUnit then Relinked(Fold(w, steps), w.facts, s.enabled) else Fold(w, steps).(persistent := true)
  {
    hide Fold, Act, UnitSeen, Relinked, EnableSteps;
    ActLinks(Fold(w, steps), w.facts, UnitSeen(w), w.At(Binary));
    FoldEnable(w, steps, s.enabled);
    FoldSnoc(w, steps, Enable);
  }

  lemma FoldStart(w: World, s: Saved, steps: seq<Verb>)
    ensures var sd, sd' := Fold(w, steps), Fold(w, steps + StartSteps(s));
      && sd' == sd.(activity := sd'.activity)
      && (s.hasUnit && s.active != "active" && sd.activity.Inactive? ==> sd'.activity.Inactive?)
      && ((!s.hasUnit || s.active == "active") && sd'.activity.Active?
          ==> sd.loaded.Some? && Binary in w.files && sd'.activity.exec == Exec(w.files[Binary], sd.loaded.value))
  {
    hide Fold;
    FoldSnoc(w, steps, Stop);
    FoldSnoc(w, steps, ResetFailed);
    FoldSnoc(w, steps + [ResetFailed], Restart);
    assert steps + [ResetFailed, Restart] == steps + [ResetFailed] + [Restart];
  }

  /** What the forward path amounts to when all of it succeeds. */
  lemma FoldForward(w: World, s: Saved, unitChanged: bool)
    ensures var sd' := Fold(w, ForwardSteps(s, unitChanged));
      && sd'.loaded == Reloaded(w, unitChanged).loaded
      && sd'.persistent == (!s.hasUnit || s.enabled == "enabled")
      && (s.hasUnit && s.enabled == "enabled-runtime" ==> sd'.runtime)
      && (s.hasUnit && s.enabled == "disabled" && !w.sd.runtime ==> !sd'.runtime)
      && (s.hasUnit && s.active != "active" && w.sd.activity.Inactive? ==> sd'.activity.Inactive?)
      && ((!s.hasUnit || s.active == "active") && sd'.activity.Active?
          ==> sd'.loaded.Some? && Binary in w.files && sd'.activity.exec == Exec(w.files[Binary], sd'.loaded.value))
  {
    FoldReload(w, unitChanged);
    FoldLink(w, s, ReloadSteps(unitChanged));
    FoldStart(w, s, ReloadSteps(unitChanged) + LinkSteps(s));
  }

  lemma ForwardShape(s: Saved, unitChanged: bool)
    ensures var steps := ForwardSteps(s, unitChanged);
      && |steps| > 0
      && (forall i :: 0 <= i < |steps| - 1 ==> steps[i] != Restart)
      && (s.hasUnit && s.active != "active" ==> Restart !in steps)
      && (!(s.hasUnit && s.active != "active") ==> steps[|steps| - 1] == Restart)
      && ((s.hasUnit ==> s.enabled == "disabled") ==> EnableRuntime !in steps)
      && (!s.hasUnit ==> Enable in steps)
  {
  }

  /** When the systemctl calls of a publication all succeed: none fails on the tape, what is enabled is
      no unit in an odd state, and what is started is loaded, either already or by the reload. */
  predicate Finishes(w: World, tape: seq<Outcome>, s: Saved, unitChanged: bool) {
    && (forall i: nat :: i < |ForwardSteps(s, unitChanged)| ==> Nth(tape, i).ok)
    && (!s.hasUnit || s.enabled == "enabled" || s.enabled == "enabled-runtime" ==> w.facts.odd.None?)
    && (!s.hasUnit || s.active == "active" ==> Reloaded(w, unitChanged).loaded.Some?)
  }

  predicate Enables(steps: seq<Verb>) { Enable in steps || EnableRuntime in steps }

  lemma NthLater(tape: seq<Outcome>, i: nat)
    ensures Nth(Rest(tape), i) == Nth(tape, i + 1) && Nth(tape, 0) == Next(tape)
  {
    assert Drop(tape, 0) == tape;
    RestDrop(tape, 0);
    DropDrop(tape, 1, i);
  }

  /** Without a reload, whether a list finishes is decided by the tape, the unit-file state and what is
      loaded when it starts. */
  lemma {:induction false} RanFinishes(w: World, tape: seq<Outcome>, steps: seq<Verb>)
    requires DaemonReload !in steps && Unit in w.files && Binary in w.files
    ensures Ran(w, tape, steps).stuck.None? <==>
      && (forall i: nat :: i < |steps| ==> Nth(tape, i).ok)
      && (Enables(steps) ==> w.facts.odd.None?) && (Restart in steps ==> w.sd.loaded.Some?)
    decreases |steps|
  {
    hide Nth, Rest, Next;
    if steps == [] {
    } else {
      var next := After(w, Systemctl(steps[0]), Next(tape));
      assert steps == [steps[0]] + steps[1..];
      NthLater(tape, 0);
      RanFinishes(next, Rest(tape), steps[1..]);
      OkFrom(tape, |steps|);
    }
  }

  lemma OkFrom(tape: seq<Outcome>, n: nat)
    requires n > 0
    ensures (forall i: nat :: i < n ==> Nth(tape, i).ok) <==>
      Next(tape).ok && forall i: nat :: i < n - 1 ==> Nth(Rest(tape), i).ok
  {
    hide Nth, Rest, Next;
    NthLater(tape, 0);
    forall i: nat ensures Nth(Rest(tape), i) == Nth(tape, i + 1) {
      NthLater(tape, i);
    }
    if Next(tape).ok && forall i: nat :: i < n - 1 ==> Nth(Rest(tape), i).ok {
      forall i: nat | i < n ensures Nth(tape, i).ok {
        if i > 0 {
          assert Nth(Rest(tape), i - 1).ok;
        }
      }
    }
  }

  lemma ForwardFinishes(w: World, tape: seq<Outcome>, s: Saved, unitChanged: bool)
    requires Unit in w.files && Binary in w.files
    requires s.hasUnit ==> RestorableEnabled(s.enabled)
    ensures Ran(w, tape, ForwardSteps(s, unitChanged)).stuck.None? <==> Finishes(w, tape, s, unitChanged)
  {
    hide Nth, Ran, ForwardSteps, After, Act, Next, Rest;
    var steps := ForwardSteps(s, unitChanged);
    ForwardParts(s, unitChanged);
    if unitChanged {
      OkFrom(tape, |steps|);
      var next := RanOne(w, tape, steps);
      RanFinishes(next, Rest(tape), steps[1..]);
      ReloadIs(w, Next(tape));
    } else {
      RanFinishes(w, tape, steps);
    }
  }

  lemma ReloadIs(w: World, o: Outcome)
    ensures Succeeds(w, Systemctl(DaemonReload), o) == o.ok
    ensures o.ok ==> After(w, Systemctl(DaemonReload), o).sd.loaded == UnitSeen(w)
  {
  }

  /** What the forward path consists of; every start is preceded by reset-failed. */
  lemma ForwardParts(s: Saved, unitChanged: bool)
    ensures var steps := ForwardSteps(s, unitChanged);
      var later := if unitChanged then steps[1..] else steps;
      && |steps| > 0 && (unitChanged ==> steps[0] == DaemonReload) && DaemonReload !in later
      && (Enables(later) <==> !s.hasUnit || s.enabled == "enabled" || s.enabled == "enabled-runtime")
      && (Restart in later <==> !s.hasUnit || s.active == "active")
      && (forall i :: 0 <= i < |steps| && steps[i] == Restart ==> i > 0 && steps[i - 1] == ResetFailed)
  {
    var steps := ForwardSteps(s, unitChanged);
    assert (if unitChanged then steps[1..] else steps) == LinkSteps(s) + StartSteps(s);
  }

  /** What is recorded of a world. */
  function Record(w: World): Saved {
    if w.Readable(Unit)
    then Saved(true, w.files[Unit], Binary in w.files, w.EnabledWord(), w.ActiveWord())
    else Saved(false, "", Binary in w.files, "", "")
  }

  /** What is recorded can be put back. */
  predicate Records(s: Saved, w: World) {
    && s == Record(w)
    && (s.hasUnit ==> RestorableEnabled(s.enabled) && RestorableActive(s.active))
  }

  /** The next `n` queries are answered. */
  predicate Answers(tape: seq<Outcome>, n: nat) {
    forall i: nat :: i < n ==> Nth(tape, i).ok
  }

  /** The queries that a request costs: the unit's two words, if there is a unit that can be read, and the
      look at the data directory. */
  function Queries(w: World): nat { if w.Readable(Unit) then 3 else 1 }

  lemma AnswersFew(tape: seq<Outcome>)
    ensures Answers(tape, 0)
    ensures Answers(tape, 1) <==> Nth(tape, 0).ok
    ensures Answers(tape, 2) <==> Nth(tape, 0).ok && Nth(tape, 1).ok
    ensures Answers(tape, 3) <==> Nth(tape, 0).ok && Nth(tape, 1).ok && Nth(tape, 2).ok
  {
  }

  /** The installed unit, if any, is one the installer may replace. */
  predicate Acceptable(w: World, managed: Bytes -> bool) {
    w.Readable(Unit) ==>
      && managed(w.files[Unit])
      && w.EnabledWord() in {"enabled", "enabled-runtime", "disabled"}
      && w.ActiveWord() in {"active", "inactive"}
  }

  lemma DropNone(tape: seq<Outcome>)
    ensures Drop(tape, 0) == tape
  {
  }

  /** Reads the installed unit and binary; a foreign unit, a failing query or a prior state
      that systemctl could not recreate is a refusal. */
  method Survey(h: Host, managed: Bytes -> bool) returns (s: Option<Saved>)
    modifies h`tape
    ensures s.Some? ==> Records(s.value, h.w)
    ensures s.Some? && s.value.hasUnit ==> managed(s.value.oldUnit)
    ensures s.Some? <==> Acceptable(h.w, managed) && Answers(old(h.tape), Queries(h.w) - 1)
    ensures s.Some? ==> h.tape == Drop(old(h.tape), Queries(h.w) - 1)
    ensures !h.w.Readable(Unit) ==> s == Some(Record(h.w))
  {
    hide Nth, Drop, Answers;
    AnswersFew(h.tape);
    NextAhead(h.tape);
    DropNone(h.tape);
    var hasUnit := h.w.Readable(Unit);
    var oldUnit, enabled, active := "", "", "";
    if hasUnit {
      oldUnit := h.w.files[Unit];
      if !managed(oldUnit) { return None; }
      var ok := h.Query();
      enabled := h.w.EnabledWord();
      if !ok || !RestorableEnabled(enabled) { return None; }
      ok := h.Query();
      active := h.w.ActiveWord();
      if !ok || !RestorableActive(active) { return None; }
    }
    return Some(Saved(hasUnit, oldUnit, Binary in h.w.files, enabled, active));
  }

  /** What a copy of the requested executable puts in place, once the unit has been written. */
  function Incoming(w: World, req: Request): Option<Bytes> {
    if req.source == New(Binary) then (if req.source in w.files then Some("") else None)
    else if req.source == Unit then Some(req.unit)
    else w.At(req.source)
  }

  /** A unit file that may not be overwritten: one that is not the installer's own. */
  predicate Foreign(w: World, managed: Bytes -> bool) {
    Unit in w.files && !(w.Readable(Unit) && managed(w.files[Unit]))
  }

  /** The failing step that stopped a publication.  Refusing to overwrite a foreign unit is no
      step of the machine. */
  function Stopper(foreign: bool, stuck: Option<Op>): seq<Op> {
    if stuck.None? || foreign then [] else [stuck.value]
  }

  /** When the forward path on files finishes: neither step fails on the tape, and the executable is
      still there when the unit has been written. */
  predicate FilesFinish(w: World, tape: seq<Outcome>, req: Request) {
    && Nth(tape, 0).ok && Nth(tape, 1).ok
    && if req.source == Unit then !w.facts.unitUnreadable else req.source in w.files
  }

  function FilesOps(req: Request): seq<Op> { [Write(Unit, req.unit), Copy(req.source, Binary)] }

  /** The forward path on files; `stuck` is the step that failed. */
  method PublishFiles(h: Host, managed: Bytes -> bool, req: Request) returns (stuck: Option<Op>)
    modifies h`w, h`tape, h`done, h`failed, h`kept
    ensures h.w == old(h.w).(files := h.w.files)
    ensures SameOutside(old(h.w).files, h.w.files, {Unit, Binary, New(Binary)})
    ensures h.w.At(Binary) == if stuck.None? then Incoming(old(h.w), req) else old(h.w).At(Binary)
    ensures h.failed == old(h.failed) + Stopper(Foreign(old(h.w), managed), stuck)
    ensures Foreign(old(h.w), managed) ==> stuck == Some(Write(Unit, req.unit)) && h.tape == old(h.tape)
    ensures stuck.Some? ==> !stuck.value.Systemctl?
    ensures stuck.None? ==> h.w.At(Unit) == Some(req.unit) && Binary in h.w.files && h.w.At(New(Binary)) == None
    ensures stuck.None? && Unit in old(h.w).files ==> old(h.w).Readable(Unit)
    ensures stuck.None? <==> !Foreign(old(h.w), managed) && FilesFinish(old(h.w), old(h.tape), req)
    ensures stuck.None? ==> h.tape == Drop(old(h.tape), 2)
    ensures stuck.None? ==> h.done == old(h.done) + FilesOps(req)
  {
    hide SameOutside, Nth, Drop, After, Incoming;
    NextAhead(old(h.tape));
    if Unit in h.w.files && !(h.w.Readable(Unit) && managed(h.w.files[Unit])) {
      OutsideSame(h.w.files, {Unit, Binary, New(Binary)});
      return Some(Write(Unit, req.unit));
    }
    var ok := h.Do(Write(Unit, req.unit));
    Written(old(h.w), req.unit, Next(old(h.tape)));
    if !ok {
      OutsideSame(h.w.files, {Unit, Binary, New(Binary)});
      return Some(Write(Unit, req.unit));
    }
    ghost var o := Next(h.tape);
    ok := h.Do(Copy(req.source, Binary));
    Copied(old(h.w), req, o);
    return if ok then None else Some(Copy(req.source, Binary));
  }

  lemma OutsideSame(files: map<File, Bytes>, touched: set<File>)
    ensures SameOutside(files, files, touched)
  {
  }

  function UnitWritten(w: World, unit: Bytes): World { w.(files := w.files[Unit := unit]) }

  lemma Written(w: World, unit: Bytes, o: Outcome)
    ensures After(w, Write(Unit, unit), o) == if o.ok then UnitWritten(w, unit) else w
  {
  }

  /** The executable copied over the binary, the unit already written. */
  lemma Copied(w: World, req: Request, o: Outcome)
    ensures var w1, op := UnitWritten(w, req.unit), Copy(req.source, Binary);
      var w2 := After(w1, op, o);
      && w2 == w.(files := w2.files)
      && SameOutside(w.files, w2.files, {Unit, Binary, New(Binary)})
      && w2.At(Binary) == (if Succeeds(w1, op, o) then Incoming(w, req) else w.At(Binary))
      && w2.At(Unit) == Some(req.unit)
      && (Succeeds(w1, op, o) ==> Binary in w2.files && w2.At(New(Binary)) == None)
      && (Succeeds(w1, op, o) <==>
            o.ok && if req.source == Unit then !w.facts.unitUnreadable else req.source in w.files)
  {
  }

  /** What the systemctl calls of a publication may have done, whether or not they finished:
      nothing that the rollback cannot undo. */
  ghost predicate Undoable(sd: Systemd, sd': Systemd, s: Saved, stuck: Option<Op>) {
    && ((s.hasUnit ==> s.enabled == "disabled") && !sd.runtime ==> !sd'.runtime)
    && (s.hasUnit && s.active != "active" && sd.activity.Inactive? ==> sd'.activity.Inactive?)
    && (stuck.Some? && stuck != Some(Systemctl(Restart)) && sd.activity.Inactive? ==> sd'.activity.Inactive?)
  }

  /** A finished publication: a fresh service is enabled and running, an existing one has its
      prior words, and whatever runs was started from the files now in place. */
  ghost predicate Published(w: World, w': World, s: Saved, unitChanged: bool) {
    && w'.sd.loaded == (if unitChanged then UnitSeen(w') else w.sd.loaded)
    && w'.EnabledWord() == (if s.hasUnit then s.enabled else "enabled")
    && (if s.hasUnit && s.active != "active" then w'.sd.activity.Inactive?
        else
          && w'.sd.loaded.Some? && Binary in w'.files
          && w'.sd.activity == Active(Exec(w'.files[Binary], w'.sd.loaded.value)))
  }

  function StuckOp(stuck: Option<Verb>): Option<Op> {
    if stuck.Some? then Some(Systemctl(stuck.value)) else None
  }

  method PublishState(h: Host, s: Saved, unitChanged: bool) returns (stuck: Option<Op>)
    requires Unit in h.w.files
    requires s.hasUnit ==> RestorableEnabled(s.enabled) && h.w.facts.odd.None?
    requires s.hasUnit && s.enabled == "disabled" ==> !h.w.sd.runtime
    requires s.hasUnit && s.active != "active" ==> h.w.sd.activity.Inactive?
    modifies h`w, h`tape, h`done, h`failed, h`kept
    ensures h.w == old(h.w).(sd := h.w.sd)
    ensures Undoable(old(h.w).sd, h.w.sd, s, stuck)
    ensures h.failed == old(h.failed) + Stopper(false, stuck)
    ensures stuck.Some? ==> stuck.value.Systemctl?
    ensures stuck.None? ==> Published(old(h.w), h.w, s, unitChanged)
    ensures var halt := Ran(old(h.w), old(h.tape), ForwardSteps(s, unitChanged));
      (h.w, h.tape, stuck) == (halt.w, halt.tape, StuckOp(halt.stuck))
    ensures Binary in h.w.files ==> (stuck.None? <==> Finishes(old(h.w), old(h.tape), s, unitChanged))
    ensures stuck.None? ==> h.done == old(h.done) + Ops(ForwardSteps(s, unitChanged))
  {
    hide Ran, Fold, ForwardSteps, Ops, Finishes, Amounts, Undoable, Published;
    ForwardShape(s, unitChanged);
    if Binary in h.w.files {
      ForwardFinishes(h.w, h.tape, s, unitChanged);
    }
    var steps := ForwardSteps(s, unitChanged);
    assert steps[..|steps|] == steps;
    FoldForward(h.w, s, unitChanged);
    var verb;
    ghost var ran;
    verb, ran := RunSteps(h, ForwardSteps(s, unitChanged));
    ForwardAmounts(old(h.w), Halt(h.w, h.tape, verb), s, unitChanged);
    return StuckOp(verb);
  }

  lemma ForwardAmounts(w: World, halt: Halt, s: Saved, unitChanged: bool)
    requires Unit in w.files
    requires s.hasUnit ==> RestorableEnabled(s.enabled) && w.facts.odd.None?
    requires s.hasUnit && s.enabled == "disabled" ==> !w.sd.runtime
    requires s.hasUnit && s.active != "active" ==> w.sd.activity.Inactive?
    requires Amounts(w, ForwardSteps(s, unitChanged), halt)
    ensures halt.w == w.(sd := halt.w.sd) && Undoable(w.sd, halt.w.sd, s, StuckOp(halt.stuck))
    ensures halt.stuck.None? ==> Published(w, halt.w, s, unitChanged)
  {
    hide Fold, ForwardSteps;
    ForwardShape(s, unitChanged);
    FoldForward(w, s, unitChanged);
  }

  /** The files once the installed binary, if any, has been set aside. */
  function SetAside(w: World): map<File, Bytes> {
    if Binary in w.files then w.files[Preinstall := w.files[Binary]] - {New(Preinstall)} else w.files
  }

  /** Everything the prior unit implies is back: its bytes, both systemctl words, what systemd
      has loaded, and a running service was started from the prior binary and unit. */
  ghost predicate Reinstated(w: World, w': World) {
    && w'.At(Unit) == w.At(Unit)
    && w'.EnabledWord() == w.EnabledWord()
    && w'.ActiveWord() == w.ActiveWord()
    && w'.sd.loaded == w.At(Unit)
    && (w'.sd.activity.Active? ==>
          (w'.At(Binary), w'.At(Unit)) == (Some(w'.sd.activity.exec.binary), Some(w'.sd.activity.exec.unit)))
  }

  /** No unit was on record: none is left, on disk, in systemd or in its links, and nothing runs.
      The service ends inactive exactly if the state in which publication stopped was not an odd
      one, or stopping clears such a state; only a failed first start brings an odd state about. */
  ghost predicate Withdrawn(w: World, w': World, step: Op, stopped: Activity) {
    && w'.At(Unit) == None && w'.sd.loaded == None
    && !w'.sd.persistent && (!w.sd.runtime ==> !w'.sd.runtime)
    && !w'.sd.activity.Active?
    && (w'.sd.activity.Inactive? <==> (!stopped.Odd? || w.facts.stopClearsOdd))
    && (w.sd.activity.Inactive? && step != Systemctl(Restart) ==> stopped.Inactive?)
  }

  /** Files that a rolled-back install may leave different: the unit, when it could not be
      read, and temporaries. */
  const SCRATCH: set<File> := {Preinstall, New(Preinstall), New(Binary)}

  /** A failed transaction whose rollback had no failing step. */
  ghost predicate RolledBackTo(w: World, w': World, step: Op, stopped: Activity) {
    && w' == w.(files := w'.files, sd := w'.sd)
    && SameOutside(w.files, w'.files, SCRATCH + {Unit})
    && (if w.Readable(Unit) then Reinstated(w, w') else Withdrawn(w, w', step, stopped))
  }

  function BackupOps(hasBinary: bool): seq<Op> { if hasBinary then [Copy(Binary, Preinstall)] else [] }

  method Backup(h: Host, hasBinary: bool) returns (ok: bool)
    requires hasBinary == (Binary in h.w.files)
    modifies h`w, h`tape, h`done, h`failed, h`kept
    ensures ok ==> h.w == old(h.w).(files := SetAside(old(h.w)))
    ensures h.w == old(h.w).(files := h.w.files)
    ensures ok == (!hasBinary || Next(old(h.tape)).ok)
    ensures h.tape == Drop(old(h.tape), if hasBinary then 1 else 0)
    ensures h.failed == old(h.failed) + Unless(ok, Copy(Binary, Preinstall))
    ensures h.done == old(h.done) + BackupOps(hasBinary)
    ensures !ok ==> SameOutside(old(h.w).files, h.w.files, {New(Preinstall)})
  {
    ok := true;
    if hasBinary {
      ok := h.Do(Copy(Binary, Preinstall));
    }
  }

  /** Where a publication may stop.  The executable has been replaced exactly if it got as far as
      the systemctl calls. */
  ghost predicate Midway(w: World, w': World, req: Request, s: Saved, stuck: Option<Op>) {
    && w' == w.(files := w'.files, sd := w'.sd)
    && SameOutside(w.files, w'.files, {Unit, Binary, New(Binary)})
    && Undoable(w.sd, w'.sd, s, stuck)
    && w'.At(Binary) == (if stuck.None? || stuck.value.Systemctl? then Incoming(w, req) else w.At(Binary))
  }

  /** When a publication finishes: the unit may be written, and no step fails. */
  predicate Carries(w: World, tape: seq<Outcome>, managed: Bytes -> bool, req: Request, s: Saved, unitChanged: bool) {
    && !Foreign(w, managed) && FilesFinish(w, tape, req)
    && FinishesAfter(w, Drop(tape, 2), s, unitChanged)
  }

  /** The same as `Finishes`, of the world before the unit is written. */
  predicate FinishesAfter(w: World, tape: seq<Outcome>, s: Saved, unitChanged: bool) {
    && (forall i: nat :: i < |ForwardSteps(s, unitChanged)| ==> Nth(tape, i).ok)
    && (!s.hasUnit || s.enabled == "enabled" || s.enabled == "enabled-runtime" ==> w.facts.odd.None?)
    && (!s.hasUnit || s.active == "active" ==>
          if unitChanged then !w.facts.unitUnreadable else w.sd.loaded.Some?)
  }

  lemma FinishesThen(w: World, w1: World, tape: seq<Outcome>, s: Saved, unitChanged: bool)
    requires w1 == w.(files := w1.files) && Unit in w1.files
    ensures Finishes(w1, tape, s, unitChanged) == FinishesAfter(w, tape, s, unitChanged)
  {
    hide ForwardSteps, Nth;
  }

  lemma StartableFinishes(w: World, tape: seq<Outcome>, managed: Bytes -> bool, req: Request)
    requires Startable(w, tape, req)
    ensures !Foreign(w, managed) && FilesFinish(w, tape, req)
  {
    hide Nth;
  }

  function PublishOps(req: Request, s: Saved, unitChanged: bool): seq<Op> {
    FilesOps(req) + Ops(ForwardSteps(s, unitChanged))
  }

  method Publish(h: Host, managed: Bytes -> bool, req: Request, s: Saved, unitChanged: bool)
    returns (stuck: Option<Op>)
    requires Records(s, h.w)
    requires unitChanged == (!s.hasUnit || s.oldUnit != req.unit)
    modifies h`w, h`tape, h`done, h`failed, h`kept
    ensures Midway(old(h.w), h.w, req, s, stuck)
    ensures h.failed == old(h.failed) + Stopper(Foreign(old(h.w), managed), stuck)
    ensures stuck.None? ==>
      && (Unit in old(h.w).files ==> old(h.w).Readable(Unit))
      && h.w.At(Unit) == Some(req.unit)
      && Binary in h.w.files && h.w.At(Binary) == Incoming(old(h.w), req) && h.w.At(New(Binary)) == None
      && Published(old(h.w), h.w, s, unitChanged)
    ensures Foreign(old(h.w), managed) ==> stuck == Some(Write(Unit, req.unit)) && h.tape == old(h.tape)
    ensures stuck.None? <==> Carries(old(h.w), old(h.tape), managed, req, s, unitChanged)
    ensures stuck.None? ==> h.done == old(h.done) + PublishOps(req, s, unitChanged)
    ensures Startable(old(h.w), old(h.tape), req) ==>
      && h.tape == Drop(old(h.tape), 6)
      && if Nth(old(h.tape), 5).ok then stuck.None?
         else stuck == Some(Systemctl(Restart)) && h.w.sd.activity == Nth(old(h.tape), 5).left
  {
    hide Ran, ForwardSteps, Nth, Drop, Incoming, Finishes, FinishesAfter, Ops, FilesFinish, Foreign;
    hide Midway, Undoable, Published, SameOutside;
    if Startable(h.w, h.tape, req) {
      StartableFinishes(h.w, h.tape, managed, req);
    }
    stuck := PublishFiles(h, managed, req);
    ghost var w1 := h.w;
    if stuck.Some? {
      MidFiles(old(h.w), w1, req, s, stuck.value);
    } else {
      if Startable(old(h.w), old(h.tape), req) {
        FirstStart(h.w, old(h.tape), h.tape, s);
      }
      FinishesThen(old(h.w), h.w, h.tape, s, unitChanged);
      stuck := PublishState(h, s, unitChanged);
      MidState(old(h.w), w1, h.w, req, s, stuck, unitChanged);
    }
  }

  lemma MidFiles(w: World, w1: World, req: Request, s: Saved, step: Op)
    requires w1 == w.(files := w1.files) && SameOutside(w.files, w1.files, {Unit, Binary, New(Binary)})
    requires w1.At(Binary) == w.At(Binary) && !step.Systemctl?
    ensures Midway(w, w1, req, s, Some(step))
  {
  }

  lemma MidState(w: World, w1: World, w2: World, req: Request, s: Saved, stuck: Option<Op>, unitChanged: bool)
    requires w1 == w.(files := w1.files) && SameOutside(w.files, w1.files, {Unit, Binary, New(Binary)})
    requires w1.At(Binary) == Incoming(w, req) && w2 == w1.(sd := w2.sd)
    requires Undoable(w1.sd, w2.sd, s, stuck) && (stuck.Some? ==> stuck.value.Systemctl?)
    ensures Midway(w, w2, req, s, stuck)
    ensures Published(w1, w2, s, unitChanged) ==> Published(w, w2, s, unitChanged)
  {
    hide Incoming;
  }

  /** A fresh install of which every step succeeds up to the start of the service. */
  predicate Startable(w: World, tape: seq<Outcome>, req: Request) {
    && Unit !in w.files && !w.facts.unitUnreadable && w.facts.odd.None? && req.source in w.files
    && Nth(tape, 0).ok && Nth(tape, 1).ok && Nth(tape, 2).ok && Nth(tape, 3).ok && Nth(tape, 4).ok
  }

  lemma FirstStart(w: World, tape: seq<Outcome>, rest: seq<Outcome>, s: Saved)
    requires !s.hasUnit && w.Readable(Unit) && Binary in w.files && w.facts.odd.None? && rest == Drop(tape, 2)
    requires Nth(tape, 2).ok && Nth(tape, 3).ok && Nth(tape, 4).ok
    ensures var halt := Ran(w, rest, ForwardSteps(s, true));
      && halt.tape == Drop(tape, 6)
      && if Nth(tape, 5).ok then halt.stuck.None?
         else halt.stuck == Some(Restart) && halt.w.sd.activity == Nth(tape, 5).left
  {
    hide ForwardSteps, Ran, Drop;
    var steps := [DaemonReload, Enable, ResetFailed, Restart];
    assert ForwardSteps(s, true) == steps by { FreshSteps(s); }
    RestDrop(tape, 2);
    RestDrop(tape, 3);
    RestDrop(tape, 4);
    RestDrop(tape, 5);
    var w1 := RanOne(w, rest, steps);
    assert steps[1..] == [Enable, ResetFailed, Restart];
    var w2 := RanOne(w1, Drop(tape, 3), steps[1..]);
    assert steps[1..][1..] == [ResetFailed, Restart];
    var w3 := RanOne(w2, Drop(tape, 4), steps[1..][1..]);
    assert steps[1..][1..][1..] == [Restart];
    var w4 := RanOne(w3, Drop(tape, 5), steps[1..][1..][1..]);
    RanNone(w4, Drop(tape, 6));
    assert steps[1..][1..][1..][1..] == [];
  }

  lemma FreshSteps(s: Saved)
    requires !s.hasUnit
    ensures ForwardSteps(s, true) == [DaemonReload, Enable, ResetFailed, Restart]
  {
  }

  lemma RanNone(w: World, tape: seq<Outcome>)
    ensures Ran(w, tape, []) == Halt(w, tape, None)
  {
  }

  /** One step of a list. */
  lemma RanOne(w: World, tape: seq<Outcome>, steps: seq<Verb>) returns (next: World)
    requires steps != []
    ensures next == After(w, Systemctl(steps[0]), Next(tape)) && next == w.(sd := next.sd)
    ensures Ran(w, tape, steps) ==
      if Succeeds(w, Systemctl(steps[0]), Next(tape)) then Ran(next, Rest(tape), steps[1..])
      else Halt(next, Rest(tape), Some(steps[0]))
  {
    next := After(w, Systemctl(steps[0]), Next(tape));
  }

  lemma CleanRollback(w: World, w1: World, w2: World, req: Request, s: Saved, step: Op)
    requires Records(s, w)
    requires Midway(w.(files := SetAside(w)), w1, req, s, Some(step))
    requires w2 == w1.(files := w2.files, sd := w2.sd)
    requires FilesBack(w1.files, w2.files, s, []) && StateBack(w1, w2, s)
    ensures RolledBackTo(w, w2, step, w1.sd.activity)
  {
    assert w2.At(Unit) == if s.hasUnit then Some(s.oldUnit) else None;
    assert w2.At(Binary) == w.At(Binary);
    assert SameOutside(w.files, w2.files, SCRATCH + {Unit});
  }

  /** A failed transaction whose rollback failed too.  The copy that was set aside is gone in any
      case.  The prior binary is replaced for good exactly if it had been replaced when the
      transaction stopped and copying it back failed; the unit is as it was, or gone if there was
      none, unless writing it back failed. */
  ghost predicate LeftBroken(w: World, w': World, req: Request, step: Op, errs: seq<Op>) {
    && errs != []
    && w' == w.(files := w'.files, sd := w'.sd)
    && w'.At(Preinstall) == None
    && SameOutside(w.files, w'.files, SCRATCH + {Unit, Binary})
    && w'.At(Binary) ==
       (if BinaryStuck(w, step, errs) then Incoming(w.(files := SetAside(w)), req) else w.At(Binary))
    && (w.Readable(Unit) && Write(Unit, w.files[Unit]) !in errs ==> w'.At(Unit) == w.At(Unit))
    && (!w.Readable(Unit) ==> w'.At(Unit) == None)
  }

  predicate BinaryStuck(w: World, step: Op, errs: seq<Op>) {
    Copy(Preinstall, Binary) in errs && step.Systemctl? && Binary in w.files
  }

  lemma BrokenRollback(w: World, w1: World, w2: World, req: Request, s: Saved, step: Op, errs: seq<Op>)
    requires Records(s, w) && errs != []
    requires Midway(w.(files := SetAside(w)), w1, req, s, Some(step))
    requires w2 == w1.(files := w2.files, sd := w2.sd)
    requires FilesBack(w1.files, w2.files, s, errs)
    ensures LeftBroken(w, w2, req, step, errs)
  {
  }

  /** A failed rollback loses the prior binary if and only if the failure came after the executable
      had been replaced, copying it back failed, and the two differ. */
  lemma BinaryLost(w: World, w': World, req: Request, step: Op, errs: seq<Op>)
    requires LeftBroken(w, w', req, step, errs)
    ensures w'.At(Binary) != w.At(Binary) <==>
      BinaryStuck(w, step, errs) && Incoming(w.(files := SetAside(w)), req) != w.At(Binary)
  {
  }

  /** A finished transaction. */
  ghost predicate Committed(w: World, w': World, req: Request, s: Saved) {
    && w' == w.(files := w'.files, sd := w'.sd)
    && (Unit in w.files ==> w.Readable(Unit))
    && w'.At(Unit) == Some(req.unit)
    && w'.At(Binary) == Incoming(w.(files := SetAside(w)), req) && Binary in w'.files
    && w'.At(Preinstall) == None && w'.At(New(Binary)) == None
    && SameOutside(SetAside(w), w'.files, {Unit, Binary, Preinstall, New(Binary)})
    && Published(w, w', s, !s.hasUnit || s.oldUnit != req.unit)
  }

  lemma Commit(w: World, w1: World, w2: World, req: Request, s: Saved)
    requires Records(s, w)
    requires Midway(w.(files := SetAside(w)), w1, req, s, None)
    requires Unit in w.files ==> w.Readable(Unit)
    requires w1.At(Unit) == Some(req.unit) && w1.At(New(Binary)) == None
    requires w1.At(Binary) == Incoming(w.(files := SetAside(w)), req) && Binary in w1.files
    requires Published(w.(files := SetAside(w)), w1, s, !s.hasUnit || s.oldUnit != req.unit)
    requires w2 == w1.(files := w1.files - {Preinstall})
    ensures Committed(w, w2, req, s)
  {
    assert SameOutside(w1.files, w2.files, {Preinstall});
  }

  /** What each report of a transaction says about the machine; `stopped` is the activity in which
      publication stopped.  A failure to set the installed binary aside comes before anything that
      needs rolling back. */
  ghost predicate Explains(r: Report, w: World, w': World, req: Request, stopped: Activity) {
    match r
    case SetupFailed(_) => w' == w.(files := w'.files) && SameOutside(w.files, w'.files, {New(Preinstall)})
    case RolledBack(step) => RolledBackTo(w, w', step, stopped)
    case Incomplete(step, errs) => LeftBroken(w, w', req, step, errs)
    case Installed => Committed(w, w', req, Record(w))
    case _ => false
  }

  /** The steps that must have failed for a report: the one that stopped the install and, after it,
      exactly the ones reported of the rollback. */
  function Failures(r: Report, foreign: bool): seq<Op> {
    match r
    case SetupFailed(step) => [step]
    case RolledBack(step) => Stopper(foreign, Some(step))
    case Incomplete(step, errs) => Stopper(foreign, Some(step)) + errs
    case _ => []
  }

  predicate EndsWith(done: seq<Op>, last: seq<Op>) {
    |last| <= |done| && done[|done| - |last|..] == last
  }

  /** The same over an installed binary that is set aside first. */
  predicate StartableAside(w: World, tape: seq<Outcome>, req: Request) {
    Binary in w.files && req.source != New(Preinstall) && Next(tape).ok && Startable(w, Drop(tape, 1), req)
  }

  /** The report of a rollback. */
  function Concluded(step: Op, errs: seq<Op>): Report {
    if errs == [] then RolledBack(step) else Incomplete(step, errs)
  }

  /** What becomes of it, by the outcomes of the start and of the rollback. */
  function AfterFirstStart(tape: seq<Outcome>): Report {
    if Nth(tape, 6).ok then Installed else Concluded(Systemctl(Restart), FreshErrs(Drop(tape, 7), true, true))
  }

  /** What becomes of a unit that exists but cannot be read: publication stops at it, and it is
      rolled back as if it had not been there. */
  function AfterForeign(tape: seq<Outcome>, req: Request, hasBinary: bool): Report {
    Concluded(Write(Unit, req.unit), FreshErrs(tape, hasBinary, true))
  }

  lemma AsideOnlyIfBinary(tape: seq<Outcome>, hasBinary: bool, aside: bool)
    requires hasBinary ==> aside
    ensures FreshErrs(tape, hasBinary, aside) == FreshErrs(tape, hasBinary, true)
  {
  }

  /** The deferred rollback of a publication that stopped. */
  method RollBack(h: Host, req: Request, s: Saved, step: Op, ghost w: World) returns (errs: seq<Op>, ghost cut: bool)
    requires Records(s, w) && Midway(w.(files := SetAside(w)), h.w, req, s, Some(step))
    modifies h`w, h`tape, h`done, h`failed, h`kept
    ensures Explains(Concluded(step, errs), w, h.w, req, old(h.w).sd.activity)
    ensures h.failed == old(h.failed) + errs
    ensures EndsWith(h.done, RestoreOps(s, cut))
    ensures !s.hasUnit ==> errs == FreshErrs(old(h.tape), s.hasBinary, Preinstall in old(h.w).files)
  {
    hide Midway, FilesBack, StateBack, FreshErrs, RestoreOps, RolledBackTo, LeftBroken;
    errs, cut := Restore(h, s);
    if errs == [] {
      CleanRollback(w, old(h.w), h.w, req, s, step);
    } else {
      BrokenRollback(w, old(h.w), h.w, req, s, step, errs);
    }
  }

  lemma StillStartable(w: World, tape: seq<Outcome>, req: Request)
    requires StartableAside(w, tape, req)
    ensures Binary in w.files && Unit !in w.files && Next(tape).ok
    ensures Startable(w.(files := SetAside(w)), Drop(tape, 1), req)
    ensures Nth(Drop(tape, 1), 5) == Nth(tape, 6) && Drop(Drop(tape, 1), 6) == Drop(tape, 7)
  {
    DropDrop(tape, 1, 5);
    DropDrop(tape, 1, 6);
  }

  /** Setting the binary aside changes nothing that was recorded. */
  lemma AsideRecords(w: World, s: Saved, managed: Bytes -> bool)
    requires Records(s, w)
    ensures s == Record(w) && s.hasBinary == (Binary in w.files) && (Unit !in w.files ==> !s.hasUnit)
    ensures var aside := w.(files := SetAside(w));
      && Records(s, aside) && Foreign(aside, managed) == Foreign(w, managed)
      && (Unit in aside.files <==> Unit in w.files) && (aside.Readable(Unit) <==> w.Readable(Unit))
  {
  }

  lemma CopyStays(w: World, w1: World, req: Request, s: Saved, stuck: Option<Op>)
    requires Midway(w.(files := SetAside(w)), w1, req, s, stuck)
    ensures Binary in w.files ==> Preinstall in w1.files
  {
    assert Lookup(w1.files, Preinstall) == Lookup(SetAside(w), Preinstall);
  }

  /** The unit is new or changes. */
  predicate Differs(s: Saved, req: Request) { !s.hasUnit || s.oldUnit != req.unit }

  /** Publishes, and undoes what was done if that does not finish. */
  method PublishOrRollBack(h: Host, managed: Bytes -> bool, req: Request, s: Saved, ghost w: World)
    returns (r: Report, ghost stopped: Activity, ghost cut: bool)
    requires Records(s, w) && h.w == w.(files := SetAside(w))
    modifies h`w, h`tape, h`done, h`failed, h`kept
    ensures Explains(r, w, h.w, req, stopped)
    ensures r.RolledBack? || r.Incomplete? || r.Installed?
    ensures h.failed == old(h.failed) + Failures(r, Foreign(w, managed))
    ensures r.RolledBack? || r.Incomplete? ==> EndsWith(h.done, RestoreOps(s, cut))
    ensures r.Installed? <==> Carries(old(h.w), old(h.tape), managed, req, s, Differs(s, req))
    ensures r.Installed? ==> h.done == old(h.done) + PublishOps(req, s, Differs(s, req)) + [Remove(Preinstall)]
    ensures Foreign(w, managed) && !s.hasUnit ==> r == AfterForeign(old(h.tape), req, s.hasBinary)
    ensures Startable(old(h.w), old(h.tape), req) && Binary in w.files ==>
      if Nth(old(h.tape), 5).ok then r == Installed
      else r == Concluded(Systemctl(Restart), FreshErrs(Drop(old(h.tape), 6), true, true))
           && stopped == Nth(old(h.tape), 5).left
  {
    hide Midway, Published, FreshErrs, RestoreOps, EndsWith, Explains, Startable, Concluded, Failures, Stopper;
    hide SetAside, Incoming, Drop, Nth, Foreign, Records, Ran, Carries, PublishOps;
    cut := false;
    AsideRecords(w, s, managed);
    var stuck := Publish(h, managed, req, s, Differs(s, req));
    ghost var w1 := h.w;
    stopped := h.w.sd.activity;
    if stuck.Some? {
      CopyStays(w, w1, req, s, stuck);
      var errs;
      errs, cut := RollBack(h, req, s, stuck.value, w);
      AsideOnlyIfBinary(old(h.tape), s.hasBinary, Preinstall in w1.files);
      if Startable(old(h.w), old(h.tape), req) {
        AsideHasNoUnit(w, old(h.tape), req);
      }
      FailuresConcluded(old(h.failed), Foreign(w, managed), stuck.value, errs);
      return Concluded(stuck.value, errs), stopped, cut;
    }
    var _ := h.Do(Remove(Preinstall));
    Commit(w, w1, h.w, req, s);
    CommitExplains(w, h.w, req, s, stopped);
    NothingFailed(old(h.failed), Foreign(w, managed));
    return Installed, stopped, cut;
  }

  lemma FailuresConcluded(before: seq<Op>, foreign: bool, step: Op, errs: seq<Op>)
    ensures var r := Concluded(step, errs);
      && (r.RolledBack? || r.Incomplete?)
      && before + Stopper(foreign, Some(step)) + errs == before + Failures(r, foreign)
  {
    hide Stopper;
    assert before + Stopper(foreign, Some(step)) + errs == before + (Stopper(foreign, Some(step)) + errs);
    assert Stopper(foreign, Some(step)) + [] == Stopper(foreign, Some(step));
  }

  lemma NothingFailed(before: seq<Op>, foreign: bool)
    ensures before + Stopper(foreign, None) == before == before + Failures(Installed, foreign)
  {
  }

  lemma BackupFailed(foreign: bool)
    ensures var op := Copy(Binary, Preinstall);
      Unless(false, op) == Failures(SetupFailed(op), foreign) && Unless(true, op) == []
  {
  }

  lemma BackupExplains(w: World, w': World, req: Request, stopped: Activity)
    requires w' == w.(files := w'.files) && SameOutside(w.files, w'.files, {New(Preinstall)})
    ensures Explains(SetupFailed(Copy(Binary, Preinstall)), w, w', req, stopped)
  {
  }

  lemma CommitExplains(w: World, w': World, req: Request, s: Saved, stopped: Activity)
    requires s == Record(w) && Committed(w, w', req, s)
    ensures Explains(Installed, w, w', req, stopped)
  {
  }

  lemma AsideHasNoUnit(w: World, tape: seq<Outcome>, req: Request)
    requires Startable(w.(files := SetAside(w)), tape, req)
    ensures Unit !in w.files
  {
  }

  /** When a transaction finishes: none of its steps fails. */
  predicate Commits(w: World, tape: seq<Outcome>, managed: Bytes -> bool, req: Request, s: Saved) {
    && (s.hasBinary ==> Next(tape).ok)
    && Carries(w.(files := SetAside(w)), Drop(tape, if s.hasBinary then 1 else 0), managed, req, s, Differs(s, req))
  }

  /** The steps of one that does. */
  function CommitOps(req: Request, s: Saved): seq<Op> {
    BackupOps(s.hasBinary) + (PublishOps(req, s, Differs(s, req)) + [Remove(Preinstall)])
  }

  /** The transaction, with everything it undoes. */
  method Transaction(h: Host, managed: Bytes -> bool, req: Request, s: Saved)
    returns (r: Report, ghost stopped: Activity, ghost cut: bool)
    requires Records(s, h.w)
    modifies h`w, h`tape, h`done, h`failed, h`kept
    ensures r.SetupFailed? || r.RolledBack? || r.Incomplete? || r.Installed?
    ensures Explains(r, old(h.w), h.w, req, stopped)
    ensures h.failed == old(h.failed) + Failures(r, Foreign(old(h.w), managed))
    ensures r.RolledBack? || r.Incomplete? ==> EndsWith(h.done, RestoreOps(s, cut))
    ensures r.SetupFailed? <==> s.hasBinary && !Next(old(h.tape)).ok
    ensures r.SetupFailed? ==> r.step == Copy(Binary, Preinstall)
    ensures r.Installed? <==> Commits(old(h.w), old(h.tape), managed, req, s)
    ensures r.Installed? ==> h.done == old(h.done) + CommitOps(req, s)
    ensures Foreign(old(h.w), managed) && !s.hasUnit && (s.hasBinary ==> Next(old(h.tape)).ok) ==>
      r == AfterForeign(Drop(old(h.tape), if s.hasBinary then 1 else 0), req, s.hasBinary)
    ensures StartableAside(old(h.w), old(h.tape), req) ==>
      r == AfterFirstStart(old(h.tape)) && (r.Installed? || stopped == Nth(old(h.tape), 6).left)
  {
    hide FreshErrs, RestoreOps, EndsWith, Explains, StartableAside, Startable, Concluded, Incoming, Failures;
    hide Drop, Nth, Foreign, Records, SetAside, Unless, SameOutside, World.At, Carries, PublishOps;
    cut := false;
    AsideRecords(h.w, s, managed);
    if StartableAside(h.w, h.tape, req) {
      StillStartable(h.w, h.tape, req);
    }
    BackupFailed(Foreign(h.w, managed));
    var ok := Backup(h, s.hasBinary);
    if !ok {
      BackupExplains(old(h.w), h.w, req, h.w.sd.activity);
      return SetupFailed(Copy(Binary, Preinstall)), h.w.sd.activity, cut;
    }
    r, stopped, cut := PublishOrRollBack(h, managed, req, s, old(h.w));
    Associates(old(h.done), BackupOps(s.hasBinary), PublishOps(req, s, Differs(s, req)), [Remove(Preinstall)]);
  }

  /** Unit and binary already are as requested. */
  predicate InPlace(w: World, digest: Bytes -> string, req: Request) {
    && w.Readable(Unit) && w.files[Unit] == req.unit
    && Binary in w.files && w.Readable(req.source)
    && digest(w.files[Binary]) == digest(w.files[req.source])
  }

  /** The request is already in place, and so is the data directory. */
  predicate UpToDate(w: World, digest: Bytes -> string, req: Request) {
    InPlace(w, digest, req) && w.dataLeaf
  }

  /** The account and the data directory exist; these are not rolled back. */
  function Provisioned(w: World): World { w.(account := true, dataLeaf := true) }

  method Provision(h: Host) returns (stuck: Option<Op>)
    modifies h`w, h`tape, h`done, h`failed, h`kept
    ensures h.w == old(h.w).(account := h.w.account, dataLeaf := h.w.dataLeaf)
    ensures stuck.None? ==> h.w == Provisioned(old(h.w)) && h.tape == Drop(old(h.tape), 2)
    ensures stuck.None? <==> Nth(old(h.tape), 0).ok && Nth(old(h.tape), 1).ok
    ensures stuck.Some? ==> stuck.value == if Nth(old(h.tape), 0).ok then EstablishLeaf else EnsureAccount
    ensures stuck.None? ==> h.done == old(h.done) + [EnsureAccount, EstablishLeaf]
    ensures h.failed == old(h.failed) + Stopper(false, stuck)
  {
    var ok := h.Do(EnsureAccount);
    if !ok { return Some(EnsureAccount); }
    ok := h.Do(EstablishLeaf);
    return if ok then None else Some(EstablishLeaf);
  }

  /** What each report of the installer says about the machine. */
  ghost predicate Reports(r: Report, w: World, w': World, digest: Bytes -> string, req: Request, stopped: Activity) {
    match r
    case Refused => w' == w
    case NoOp => w' == w && UpToDate(w, digest, req)
    case Repaired => w' == Provisioned(w)
    case SetupFailed(_) => w'.sd == w.sd && SameOutside(w.files, w'.files, {New(Preinstall)})
    case _ => Explains(r, Provisioned(w), w', req, stopped)
  }

  /** A request that gets as far as a first start. */
  predicate FirstInstall(w: World, tape: seq<Outcome>, req: Request) {
    && req.preflight && Nth(tape, 0).ok && Nth(tape, 1).ok && Nth(tape, 2).ok
    && StartableAside(Provisioned(w), Drop(tape, 3), req)
  }

  /** A request that gets as far as a unit file which exists but cannot be read. */
  predicate UnitInTheWay(w: World, tape: seq<Outcome>, req: Request) {
    && Unit in w.files && w.facts.unitUnreadable
    && req.preflight && w.Readable(req.source) && Nth(tape, 0).ok && Nth(tape, 1).ok && Nth(tape, 2).ok
    && (Binary in w.files ==> Nth(tape, 3).ok)
  }

  /** How many outcomes it has used by then. */
  function ToUnit(w: World): nat { if Binary in w.files then 4 else 3 }

  lemma UnitGetsReached(w: World, tape: seq<Outcome>, req: Request)
    requires UnitInTheWay(w, tape, req)
    ensures Next(tape).ok && Rest(tape) == Drop(tape, 1) && Drop(Drop(tape, 1), 2) == Drop(tape, 3)
    ensures Nth(Drop(tape, 1), 0).ok && Nth(Drop(tape, 1), 1).ok
    ensures Binary in w.files ==> Next(Drop(tape, 3)).ok
    ensures Drop(Drop(tape, 3), if Binary in w.files then 1 else 0) == Drop(tape, ToUnit(w))
  {
    assert Drop(tape, 0) == tape;
    RestDrop(tape, 0);
    DropDrop(tape, 1, 0);
    DropDrop(tape, 1, 1);
    DropDrop(tape, 1, 2);
    DropDrop(tape, 3, 0);
    DropDrop(tape, 3, 1);
  }

  lemma StartGetsReached(w: World, tape: seq<Outcome>, req: Request)
    requires FirstInstall(w, tape, req)
    ensures Unit !in w.files && w.Readable(req.source) && Next(tape).ok && req.preflight
    ensures StartableAside(Provisioned(w), Drop(tape, 3), req)
    ensures Rest(tape) == Drop(tape, 1) && Drop(Drop(tape, 1), 2) == Drop(tape, 3)
    ensures Nth(Drop(tape, 1), 0).ok && Nth(Drop(tape, 1), 1).ok && Nth(Drop(tape, 3), 6) == Nth(tape, 9)
  {
    RestDrop(tape, 0);
    DropDrop(tape, 1, 0);
    DropDrop(tape, 1, 1);
    DropDrop(tape, 1, 2);
    DropDrop(tape, 3, 6);
  }

  /** A request that is not refused: the checks let it through, the executable can be read, what is
      installed may be replaced, and every query is answered. */
  predicate Granted(w: World, tape: seq<Outcome>, managed: Bytes -> bool, req: Request) {
    req.preflight && w.Readable(req.source) && Acceptable(w, managed) && Answers(tape, Queries(w))
  }

  lemma OneMoreAnswer(tape: seq<Outcome>, n: nat)
    ensures Answers(tape, n + 1) <==> Answers(tape, n) && Next(Drop(tape, n)).ok
    ensures Rest(Drop(tape, n)) == Drop(tape, n + 1)
  {
    RestDrop(tape, n);
    assert Nth(tape, n) == Next(Drop(tape, n));
    hide Nth;
    if Answers(tape, n) && Nth(tape, n).ok {
      forall i: nat | i < n + 1 ensures Nth(tape, i).ok {
        assert i < n || i == n;
      }
    }
  }

  /** Everything before the first change: an early report, or what was recorded. */
  method Inspect(h: Host, managed: Bytes -> bool, digest: Bytes -> string, req: Request)
    returns (early: Option<Report>, s: Saved, same: bool)
    modifies h`tape
    ensures early.Some? ==> early.value.Refused? || early.value.NoOp?
    ensures early == Some(Refused) <==> !Granted(h.w, old(h.tape), managed, req)
    ensures early == Some(NoOp) <==> Granted(h.w, old(h.tape), managed, req) && UpToDate(h.w, digest, req)
    ensures early.None? ==> Records(s, h.w) && same == InPlace(h.w, digest, req)
    ensures early.None? ==> h.tape == Drop(old(h.tape), Queries(h.w))
    ensures FirstInstall(h.w, old(h.tape), req) || UnitInTheWay(h.w, old(h.tape), req) ==>
      early.None? && !same && h.tape == Drop(old(h.tape), 1)
  {
    hide Startable, Nth, Drop, Answers;
    early, s, same := Some(Refused), Record(h.w), false;
    if !req.preflight { return; }
    OneMoreAnswer(h.tape, Queries(h.w) - 1);
    AnswersFew(h.tape);
    if FirstInstall(h.w, h.tape, req) {
      StartGetsReached(h.w, h.tape, req);
    }
    if UnitInTheWay(h.w, h.tape, req) {
      UnitGetsReached(h.w, h.tape, req);
    }
    var survey := Survey(h, managed);
    if survey.None? || !h.w.Readable(req.source) { return; }
    s := survey.value;
    var incoming := digest(h.w.files[req.source]);
    var binaryChanged := !s.hasBinary || incoming != digest(h.w.files[Binary]);
    var unitChanged := !s.hasUnit || s.oldUnit != req.unit;
    same := !unitChanged && !binaryChanged;
    var ok := h.Query();
    if ok {
      early := if same && h.w.dataLeaf then Some(NoOp) else None;
    }
  }

  /** The account and the data directory can be had. */
  predicate Provides(w: World, tape: seq<Outcome>) {
    Nth(Drop(tape, Queries(w)), 0).ok && Nth(Drop(tape, Queries(w)), 1).ok
  }

  /** The outcomes of the transaction. */
  function AfterSetup(w: World, tape: seq<Outcome>): seq<Outcome> { Drop(tape, Queries(w) + 2) }

  /** The installer, over every prior world and every combination of failing steps. */
  method InstallOptions(h: Host, managed: Bytes -> bool, digest: Bytes -> string, req: Request)
    returns (r: Report, ghost stopped: Activity, ghost cut: bool)
    modifies h`w, h`tape, h`done, h`failed, h`kept
    ensures Reports(r, old(h.w), h.w, digest, req, stopped)
    // The steps that failed are the one that stopped the install and exactly those of the rollback
    // that are reported; so a clean rollback is reported if and only if none of its steps failed.
    ensures h.failed == old(h.failed) + Failures(r, Foreign(old(h.w), managed))
    ensures r.RolledBack? || r.Incomplete? ==> EndsWith(h.done, RestoreOps(Record(old(h.w)), cut))
    // Which report it is, on the tape.
    ensures r.Refused? <==> !Granted(old(h.w), old(h.tape), managed, req)
    ensures r.NoOp? <==> Granted(old(h.w), old(h.tape), managed, req) && UpToDate(old(h.w), digest, req)
    ensures r.Repaired? <==>
      && Granted(old(h.w), old(h.tape), managed, req) && InPlace(old(h.w), digest, req) && !old(h.w).dataLeaf
      && Provides(old(h.w), old(h.tape))
    ensures r.Installed? <==>
      && Granted(old(h.w), old(h.tape), managed, req) && !InPlace(old(h.w), digest, req)
      && Provides(old(h.w), old(h.tape))
      && Commits(old(h.w), AfterSetup(old(h.w), old(h.tape)), managed, req, Record(old(h.w)))
    ensures r.SetupFailed? <==>
      && Granted(old(h.w), old(h.tape), managed, req) && !UpToDate(old(h.w), digest, req)
      && (!Provides(old(h.w), old(h.tape)) ||
          (!InPlace(old(h.w), digest, req) && Binary in old(h.w).files
           && !Next(AfterSetup(old(h.w), old(h.tape))).ok))
    // And no other step is taken.
    ensures r.Refused? || r.NoOp? ==> h.done == old(h.done)
    ensures r.Repaired? ==> h.done == old(h.done) + [EnsureAccount, EstablishLeaf]
    ensures r.Installed? ==> h.done == old(h.done) + [EnsureAccount, EstablishLeaf] + CommitOps(req, Record(old(h.w)))
    ensures FirstInstall(old(h.w), old(h.tape), req) ==>
      r == AfterFirstStart(Drop(old(h.tape), 3)) && (r.Installed? || stopped == Nth(old(h.tape), 9).left)
    ensures UnitInTheWay(old(h.w), old(h.tape), req) ==>
      && r == AfterForeign(Drop(old(h.tape), ToUnit(old(h.w))), req, Binary in old(h.w).files)
      && h.w.At(Unit) == None
  {
    hide EndsWith, RestoreOps, Explains, FreshErrs, Drop, Nth, Granted, Reports, Provisioned, FirstInstall;
    hide Commits, CommitOps, InPlace, Queries;
    hide AfterFirstStart, AfterForeign, StartableAside, UnitInTheWay, ToUnit, Acceptable, Foreign, Record;
    hide Stopper;
    cut, stopped := false, h.w.sd.activity;
    if FirstInstall(h.w, h.tape, req) {
      StartGetsReached(h.w, h.tape, req);
    }
    if UnitInTheWay(h.w, h.tape, req) {
      UnitGetsReached(h.w, h.tape, req);
      UnitIsForeign(h.w, h.tape, managed, req);
    }
    ghost var w := h.w;
    var early, s, same := Inspect(h, managed, digest, req);
    if early.Some? {
      EarlyReports(early.value, w, digest, req, stopped);
      return early.value, stopped, cut;
    }
    var stuck := Provision(h);
    ProvisionedRecords(w, s, managed);
    OneFailed(old(h.failed), stuck);
    if stuck.Some? {
      SetupReports(stuck.value, w, h.w, digest, req, stopped);
      return SetupFailed(stuck.value), stopped, cut;
    }
    if same {
      RepairReports(w, digest, req, stopped);
      return Repaired, stopped, cut;
    }
    DropDrop(old(h.tape), Queries(w), 2);
    CommitsSame(w, h.tape, managed, req, s);
    r, stopped, cut := Transaction(h, managed, req, s);
    TransactionReports(r, w, h.w, digest, req, stopped);
    if UnitInTheWay(w, old(h.tape), req) {
      UnitIsRemoved(r, w, h.w, old(h.tape), digest, req, stopped);
    }
  }

  lemma UnitIsForeign(w: World, tape: seq<Outcome>, managed: Bytes -> bool, req: Request)
    requires UnitInTheWay(w, tape, req)
    ensures Foreign(w, managed) && !Record(w).hasUnit && Record(w).hasBinary == (Binary in w.files)
  {
  }

  /** Whether or not the rollback is clean. */
  lemma UnitIsRemoved(r: Report, w: World, w': World, tape: seq<Outcome>, digest: Bytes -> string, req: Request,
                      stopped: Activity)
    requires UnitInTheWay(w, tape, req) && Reports(r, w, w', digest, req, stopped)
    requires r == AfterForeign(Drop(tape, ToUnit(w)), req, Binary in w.files)
    ensures w'.At(Unit) == None
  {
    hide FreshErrs;
  }

  lemma CommitsSame(w: World, tape: seq<Outcome>, managed: Bytes -> bool, req: Request, s: Saved)
    ensures Commits(Provisioned(w), tape, managed, req, s) == Commits(w, tape, managed, req, s)
  {
    hide Nth, ForwardSteps, Drop;
  }

  lemma OneFailed(before: seq<Op>, stuck: Option<Op>)
    ensures before + Stopper(false, stuck) == if stuck.None? then before else before + [stuck.value]
  {
  }

  lemma EarlyReports(r: Report, w: World, digest: Bytes -> string, req: Request, stopped: Activity)
    requires r.Refused? || (r.NoOp? && UpToDate(w, digest, req))
    ensures Reports(r, w, w, digest, req, stopped)
  {
  }

  lemma SetupReports(step: Op, w: World, w': World, digest: Bytes -> string, req: Request, stopped: Activity)
    requires w' == w.(account := w'.account, dataLeaf := w'.dataLeaf)
    ensures Reports(SetupFailed(step), w, w', digest, req, stopped)
  {
  }

  lemma RepairReports(w: World, digest: Bytes -> string, req: Request, stopped: Activity)
    ensures Reports(Repaired, w, Provisioned(w), digest, req, stopped)
  {
  }

  lemma TransactionReports(r: Report, w: World, w': World, digest: Bytes -> string, req: Request, stopped: Activity)
    requires r.SetupFailed? || r.RolledBack? || r.Incomplete? || r.Installed?
    requires Explains(r, Provisioned(w), w', req, stopped)
    ensures Reports(r, w, w', digest, req, stopped)
  {
  }

  lemma ProvisionedRecords(w: World, s: Saved, managed: Bytes -> bool)
    requires Records(s, w)
    ensures Records(s, Provisioned(w)) && s == Record(w) == Record(Provisioned(w))
    ensures s.hasBinary == (Binary in w.files)
    ensures Foreign(Provisioned(w), managed) == Foreign(w, managed)
  {
  }

  /** The requested executable is still where the request says once it has been installed. */
  predicate SourceStays(w: World, req: Request) {
    req.source !in SCRATCH || (req.source == New(Preinstall) && Binary !in w.files)
  }

  /** What an install needs of the machine besides being granted: a unit that exists can be read, one
      that does not is in no odd state, the executable does not lie where the copy of the old binary is
      written first, and a running service whose unit stays has it loaded. */
  predicate Installable(w: World, req: Request) {
    && !(Unit in w.files && w.facts.unitUnreadable)
    && (Unit !in w.files ==> !w.facts.unitUnreadable && w.facts.odd.None?)
    && !(req.source == New(Preinstall) && Binary in w.files)
    && (Unit in w.files && w.sd.activity.Active? && w.At(Unit) == Some(req.unit) ==> w.sd.loaded.Some?)
  }

  /** With no failing outcome, a request that is granted and not in place is installed exactly if the
      machine is fit for it, whatever the two words of an existing unit. */
  lemma SmoothInstall(w: World, tape: seq<Outcome>, managed: Bytes -> bool, req: Request)
    requires forall n: nat :: Nth(tape, n).ok
    requires Granted(w, tape, managed, req)
    ensures Provides(w, tape)
    ensures Commits(w, AfterSetup(w, tape), managed, req, Record(w)) <==> Installable(w, req)
  {
    hide Nth, ForwardSteps, Answers, Drop;
    forall m: nat, n: nat ensures Nth(Drop(tape, m), n).ok {
      NthDrop(tape, m, n);
    }
    var t := AfterSetup(w, tape);
    NextIsNth(t);
    var s, aside := Record(w), w.(files := SetAside(w));
    var u := Drop(t, if s.hasBinary then 1 else 0);
    DropDrop(tape, Queries(w) + 2, if s.hasBinary then 1 else 0);
    DropDrop(tape, Queries(w) + 2 + if s.hasBinary then 1 else 0, 2);
    assert forall n: nat :: Nth(u, n).ok && Nth(Drop(u, 2), n).ok;
    SourceAside(w, req);
    AsideFits(w, s, managed, req);
  }

  lemma SourceAside(w: World, req: Request)
    requires w.Readable(req.source)
    ensures req.source in SetAside(w) <==> !(req.source == New(Preinstall) && Binary in w.files)
  {
  }

  lemma AsideFits(w: World, s: Saved, managed: Bytes -> bool, req: Request)
    requires s == Record(w) && Acceptable(w, managed)
    ensures var aside := w.(files := SetAside(w));
      && (Foreign(aside, managed) <==> Unit in w.files && w.facts.unitUnreadable)
      && (s.hasUnit <==> Unit in w.files && !w.facts.unitUnreadable)
      && (s.hasUnit ==> w.facts.odd.None?)
      && (s.hasUnit ==> (s.active == "active" <==> w.sd.activity.Active?))
      && (Differs(s, req) <==> !s.hasUnit || w.At(Unit) != Some(req.unit))
  {
  }

  /** After a successful install the same request is up to date and acceptable, so that repeating it
      is a no-op, if and only if the unit it prints is one the installer reads back as its own and
      the executable is still there. */
  lemma RepeatIsNoOp(w: World, w': World, managed: Bytes -> bool, digest: Bytes -> string, req: Request)
    requires w.facts.unitUnreadable ==> Unit in w.files
    requires w.Readable(req.source) && Records(Record(w), w)
    requires Committed(Provisioned(w), w', req, Record(w))
    ensures UpToDate(w', digest, req) && Acceptable(w', managed) <==> managed(req.unit) && SourceStays(w, req)
  {
    hide Fold, Incoming;
    IncomingStays(Provisioned(w), w', req);
    assert w'.Readable(Unit) && w'.files[Unit] == req.unit && w'.dataLeaf;
    CommittedWords(Provisioned(w), w', req, Record(w));
  }

  lemma CommittedWords(w: World, w': World, req: Request, s: Saved)
    requires Records(s, w) && Committed(w, w', req, s)
    ensures RestorableEnabled(w'.EnabledWord()) && RestorableActive(w'.ActiveWord())
  {
  }

  lemma IncomingStays(w: World, w': World, req: Request)
    requires w.Readable(req.source) && w.dataLeaf && Committed(w, w', req, Record(w)) && w'.Readable(Unit)
    ensures SourceStays(w, req) ==> w'.Readable(req.source) && w'.At(req.source) == w'.At(Binary)
    ensures !SourceStays(w, req) ==> !w'.Readable(req.source)
  {
    assert Lookup(w'.files, req.source) == w'.At(req.source);
    assert req.source !in {Unit, Binary, Preinstall, New(Binary)} ==>
        w'.At(req.source) == Lookup(SetAside(w), req.source);
  }

  /** A clean rollback puts the unit file back exactly when it could be read: an existing unit
      the installer cannot read is taken for absent, and the rollback removes it. */
  lemma RollbackKeepsUnit(w: World, w': World, step: Op, stopped: Activity)
    requires RolledBackTo(w, w', step, stopped)
    ensures w'.At(Unit) == w.At(Unit) <==> !(Unit in w.files && w.facts.unitUnreadable)
    ensures w'.At(Binary) == w.At(Binary)
  {
  }

  /** The executable put in place is the requested one exactly when the request does not name
      a path that the install itself rewrites before reading it (or its content happens to
      agree).  In particular a request for the `.preinstall` copy reinstalls the old binary. */
  lemma SourceInstalled(w: World, req: Request)
    requires w.Readable(req.source)
    ensures Incoming(w.(files := SetAside(w)), req) == w.At(req.source) <==>
      match req.source
      case New(Binary) => w.files[req.source] == ""
      case Unit => w.files[req.source] == req.unit
      case Preinstall => Binary in w.files ==> w.files[Binary] == w.files[req.source]
      case New(Preinstall) => Binary !in w.files
      case _ => true
  {
  }

  // ------------------------------------------------------- installs that fail

  const ARTIFACT := Other("artifact")

  /** A machine with a binary and no unit. */
  const BARE := World(map[Binary := "old", ARTIFACT := "new"], Systemd(false, false, None, Inactive), true, true,
                      Facts(false, None, true, false))

  const REQUEST := Request("unit", ARTIFACT, true)

  /** A step that fails; a service it was to start is left failed. */
  const FAILING := Outcome(false, false, "", Odd("failed"), false, 0)

  /** Nine outcomes take a first install of `REQUEST` to the start of the service. */
  const TO_START: seq<Outcome> := seq(9, _ => SMOOTH)

  lemma NthDrop(tape: seq<Outcome>, m: nat, n: nat)
    ensures Nth(Drop(tape, m), n) == Nth(tape, m + n)
  {
    DropDrop(tape, m, n);
  }

  lemma ReachesStart(tape: seq<Outcome>)
    requires forall n: nat :: n < 9 ==> Nth(tape, n) == SMOOTH
    requires Nth(tape, 9) == FAILING
    ensures FirstInstall(BARE, tape, REQUEST)
  {
    hide Nth, Drop;
    var later := Drop(tape, 3);
    NthDrop(tape, 3, 0);
    assert Next(later) == Nth(later, 0) by { NextIsNth(later); }
    DropDrop(tape, 3, 1);
    NthDrop(tape, 4, 0);
    NthDrop(tape, 4, 1);
    NthDrop(tape, 4, 2);
    NthDrop(tape, 4, 3);
    NthDrop(tape, 4, 4);
    NthDrop(tape, 4, 5);
  }

  lemma NextIsNth(tape: seq<Outcome>)
    ensures Next(tape) == Nth(tape, 0)
  {
    assert Drop(tape, 0) == tape;
  }

  /** What happens after the start has failed is decided by the rest of the tape. */
  lemma DecidedByRest(rest: seq<Outcome>)
    ensures var tape := TO_START + [FAILING] + rest;
      && FirstInstall(BARE, tape, REQUEST) && Nth(tape, 9) == FAILING
      && AfterFirstStart(Drop(tape, 3)) == Concluded(Systemctl(Restart), FreshErrs(rest, true, true))
  {
    var tape := TO_START + [FAILING] + rest;
    assert forall n: nat :: n < 9 ==> Nth(tape, n) == SMOOTH;
    ReachesStart(tape);
    DropDrop(tape, 3, 7);
    assert Drop(tape, 10) == rest;
  }

  lemma BinaryIsGone(w: World, digest: Bytes -> string, stopped: Activity)
    requires Reports(Incomplete(Systemctl(Restart), [Copy(Preinstall, Binary)]), BARE, w, digest, REQUEST, stopped)
    ensures w.At(Binary) == Some("new")
    ensures forall f :: f !in SCRATCH ==> w.At(f) != Some("old")
  {
    assert Incoming(BARE.(files := SetAside(BARE)), REQUEST) == Some("new");
    assert w.At(Unit) == None;
    assert forall f :: f !in SCRATCH + {Unit, Binary} ==> w.At(f) == BARE.At(f);
  }

  lemma EndsOdd(w: World, digest: Bytes -> string)
    requires Reports(RolledBack(Systemctl(Restart)), BARE, w, digest, REQUEST, FAILING.left)
    ensures w.sd.activity.Odd?
  {
  }

  const COPY_FAILS: seq<Outcome> := [SMOOTH, SMOOTH, FAILING]

  lemma OnlyCopyFails()
    ensures FreshErrs(COPY_FAILS, true, true) == [Copy(Preinstall, Binary)] && FreshErrs([], true, true) == []
  {
    assert Nth(COPY_FAILS, 0).ok && Nth(COPY_FAILS, 1).ok && !Nth(COPY_FAILS, 2).ok && Nth(COPY_FAILS, 5).ok;
  }

  /** The old binary is lost: the first start fails, and so does copying the binary back; the copy
      is deleted all the same. */
  method LosesBinary(managed: Bytes -> bool, digest: Bytes -> string) returns (h: Host, r: Report)
    ensures r == Incomplete(Systemctl(Restart), [Copy(Preinstall, Binary)])
    ensures BARE.At(Binary) == Some("old") && h.w.At(Binary) == Some("new")
    ensures forall f :: f !in SCRATCH ==> h.w.At(f) != Some("old")
  {
    hide Reports, FirstInstall, AfterFirstStart, FreshErrs, Failures, Drop, Nth, Acceptable, UpToDate;
    DecidedByRest(COPY_FAILS);
    OnlyCopyFails();
    h := new Host(BARE, TO_START + [FAILING] + COPY_FAILS);
    ghost var stopped, cut;
    r, stopped, cut := InstallOptions(h, managed, digest, REQUEST);
    BinaryIsGone(h.w, digest, stopped);
  }

  /** The service ends failed although the rollback is clean: nothing resets the failed first start. */
  method StaysFailed(managed: Bytes -> bool, digest: Bytes -> string) returns (h: Host, r: Report)
    ensures r == RolledBack(Systemctl(Restart))
    ensures BARE.sd.activity.Inactive? && h.w.sd.activity.Odd?
  {
    hide Reports, FirstInstall, AfterFirstStart, FreshErrs, Failures, Drop, Nth, Acceptable, UpToDate;
    DecidedByRest([]);
    OnlyCopyFails();
    h := new Host(BARE, TO_START + [FAILING] + []);
    ghost var stopped, cut;
    r, stopped, cut := InstallOptions(h, managed, digest, REQUEST);
    EndsOdd(h.w, digest);
  }

  /** The same machine with a unit file that cannot be read. */
  const GUARDED := World(BARE.files[Unit := "custom"], BARE.sd, true, true, BARE.facts.(unitUnreadable := true))

  /** The same machine with an executable where the install puts its copy of the old one. */
  const STALE := World(BARE.files[Preinstall := "new"], BARE.sd, true, true, BARE.facts)

  const FROM_COPY := Request("unit", Preinstall, true)

  lemma AllSmooth()
    ensures forall n: nat :: Nth([], n) == SMOOTH && Drop([], n) == []
  {
  }

  lemma ReachesUnit()
    ensures UnitInTheWay(GUARDED, [], REQUEST)
    ensures AfterForeign(Drop([], ToUnit(GUARDED)), REQUEST, true) == RolledBack(Write(Unit, "unit"))
  {
    AllSmooth();
  }

  /** A clean rollback removes the unit file it could not read. */
  method LosesUnit(managed: Bytes -> bool, digest: Bytes -> string) returns (h: Host, r: Report)
    ensures r == RolledBack(Write(Unit, "unit"))
    ensures GUARDED.At(Unit) == Some("custom") && h.w.At(Unit) == None
  {
    hide Reports, FirstInstall, UnitInTheWay, AfterForeign, FreshErrs, Failures, Drop, Nth, Acceptable, UpToDate;
    ReachesUnit();
    h := new Host(GUARDED, []);
    ghost var stopped, cut;
    r, stopped, cut := InstallOptions(h, managed, digest, REQUEST);
  }

  lemma CopyGetsInstalled()
    ensures FirstInstall(STALE, [], FROM_COPY) && AfterFirstStart(Drop([], 3)) == Installed
  {
    AllSmooth();
  }

  lemma OldIsInstalled(w: World, digest: Bytes -> string, stopped: Activity)
    requires Reports(Installed, STALE, w, digest, FROM_COPY, stopped)
    ensures w.At(Binary) == Some("old")
  {
  }

  /** An install that finishes and reports success with the old binary in place. */
  method InstallsOld(managed: Bytes -> bool, digest: Bytes -> string) returns (h: Host, r: Report)
    ensures r == Installed
    ensures STALE.At(FROM_COPY.source) == Some("new") && STALE.At(Binary) == h.w.At(Binary) == Some("old")
  {
    hide Reports, FirstInstall, AfterFirstStart, FreshErrs, Failures, Drop, Nth, Acceptable, UpToDate;
    CopyGetsInstalled();
    h := new Host(STALE, []);
    ghost var stopped, cut;
    r, stopped, cut := InstallOptions(h, managed, digest, FROM_COPY);
    OldIsInstalled(h.w, digest, stopped);
  }

  /** A managed service that is enabled and running, and a newer executable. */
  const RUNNING := World(map[Unit := "unit", Binary := "old", ARTIFACT := "new"],
                         Systemd(true, false, Some("unit"), Active(Exec("old", "unit"))), true, true, BARE.facts)

  lemma UpgradeIsGranted(managed: Bytes -> bool, digest: Bytes -> string)
    requires managed("unit") && digest("old") != digest("new")
    ensures Granted(RUNNING, [], managed, REQUEST) && !InPlace(RUNNING, digest, REQUEST)
    ensures Installable(RUNNING, REQUEST) && forall n: nat :: Nth([], n).ok
  {
    AllSmooth();
    assert RUNNING.EnabledWord() == "enabled" && RUNNING.ActiveWord() == "active";
  }

  lemma UpgradeRuns(w: World, digest: Bytes -> string, stopped: Activity)
    requires Reports(Installed, RUNNING, w, digest, REQUEST, stopped)
    ensures w.At(Binary) == Some("new") && w.sd.activity == Active(Exec("new", "unit"))
    ensures w.EnabledWord() == "enabled"
  {
  }

  /** An upgrade: the new executable runs under the unit that was there. */
  method Upgrades(managed: Bytes -> bool, digest: Bytes -> string) returns (h: Host, r: Report)
    requires managed("unit") && digest("old") != digest("new")
    ensures r == Installed
    ensures h.w.At(Binary) == Some("new") && h.w.sd.activity == Active(Exec("new", "unit"))
    ensures h.w.EnabledWord() == "enabled"
  {
    hide Reports, FirstInstall, UnitInTheWay, Granted, Commits, InPlace, Installable, Provides, Drop, Nth;
    UpgradeIsGranted(managed, digest);
    SmoothInstall(RUNNING, [], managed, REQUEST);
    h := new Host(RUNNING, []);
    ghost var stopped, cut;
    r, stopped, cut := InstallOptions(h, managed, digest, REQUEST);
    UpgradeRuns(h.w, digest, stopped);
  }
}
