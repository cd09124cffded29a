/** The part of a Linux machine that the service installer reads and changes: the files it
    names, systemd's enablement links, the unit systemd has loaded, and what is running.

    Every step that can fail takes its outcome from a tape.  A tape is any finite sequence of
    outcomes (an exhausted tape means success), so a claim about every tape is a claim about
    every combination of failing and succeeding steps. */
module Machine {
  import opened Wrappers

  type Bytes = string

  /** `New(f)` is the temporary `f + ".new"` that a copy writes first.  `Preinstall`,
      `Rollback`, `PriorActive` and `Failed` are the binary's path with the extension the
      code appends.  `Other` is every path unrelated to the installation. */
  datatype File =
    | Unit | Binary | Preinstall | Rollback | PriorActive | Failed
    | Other(name: string)
    | New(of: File)

  /** What a started service was started from. */
  datatype Exec = Exec(binary: Bytes, unit: Bytes)

  type OddActivity = s: string | s != "active" && s != "inactive" witness "failed"
  type OddEnablement = s: string | s != "enabled" && s != "enabled-runtime" && s != "disabled" witness "masked"

  datatype Activity = Active(exec: Exec) | Inactive | Odd(word: OddActivity)

  /** What systemctl changes: the enablement links, the unit systemd has loaded, and what is
      running. */
  datatype Systemd = Systemd(persistent: bool, runtime: bool, loaded: Option<Bytes>, activity: Activity)

  /** What no step changes.  `unitUnreadable` says that the existing unit file cannot be read,
      `odd` is a unit-file state such as masked or static, which enable
      and disable cannot produce, and the two `...Clears...` fields are properties of the
      installed systemd; nothing here assumes either value. */
  datatype Facts = Facts(
    unitUnreadable: bool,
    odd: Option<OddEnablement>,
    disableClearsRuntime: bool,
    stopClearsOdd: bool)

  function Lookup(files: map<File, Bytes>, f: File): Option<Bytes> {
    if f in files then Some(files[f]) else None
  }

  datatype World = World(
    files: map<File, Bytes>,
    sd: Systemd,
    account: bool,
    dataLeaf: bool,
    facts: Facts)
  {
    predicate Readable(f: File) { f in files && !(f == Unit && facts.unitUnreadable) }

    function At(f: File): Option<Bytes> { Lookup(files, f) }

    /** The word `systemctl is-enabled` prints. */
    function EnabledWord(): string {
      if Unit !in files then "not-found"
      else if facts.odd.Some? then facts.odd.value
      else if sd.persistent then "enabled"
      else if sd.runtime then "enabled-runtime"
      else "disabled"
    }

    /** The word `systemctl is-active` prints. */
    function ActiveWord(): string {
      match sd.activity
      case Active(_) => "active"
      case Inactive => "inactive"
      case Odd(word) => word
    }
  }

  datatype Verb = Stop | Restart | Disable | Enable | EnableRuntime | DaemonReload | ResetFailed

  datatype Op =
    | Systemctl(verb: Verb)
    | Copy(src: File, dst: File)
    | Write(file: File, content: Bytes)
    | Remove(file: File)
    | Rename(src: File, dst: File)
    | EnsureAccount
    | EstablishLeaf

  /** One entry of the tape.  `landed`, `junk` and `left` say what a failing step leaves
      behind: whether a link change took effect anyway, what a half-written temporary holds,
      and what activity a failed start or stop ends in.  For a poll of the service, `landed` says
      that it has stayed as it was since the last one, `left` what it has become if not, and
      `healthy` whether its endpoint answers.  For a start, `polls` is how many polls the health
      window that follows it leaves time for. */
  datatype Outcome = Outcome(ok: bool, landed: bool, junk: Bytes, left: Activity, healthy: bool, polls: nat)

  const SMOOTH := Outcome(true, true, "", Inactive, true, 1)

  function Next(tape: seq<Outcome>): Outcome { if tape == [] then SMOOTH else tape[0] }

  function Rest(tape: seq<Outcome>): seq<Outcome> { if tape == [] then [] else tape[1..] }

  /** Steps that cannot succeed in a given world, whatever the tape says. */
  predicate Possible(w: World, op: Op) {
    match op
    case Copy(src, dst) => w.Readable(src)
    case Rename(src, dst) => src in w.files
    case Systemctl(verb) =>
      (match verb
       case Restart => w.sd.loaded.Some? && Binary in w.files
       case Enable => Unit in w.files && w.facts.odd.None?
       case EnableRuntime => Unit in w.files && w.facts.odd.None?
       case _ => true)
    case _ => true
  }

  /** Removals are unchecked in the source and are taken to succeed. */
  predicate Succeeds(w: World, op: Op, o: Outcome) {
    op.Remove? || (o.ok && Possible(w, op))
  }

  /** What a systemctl call makes of systemd's state, given the files it looks at. */
  function Act(sd: Systemd, facts: Facts, unit: Option<Bytes>, binary: Option<Bytes>,
               verb: Verb, ok: bool, o: Outcome): Systemd
  {
    match verb
    case Stop =>
      if !ok then (if sd.activity.Active? then sd.(activity := o.left) else sd)
      else if sd.activity.Active? || facts.stopClearsOdd then sd.(activity := Inactive)
      else sd
    case Restart =>
      if ok && sd.loaded.Some? && binary.Some?
      then sd.(activity := Active(Exec(binary.value, sd.loaded.value)))
      else sd.(activity := o.left)
    case Disable =>
      if ok || o.landed
      then sd.(persistent := false, runtime := sd.runtime && !facts.disableClearsRuntime)
      else sd
    case Enable => if ok || o.landed then sd.(persistent := true) else sd
    case EnableRuntime => if ok || o.landed then sd.(runtime := true) else sd
    case DaemonReload => if ok || o.landed then sd.(loaded := unit) else sd
    case ResetFailed => if ok && sd.activity.Odd? then sd.(activity := Inactive) else sd
  }

  /** The unit file as systemd can read it. */
  function UnitSeen(w: World): Option<Bytes> {
    if w.Readable(Unit) then Some(w.files[Unit]) else None
  }

  /** A copy writes `New(dst)` and renames it, so copying a file onto itself is harmless but a
      source that IS the temporary is truncated before it is read. */
  function CopyContent(w: World, src: File, dst: File): Bytes
    requires src in w.files
  {
    if src == New(dst) then "" else w.files[src]
  }

  function After(w: World, op: Op, o: Outcome): World {
    var ok := Succeeds(w, op, o);
    match op
    case Systemctl(verb) => w.(sd := Act(w.sd, w.facts, UnitSeen(w), w.At(Binary), verb, ok, o))
    case Copy(src, dst) =>
      if ok then w.(files := w.files[dst := CopyContent(w, src, dst)] - {New(dst)})
      else if o.landed then w.(files := w.files[New(dst) := o.junk])
      else w
    case Write(file, content) => if ok then w.(files := w.files[file := content]) else w
    case Remove(file) => w.(files := w.files - {file})
    case Rename(src, dst) =>
      if ok && src in w.files then w.(files := (w.files - {src})[dst := w.files[src]]) else w
    case EnsureAccount => if ok || o.landed then w.(account := true) else w
    case EstablishLeaf => if ok || o.landed then w.(dataLeaf := true) else w
  }

  /** Whether some content is still held by the binary or by its rollback copy. */
  predicate Holds(w: World, content: Option<Bytes>) {
    content.None? || w.At(Binary) == content || w.At(Rollback) == content
  }

  /** The tape after `n` outcomes. */
  function Drop(tape: seq<Outcome>, n: nat): seq<Outcome> {
    if n <= |tape| then tape[n..] else []
  }

  /** The outcome `n` places on. */
  function Nth(tape: seq<Outcome>, n: nat): Outcome { Next(Drop(tape, n)) }

  lemma DropDrop(tape: seq<Outcome>, m: nat, n: nat)
    ensures Drop(Drop(tape, m), n) == Drop(tape, m + n)
  {
  }

  lemma RestDrop(tape: seq<Outcome>, n: nat)
    ensures Rest(Drop(tape, n)) == Drop(tape, n + 1)
  {
  }

  lemma NextAhead(tape: seq<Outcome>)
    ensures Next(tape) == Nth(tape, 0) && Next(Rest(tape)) == Nth(tape, 1) && Rest(Rest(tape)) == Drop(tape, 2)
  {
    assert Drop(tape, 0) == tape;
    RestDrop(tape, 0);
    RestDrop(tape, 1);
  }

  class Host {
    var w: World
    var tape: seq<Outcome>
    /** The steps attempted so far, and those of them that failed. */
    ghost var done: seq<Op>
    ghost var failed: seq<Op>
    /** `kept` says that in every state since `guarded` was set, `Holds(w, guarded)`. */
    ghost var guarded: Option<Bytes>
    ghost var kept: bool

    constructor (w: World, tape: seq<Outcome>)
      ensures this.w == w && this.tape == tape && done == failed == [] && guarded == None && kept
    {
      this.w, this.tape, this.done, this.failed, this.guarded, this.kept := w, tape, [], [], None, true;
    }

    method Do(op: Op) returns (ok: bool)
      modifies this`w, this`tape, this`done, this`failed, this`kept
      ensures ok == Succeeds(old(w), op, Next(old(tape)))
      ensures w == After(old(w), op, Next(old(tape))) && tape == Rest(old(tape))
      ensures done == old(done) + [op]
      ensures failed == old(failed) + Unless(ok, op)
      ensures kept == (old(kept) && Holds(w, guarded))
    {
      var o := Next(tape);
      ok := Succeeds(w, op, o);
      w := After(w, op, o);
      tape := Rest(tape);
      done, failed := done + [op], failed + Unless(ok, op);
      kept := kept && Holds(w, guarded);
    }

    /** A query that may fail to run; it changes nothing but the tape. */
    method Query() returns (ok: bool)
      modifies this`tape
      ensures ok == Next(old(tape)).ok && tape == Rest(old(tape))
    {
      ok := Next(tape).ok;
      tape := Rest(tape);
    }
  }

  /** The steps to report when one step went as `ok` says. */
  function Unless(ok: bool, op: Op): seq<Op> { if ok then [] else [op] }
}
