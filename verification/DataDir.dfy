/** The data directory, reached through descriptors.  What is claimed of a call is claimed of the
    file system as it was at that call; what was seen at different calls need never have held at
    once, unless nobody interferes. */
module DataDir {
  import opened Wrappers
  import opened Text
  import opened Kernel

  predicate Skipped(component: string) { component == "" || component == "." }

  /** Where a path leads, component by component and through directories only. */
  function Walk(nodes: Inodes, root: Ino, components: seq<string>): Option<Ino> {
    if components == [] then Some(root)
    else
      var n := |components| - 1;
      match Walk(nodes, root, components[..n])
      case None => None
      case Some(dir) => if Skipped(components[n]) then Some(dir) else Child(nodes, dir, components[n])
  }

  /** A directory that belongs to the service and that nobody else can write. */
  predicate Suitable(node: Node, service: Option<int>) {
    node.Dir? && node.mode & OTHERS_WRITE == 0 && service == Some(node.uid)
  }

  // ------------------------------------------------------- what calls have seen

  ghost predicate SawChild(past: seq<Inodes>, from: nat, dir: Ino, name: string, ino: Ino) {
    exists i :: from <= i < |past| && Child(past[i], dir, name) == Some(ino)
  }

  ghost predicate SawMissing(past: seq<Inodes>, from: nat, dir: Ino, name: string) {
    exists i :: from <= i < |past| && dir in past[i] && past[i][dir].Dir? && name !in past[i][dir].entries
  }

  ghost predicate SawSafe(past: seq<Inodes>, from: nat, ino: Ino) {
    exists i :: from <= i < |past| && SafeAt(past[i], ino)
  }

  ghost predicate SawSuitable(past: seq<Inodes>, from: nat, ino: Ino, service: Option<int>) {
    exists i :: from <= i < |past| && ino in past[i] && Suitable(past[i][ino], service)
  }

  predicate IsPrivate(nodes: Inodes, ino: Ino) { ino in nodes && nodes[ino].Dir? && nodes[ino].mode == PRIVATE }

  ghost predicate SawPrivate(past: seq<Inodes>, from: nat, ino: Ino) {
    exists i :: from <= i < |past| && IsPrivate(past[i], ino)
  }

  /** Every component was an entry for the next directory when it was opened: no symbolic link was
      followed, whatever others did meanwhile. */
  ghost predicate Reached(past: seq<Inodes>, from: nat, root: Ino, components: seq<string>, ino: Ino)
    decreases |components|
  {
    if components == [] then ino == root
    else
      var n := |components| - 1;
      exists dir ::
        && Reached(past, from, root, components[..n], dir)
        && if Skipped(components[n]) then ino == dir else SawChild(past, from, dir, components[n], ino)
  }

  lemma {:induction false} ReachedLater(past: seq<Inodes>, past': seq<Inodes>, from: nat, root: Ino,
                                        components: seq<string>, ino: Ino)
    requires Reached(past, from, root, components, ino) && past <= past'
    ensures Reached(past', from, root, components, ino)
    decreases |components|
  {
    if components == [] {
    } else {
      var n := |components| - 1;
      var dir :| Reached(past, from, root, components[..n], dir)
                 && if Skipped(components[n]) then ino == dir else SawChild(past, from, dir, components[n], ino);
      ReachedLater(past, past', from, root, components[..n], dir);
    }
  }

  /** Nothing has changed from one call to the next. */
  ghost predicate Steady(past: seq<Inodes>, from: nat, nodes: Inodes) {
    forall i :: from <= i < |past| ==> past[i] == nodes
  }

  lemma {:induction false} ReachedAlone(past: seq<Inodes>, from: nat, nodes: Inodes, root: Ino,
                                        components: seq<string>, ino: Ino)
    requires Reached(past, from, root, components, ino) && Steady(past, from, nodes)
    ensures Walk(nodes, root, components) == Some(ino)
    decreases |components|
  {
    if components == [] {
    } else {
      var n := |components| - 1;
      var dir :| Reached(past, from, root, components[..n], dir)
                 && if Skipped(components[n]) then ino == dir else SawChild(past, from, dir, components[n], ino);
      ReachedAlone(past, from, nodes, root, components[..n], dir);
    }
  }

  /** Calls that change nothing themselves. */
  ghost predicate Looked(past: seq<Inodes>, past': seq<Inodes>, nodes: Inodes, nodes': Inodes, company: Company) {
    && past <= past' && Moved(nodes, nodes', company)
    && (company.Alone? ==> Steady(past', |past|, nodes))
  }

  lemma LookedOn(past: seq<Inodes>, past1: seq<Inodes>, past2: seq<Inodes>,
                 nodes: Inodes, nodes1: Inodes, nodes2: Inodes, company: Company)
    requires Looked(past, past1, nodes, nodes1, company) && Looked(past1, past2, nodes1, nodes2, company)
    ensures Looked(past, past2, nodes, nodes2, company)
  {
  }

  lemma LookedOnce(past: seq<Inodes>, past': seq<Inodes>, nodes: Inodes, nodes': Inodes, company: Company)
    requires Called(past, past', nodes, company) && nodes' == past'[|past|]
    ensures Looked(past, past', nodes, nodes', company)
  {
  }

  lemma LookedNot(past: seq<Inodes>, nodes: Inodes, company: Company)
    ensures Looked(past, past, nodes, nodes, company)
  {
  }

  // ---------------------------------------------------------- the parent chain

  /** One more descriptor is open than before. */
  ghost predicate Opened(before: Table, fd: int, after: Table) {
    fd >= 0 && fd !in before && fd in after && after == before[fd := after[fd]]
  }

  /** When nobody interferes, every call finds what the last one left. */
  lemma AloneNext(nodes: Inodes, company: Company)
    ensures company.Alone? ==> forall after :: Moved(nodes, after, company) ==> after == nodes
  {
  }

  /** One step down: the next directory is opened before this one is closed. */
  method Descend(k: Kernel, fd: int, component: string, ghost before: Table) returns (next: Option<int>)
    requires k.Valid() && Opened(before, fd, k.fds)
    modifies k`nodes, k`faults, k`fds, k`past
    ensures k.Valid() && Looked(old(k.past), k.past, old(k.nodes), k.nodes, k.company)
    ensures next.None? ==> k.fds == before
    ensures next.Some? ==> Opened(before, next.value, k.fds)
    ensures next.Some? ==> SawChild(k.past, |old(k.past)|, old(k.fds)[fd], component, k.fds[next.value])
    ensures old(k.faults) <= k.faults
    ensures next.None? && k.company.Alone? ==>
      k.faults > old(k.faults) || Child(old(k.nodes), old(k.fds)[fd], component).None?
    ensures next.Some? ==> k.faults == old(k.faults)
  {
    hide Child, Moved;
    AloneNext(k.nodes, k.company);
    next := k.Openat(fd, component);
    LookedOnce(old(k.past), k.past, old(k.nodes), k.nodes, k.company);
    assert next.Some? ==> Child(k.past[|old(k.past)|], k.fds[fd], component) == Some(k.fds[next.value]);
    k.Close(fd);
  }

  lemma ReachedNext(past: seq<Inodes>, past': seq<Inodes>, from: nat, root: Ino, components: seq<string>, i: nat,
                    dir: Ino, ino: Ino)
    requires i < |components| && Reached(past, from, root, components[..i], dir) && past <= past' && from <= |past|
    requires if Skipped(components[i]) then ino == dir else SawChild(past', |past|, dir, components[i], ino)
    ensures Reached(past', from, root, components[..i + 1], ino)
  {
    hide Child;
    ReachedLater(past, past', from, root, components[..i], dir);
    assert components[..i + 1][..i] == components[..i];
    assert !Skipped(components[i]) ==> SawChild(past', from, dir, components[i], ino);
  }

  /** Where an absolute path leads. */
  function Leads(nodes: Inodes, root: Ino, dir: string): Option<Ino> {
    if dir == "" || dir[0] != '/' then None else Walk(nodes, root, Split(dir, '/'))
  }

  /** A path that breaks off leads nowhere. */
  lemma {:induction false} WalkBreaks(nodes: Inodes, root: Ino, components: seq<string>, i: nat)
    requires i <= |components| && Walk(nodes, root, components[..i]).None?
    ensures Walk(nodes, root, components).None?
    decreases |components| - i
  {
    if i == |components| {
      assert components[..i] == components;
    } else {
      assert components[..i + 1][..i] == components[..i];
      WalkBreaks(nodes, root, components, i + 1);
    }
  }

  lemma WalkStep(nodes: Inodes, root: Ino, components: seq<string>, i: nat, dir: Ino)
    requires i < |components| && Walk(nodes, root, components[..i]) == Some(dir)
    ensures Walk(nodes, root, components[..i + 1]) ==
      if Skipped(components[i]) then Some(dir) else Child(nodes, dir, components[i])
  {
    hide Child;
    assert components[..i + 1][..i] == components[..i];
  }

  /** Opens a directory from the root down, holding one descriptor at a time. */
  method OpenDataParent(k: Kernel, dir: string) returns (r: Option<int>)
    requires k.Valid()
    modifies k`nodes, k`faults, k`fds, k`past
    ensures k.Valid() && Looked(old(k.past), k.past, old(k.nodes), k.nodes, k.company)
    ensures r.None? ==> k.fds == old(k.fds)
    ensures r.Some? ==> Opened(old(k.fds), r.value, k.fds)
    ensures r.Some? ==> Reached(k.past, |old(k.past)|, k.root, Split(dir, '/'), k.fds[r.value])
    ensures r.Some? && k.company.Alone? ==> Walk(k.nodes, k.root, Split(dir, '/')) == Some(k.fds[r.value])
    ensures old(k.faults) <= k.faults
    ensures k.company.Alone? ==> (r.Some? <==> Leads(old(k.nodes), k.root, dir).Some? && k.faults == old(k.faults))
  {
    hide Looked, Reached, SawChild, Walk, Split, Child;
    LookedNot(k.past, k.nodes, k.company);
    if dir == "" || dir[0] != '/' { return None; }
    var components := Split(dir, '/');
    r := k.OpenRoot();
    LookedOnce(old(k.past), k.past, old(k.nodes), k.nodes, k.company);
    if r.None? { return; }
    var fd := r.value;
    assert components[..0] == [];
    ReachedRoot(k.past, |old(k.past)|, k.root);
    for i := 0 to |components|
      invariant k.Valid() && Looked(old(k.past), k.past, old(k.nodes), k.nodes, k.company)
      invariant |old(k.past)| <= |k.past|
      invariant Opened(old(k.fds), fd, k.fds)
      invariant Reached(k.past, |old(k.past)|, k.root, components[..i], k.fds[fd])
      invariant k.faults == old(k.faults)
    {
      if k.company.Alone? {
        AloneWalk(old(k.past), k.past, old(k.nodes), k.nodes, k.root, components[..i], k.fds[fd]);
        WalkStep(k.nodes, k.root, components, i, k.fds[fd]);
        if Walk(k.nodes, k.root, components[..i + 1]).None? {
          WalkBreaks(k.nodes, k.root, components, i + 1);
        }
      }
      ghost var past, nodes, ino := k.past, k.nodes, k.fds[fd];
      if components[i] != "" && components[i] != "." {
        var next := Descend(k, fd, components[i], old(k.fds));
        LookedOn(old(k.past), past, k.past, old(k.nodes), nodes, k.nodes, k.company);
        if next.None? { return None; }
        fd := next.value;
      }
      Grown(past, k.past, nodes, k.nodes, k.company);
      ReachedNext(past, k.past, |old(k.past)|, k.root, components, i, ino, k.fds[fd]);
    }
    assert components[..|components|] == components;
    r := Some(fd);
    if k.company.Alone? {
      AloneWalk(old(k.past), k.past, old(k.nodes), k.nodes, k.root, components, k.fds[fd]);
    }
  }

  lemma ReachedRoot(past: seq<Inodes>, from: nat, root: Ino)
    ensures Reached(past, from, root, [], root)
  {
  }

  lemma Grown(past: seq<Inodes>, past': seq<Inodes>, nodes: Inodes, nodes': Inodes, company: Company)
    ensures Looked(past, past', nodes, nodes', company) || past == past' ==> past <= past'
  {
  }

  lemma AloneWalk(past: seq<Inodes>, past': seq<Inodes>, nodes: Inodes, nodes': Inodes, root: Ino,
                  components: seq<string>, ino: Ino)
    requires Looked(past, past', nodes, nodes', Alone) && Reached(past', |past|, root, components, ino)
    ensures nodes' == nodes && Walk(nodes', root, components) == Some(ino)
  {
    ReachedAlone(past', |past|, nodes, root, components, ino);
  }

  /** Whether the path still leads to the retained parent. */
  method DataParentConsistent(k: Kernel, fd: int, dir: string) returns (same: bool)
    requires k.Valid() && fd in k.fds
    modifies k`nodes, k`faults, k`fds, k`past
    ensures k.Valid() && Looked(old(k.past), k.past, old(k.nodes), k.nodes, k.company)
    ensures k.fds == old(k.fds)
    ensures same ==> Reached(k.past, |old(k.past)|, k.root, Split(dir, '/'), k.fds[fd])
    ensures same && k.company.Alone? ==> Walk(k.nodes, k.root, Split(dir, '/')) == Some(k.fds[fd])
    ensures old(k.faults) <= k.faults
    ensures k.company.Alone? ==>
      (same <==> Leads(old(k.nodes), k.root, dir) == Some(k.fds[fd]) && k.faults == old(k.faults))
  {
    hide Looked, Reached, Walk, Split, Moved;
    var again := OpenDataParent(k, dir);
    if again.None? { return false; }
    ghost var past, nodes := k.past, k.nodes;
    LookedNot(k.past, k.nodes, k.company);
    var a := k.Fstat(fd);
    LookedOnce(past, k.past, nodes, k.nodes, k.company);
    ghost var past1, nodes1 := k.past, k.nodes;
    same := false;
    if a.Some? {
      var b := k.Fstat(again.value);
      LookedOnce(past1, k.past, nodes1, k.nodes, k.company);
      LookedOn(past, past1, k.past, nodes, nodes1, k.nodes, k.company);
      same := b.Some? && k.fds[fd] == k.fds[again.value];
    }
    LookedOn(old(k.past), past, k.past, old(k.nodes), nodes, k.nodes, k.company);
    ReachedLater(past, k.past, |old(k.past)|, k.root, Split(dir, '/'), k.fds[again.value]);
    if k.company.Alone? {
      AloneWalk(old(k.past), k.past, old(k.nodes), k.nodes, k.root, Split(dir, '/'), k.fds[again.value]);
    }
    k.Close(again.value);
  }

  method ParentSafe(k: Kernel, fd: int) returns (ok: bool)
    requires k.Valid() && fd in k.fds
    modifies k`nodes, k`faults, k`past
    ensures k.Valid() && Looked(old(k.past), k.past, old(k.nodes), k.nodes, k.company)
    ensures ok ==> SafeAt(k.nodes, k.fds[fd]) && SawSafe(k.past, |old(k.past)|, k.fds[fd])
    ensures old(k.faults) <= k.faults && (ok <==> k.faults == old(k.faults) && SafeAt(k.nodes, k.fds[fd]))
  {
    var info := k.Fstat(fd);
    LookedOnce(old(k.past), k.past, old(k.nodes), k.nodes, k.company);
    ok := info.Some? && info.value.uid == 0 && info.value.mode & OTHERS_WRITE == 0;
    assert ok ==> SafeAt(k.past[|old(k.past)|], k.fds[fd]);
  }

  // ------------------------------------------------------------------- plans

  /** What an accepted inspection retains. */
  class Plan {
    const missing: bool
    var parentFd: int
    var leafFd: int
    const leafName: string
    const dir: string

    constructor (missing: bool, parentFd: int, leafFd: int, leafName: string, dir: string)
      ensures this.missing == missing && this.parentFd == parentFd && this.leafFd == leafFd
      ensures this.leafName == leafName && this.dir == dir
    {
      this.missing, this.parentFd, this.leafFd, this.leafName, this.dir := missing, parentFd, leafFd, leafName, dir;
    }

    /** The descriptors a plan holds. */
    ghost function Held(): set<int>
      reads this
    {
      (if parentFd >= 0 then {parentFd} else {}) + (if leafFd >= 0 then {leafFd} else {})
    }

    /** Every descriptor it holds is open, and none is held twice. */
    ghost predicate Holds(fds: Table)
      reads this
    {
      Held() <= fds.Keys && (parentFd >= 0 ==> parentFd != leafFd)
    }

    /** `close`: releases what is held, once; a second call does nothing. */
    method Close(k: Kernel)
      requires k.Valid() && Holds(k.fds)
      modifies this, k`fds
      ensures k.Valid() && Held() == {}
      ensures k.fds == old(k.fds) - old(Held())
    {
      if parentFd >= 0 {
        k.Close(parentFd);
        parentFd := -1;
      }
      if leafFd >= 0 {
        k.Close(leafFd);
        leafFd := -1;
      }
    }
  }

  /** An accepted plan holds exactly the parent, and the leaf if there was one. */
  ghost predicate Accepted(before: Table, p: Plan, after: Table)
    reads p
  {
    && p.parentFd >= 0 && p.parentFd !in before && p.parentFd in after
    && (if p.missing then p.leafFd == -1 && after == before[p.parentFd := after[p.parentFd]]
        else
          && p.leafFd >= 0 && p.leafFd !in before && p.leafFd != p.parentFd && p.leafFd in after
          && after == before[p.parentFd := after[p.parentFd]][p.leafFd := after[p.leafFd]])
  }

  /** What an accepted inspection has seen, whatever others did meanwhile. */
  ghost predicate Inspected(past: seq<Inodes>, from: nat, root: Ino, fds: Table, p: Plan, service: Option<int>)
    reads p
  {
    && p.parentFd in fds
    && Reached(past, from, root, Split(p.dir, '/'), fds[p.parentFd]) && SawSafe(past, from, fds[p.parentFd])
    && (if p.missing then SawMissing(past, from, fds[p.parentFd], p.leafName)
        else
          && p.leafFd in fds && SawChild(past, from, fds[p.parentFd], p.leafName, fds[p.leafFd])
          && SawSuitable(past, from, fds[p.leafFd], service))
  }

  /** The same of one file system. */
  ghost predicate InspectedIn(nodes: Inodes, root: Ino, fds: Table, p: Plan, service: Option<int>)
    reads p
  {
    && p.parentFd in fds && SafeAt(nodes, fds[p.parentFd])
    && Walk(nodes, root, Split(p.dir, '/')) == Some(fds[p.parentFd])
    && (if p.missing then p.leafName !in nodes[fds[p.parentFd]].entries
        else
          && p.leafFd in fds && Child(nodes, fds[p.parentFd], p.leafName) == Some(fds[p.leafFd])
          && Suitable(nodes[fds[p.leafFd]], service))
  }

  /** When nobody interferes, what was seen is so. */
  lemma InspectedAlone(past: seq<Inodes>, past': seq<Inodes>, nodes: Inodes, nodes': Inodes, root: Ino,
                       fds: Table, p: Plan, service: Option<int>)
    requires Looked(past, past', nodes, nodes', Alone) && Inspected(past', |past|, root, fds, p, service)
    ensures nodes' == nodes && InspectedIn(nodes, root, fds, p, service)
  {
    hide Walk, Reached;
    ReachedAlone(past', |past|, nodes, root, Split(p.dir, '/'), fds[p.parentFd]);
  }

  predicate Acceptable(nodes: Inodes, root: Ino, dir: string, leafName: string, service: Option<int>) {
    Leads(nodes, root, dir).Some? && Fits(nodes, Leads(nodes, root, dir).value, leafName, service)
  }

  /** `inspectDataDir`: changes nothing, and a refusal leaves no descriptor open. */
  method InspectDataDir(k: Kernel, dir: string, leafName: string) returns (p: Option<Plan>)
    requires k.Valid()
    modifies k`nodes, k`faults, k`fds, k`past
    ensures k.Valid() && Looked(old(k.past), k.past, old(k.nodes), k.nodes, k.company)
    ensures p.None? ==> k.fds == old(k.fds)
    ensures p.Some? ==> fresh(p.value) && p.value.dir == dir && p.value.leafName == leafName
    ensures p.Some? ==> Accepted(old(k.fds), p.value, k.fds)
    ensures p.Some? ==> Inspected(k.past, |old(k.past)|, k.root, k.fds, p.value, k.service)
    ensures p.Some? && k.company.Alone? ==> InspectedIn(k.nodes, k.root, k.fds, p.value, k.service)
    ensures old(k.faults) <= k.faults
    // When a directory is accepted: nothing but a failing call refuses a path that leads to a safe
    // parent with a free name or a suitable leaf.
    ensures k.company.Alone? ==>
      (p.Some? <==> Acceptable(old(k.nodes), k.root, dir, leafName, k.service) && k.faults == old(k.faults))
  {
    hide Looked, Reached, Walk, Split, Moved, Child, SawSafe, SawMissing, SawChild, SawSuitable, InspectedIn;
    hide Fits;
    var parent := OpenDataParent(k, dir);
    if parent.None? { return None; }
    var fd := parent.value;
    ghost var past, nodes := k.past, k.nodes;
    AloneSame(old(k.past), past, old(k.nodes), nodes, k.company);
    p := InspectLeaf(k, fd, dir, leafName);
    LookedOn(old(k.past), past, k.past, old(k.nodes), nodes, k.nodes, k.company);
    Grown(past, k.past, nodes, k.nodes, k.company);
    Grown(old(k.past), past, old(k.nodes), nodes, k.company);
    if p.Some? {
      ReachedLater(past, k.past, |old(k.past)|, k.root, Split(dir, '/'), k.fds[fd]);
      SawEarlier(k.past, |old(k.past)|, |past|, k.fds, p.value, k.service);
      if k.company.Alone? {
        InspectedAlone(old(k.past), k.past, old(k.nodes), k.nodes, k.root, k.fds, p.value, k.service);
      }
    }
  }

  /** What was seen of the leaf. */
  ghost predicate LeafSeen(past: seq<Inodes>, from: nat, fds: Table, p: Plan, service: Option<int>)
    reads p
  {
    && p.parentFd in fds && SawSafe(past, from, fds[p.parentFd])
    && (if p.missing then SawMissing(past, from, fds[p.parentFd], p.leafName)
        else
          && p.leafFd in fds && SawChild(past, from, fds[p.parentFd], p.leafName, fds[p.leafFd])
          && SawSuitable(past, from, fds[p.leafFd], service))
  }

  lemma SawEarlier(past: seq<Inodes>, from: nat, later: nat, fds: Table, p: Plan, service: Option<int>)
    requires from <= later && LeafSeen(past, later, fds, p, service)
    ensures LeafSeen(past, from, fds, p, service)
  {
    hide Child, Suitable, SafeAt;
  }

  /** A safe parent with a free name, or with a leaf that the service can use. */
  predicate Fits(nodes: Inodes, parent: Ino, name: string, service: Option<int>) {
    && SafeAt(nodes, parent) && parent in nodes && nodes[parent].Dir?
    && (name in nodes[parent].entries ==> LeafFits(nodes, parent, name, service))
  }

  lemma ChildIs(nodes: Inodes, parent: Ino, name: string)
    requires parent in nodes && nodes[parent].Dir?
    ensures Child(nodes, parent, name).Some? <==>
      name in nodes[parent].entries && nodes[parent].entries[name] in nodes && nodes[nodes[parent].entries[name]].Dir?
  {
  }

  /** The part of the inspection below the parent, whose descriptor is kept only if it accepts. */
  method InspectLeaf(k: Kernel, fd: int, dir: string, leafName: string) returns (p: Option<Plan>)
    requires k.Valid() && fd in k.fds && fd >= 0
    modifies k`nodes, k`faults, k`fds, k`past
    ensures k.Valid() && Looked(old(k.past), k.past, old(k.nodes), k.nodes, k.company)
    ensures p.None? ==> k.fds == old(k.fds) - {fd}
    ensures p.Some? ==> fresh(p.value) && p.value.dir == dir && p.value.leafName == leafName && p.value.parentFd == fd
    ensures p.Some? ==>
      if p.value.missing then p.value.leafFd == -1 && k.fds == old(k.fds) else Opened(old(k.fds), p.value.leafFd, k.fds)
    ensures p.Some? ==> LeafSeen(k.past, |old(k.past)|, k.fds, p.value, k.service)
    ensures old(k.faults) <= k.faults
    ensures k.company.Alone? ==>
      (p.Some? <==> Fits(old(k.nodes), old(k.fds)[fd], leafName, k.service) && k.faults == old(k.faults))
  {
    hide Looked, Moved, Child, Suitable, SafeAt, SawSafe, SawChild, SawSuitable;
    var info := k.Fstatat(fd, leafName);
    LookedOnce(old(k.past), k.past, old(k.nodes), k.nodes, k.company);
    ghost var past, nodes := k.past, k.nodes;
    AloneSame(old(k.past), past, old(k.nodes), nodes, k.company);
    ChildIs(old(k.nodes), old(k.fds)[fd], leafName);
    assert info == Err(Missing) ==> leafName !in k.past[|old(k.past)|][k.fds[fd]].entries;
    if info == Err(Missing) {
      var safe := ParentSafe(k, fd);
      AloneSame(past, k.past, nodes, k.nodes, k.company);
      LookedOn(old(k.past), past, k.past, old(k.nodes), nodes, k.nodes, k.company);
      Grown(past, k.past, nodes, k.nodes, k.company);
      if !safe {
        k.Close(fd);
        return None;
      }
      var plan := new Plan(true, fd, -1, leafName, dir);
      assert k.past[|old(k.past)|] == past[|old(k.past)|];
      SawFrom(k.past, |old(k.past)|, |past|, k.fds[fd], k.fds[fd], leafName, k.fds[fd], k.service);
      return Some(plan);
    }
    if info.Err? || info.value.isLink {
      assert info.Err? ==> info.error.Failure?;
      assert k.company.Alone? && k.faults == old(k.faults) ==> Child(old(k.nodes), old(k.fds)[fd], leafName).None?;
      k.Close(fd);
      return None;
    }
    p := InspectExisting(k, fd, dir, leafName);
    LookedOn(old(k.past), past, k.past, old(k.nodes), nodes, k.nodes, k.company);
    if p.Some? {
      SawEarlier(k.past, |old(k.past)|, |past|, k.fds, p.value, k.service);
    }
  }

  lemma SawFrom(past: seq<Inodes>, from: nat, later: nat, safe: Ino, dir: Ino, name: string, ino: Ino,
                service: Option<int>)
    requires from <= later
    ensures SawSafe(past, later, safe) ==> SawSafe(past, from, safe)
    ensures SawChild(past, later, dir, name, ino) ==> SawChild(past, from, dir, name, ino)
    ensures SawSuitable(past, later, ino, service) ==> SawSuitable(past, from, ino, service)
  {
    hide Child, Suitable, SafeAt;
  }

  /** An entry that leads to a directory which the service can use. */
  predicate LeafFits(nodes: Inodes, parent: Ino, name: string, service: Option<int>) {
    var child := Child(nodes, parent, name);
    child.Some? && child.value in nodes && Suitable(nodes[child.value], service)
  }

  /** The part for an existing leaf, whose descriptor is kept. */
  method InspectExisting(k: Kernel, fd: int, dir: string, leafName: string) returns (p: Option<Plan>)
    requires k.Valid() && fd in k.fds && fd >= 0
    modifies k`nodes, k`faults, k`fds, k`past
    ensures k.Valid() && Looked(old(k.past), k.past, old(k.nodes), k.nodes, k.company)
    ensures p.None? ==> k.fds == old(k.fds) - {fd}
    ensures p.Some? ==> fresh(p.value) && p.value.dir == dir && p.value.leafName == leafName && p.value.parentFd == fd
    ensures p.Some? ==> !p.value.missing && Opened(old(k.fds), p.value.leafFd, k.fds)
    ensures p.Some? ==> LeafSeen(k.past, |old(k.past)|, k.fds, p.value, k.service)
    ensures old(k.faults) <= k.faults
    ensures k.company.Alone? ==>
      (p.Some? <==> LeafFits(old(k.nodes), old(k.fds)[fd], leafName, k.service) && SafeAt(old(k.nodes), old(k.fds)[fd])
                    && k.faults == old(k.faults))
  {
    hide Looked, Moved, Child, Suitable, SafeAt;
    var leaf := k.Openat(fd, leafName);
    LookedOnce(old(k.past), k.past, old(k.nodes), k.nodes, k.company);
    ghost var past, nodes := k.past, k.nodes;
    AloneSame(old(k.past), past, old(k.nodes), nodes, k.company);
    if leaf.None? {
      k.Close(fd);
      return None;
    }
    assert Child(past[|old(k.past)|], k.fds[fd], leafName) == Some(k.fds[leaf.value]);
    var suitable := LeafSuitable(k, leaf.value);
    ghost var past1, nodes1 := k.past, k.nodes;
    AloneSame(past, past1, nodes, nodes1, k.company);
    LookedOn(old(k.past), past, past1, old(k.nodes), nodes, nodes1, k.company);
    Grown(past, past1, nodes, nodes1, k.company);
    if suitable {
      suitable := ParentSafe(k, fd);
      AloneSame(past1, k.past, nodes1, k.nodes, k.company);
      LookedOn(old(k.past), past1, k.past, old(k.nodes), nodes1, k.nodes, k.company);
      Grown(past1, k.past, nodes1, k.nodes, k.company);
    }
    if !suitable {
      k.Close(fd);
      k.Close(leaf.value);
      return None;
    }
    assert k.past[|old(k.past)|] == past[|old(k.past)|];
    SawLater(past1, k.past, |past|, k.fds[leaf.value], k.service);
    SawFrom(k.past, |old(k.past)|, |past1|, k.fds[fd], k.fds[fd], leafName, k.fds[leaf.value], k.service);
    SawFrom(k.past, |old(k.past)|, |past|, k.fds[fd], k.fds[fd], leafName, k.fds[leaf.value], k.service);
    var plan := new Plan(false, fd, leaf.value, leafName, dir);
    return Some(plan);
  }

  lemma SawLater(past: seq<Inodes>, past': seq<Inodes>, from: nat, ino: Ino, service: Option<int>)
    requires past <= past' && SawSuitable(past, from, ino, service)
    ensures SawSuitable(past', from, ino, service)
  {
    hide Suitable;
    var i :| from <= i < |past| && ino in past[i] && Suitable(past[i][ino], service);
    assert past'[i] == past[i];
  }

  /** The checks on an existing leaf, through its descriptor. */
  method LeafSuitable(k: Kernel, fd: int) returns (ok: bool)
    requires k.Valid() && fd in k.fds
    modifies k`nodes, k`faults, k`past
    ensures k.Valid() && Looked(old(k.past), k.past, old(k.nodes), k.nodes, k.company)
    ensures ok ==> SawSuitable(k.past, |old(k.past)|, k.fds[fd], k.service)
    ensures old(k.faults) <= k.faults
    ensures ok <==> Suitable(k.nodes[k.fds[fd]], k.service) && k.faults == old(k.faults)
  {
    var info := k.Fstat(fd);
    LookedOnce(old(k.past), k.past, old(k.nodes), k.nodes, k.company);
    if info.None? || !info.value.isDir || info.value.mode & OTHERS_WRITE != 0 { return false; }
    ok := k.service == Some(info.value.uid);
    assert ok ==> Suitable(k.past[|old(k.past)|][k.fds[fd]], k.service);
  }

  // ----------------------------------------------------------- establishment

  datatype Verdict =
    | Established
    | ParentChanged
    | ParentUnsafe
    | NotCreated
    | LeafRemoved
    | CleanupIncomplete
    | ModeNotSet

  /** A change that stays below the retained parent: its entry of that name, and the inode bound
      to it. */
  predicate Below(m: Mutation, parent: Ino, name: string, leaf: Option<Ino>) {
    match m
    case Made(p, n, _) => p == parent && n == name
    case Removed(p, n) => p == parent && n == name
    case Moded(i) => leaf == Some(i)
    case Owned(i) => leaf == Some(i)
  }

  /** The log has grown by such changes only, and nothing was touched before `made` was made. */
  ghost predicate GrownBelow(before: seq<Mutation>, after: seq<Mutation>, parent: Ino, name: string,
                             made: Option<Ino>, leaf: Option<Ino>)
  {
    && before <= after
    && (forall i :: |before| <= i < |after| ==> Below(after[i], parent, name, leaf))
    && (|before| < |after| ==> made.Some? && after[|before|] == Made(parent, name, made.value))
  }

  /** The log has grown by changes to the mode and the owner of one inode only. */
  ghost predicate GrownBy(before: seq<Mutation>, after: seq<Mutation>, leaf: Option<Ino>) {
    && before <= after
    && forall i :: |before| <= i < |after| ==>
         leaf.Some? && (after[i] == Moded(leaf.value) || after[i] == Owned(leaf.value))
  }

  /** Every inode that was there reads as before. */
  ghost predicate Kept(nodes: Inodes, nodes': Inodes) {
    forall i :: i in nodes ==> i in nodes' && nodes'[i] == nodes[i]
  }

  /** The leaf now exists: a private directory that belongs to the service. */
  ghost predicate LeafMade(nodes: Inodes, parent: Ino, name: string, nodes': Inodes, service: Option<int>) {
    && parent in nodes && nodes[parent].Dir? && service.Some? && name !in nodes[parent].entries
    && exists ino :: ino !in nodes && nodes' == WithChild(nodes, parent, name, ino, Dir(map[], PRIVATE, service.value))
  }

  /** The leaf is private now, and that is all. */
  ghost predicate OnlyMode(nodes: Inodes, leaf: Ino, nodes': Inodes) {
    leaf in nodes && nodes[leaf].Dir? && nodes' == WithMode(nodes, leaf)
  }

  /** `cleanupLeafError`. */
  method CleanupLeafError(k: Kernel, parentFd: int, name: string) returns (v: Verdict)
    requires k.Valid() && parentFd in k.fds
    modifies k`nodes, k`faults, k`log, k`past
    ensures k.Valid() && (v == LeafRemoved || v == CleanupIncomplete)
    ensures Called(old(k.past), k.past, old(k.nodes), k.company)
    ensures k.log == if v == LeafRemoved then old(k.log) + [Removed(k.fds[parentFd], name)] else old(k.log)
    ensures k.fds[parentFd] in k.past[|old(k.past)|] && k.past[|old(k.past)|][k.fds[parentFd]].Dir?
    ensures k.faults ==
      old(k.faults) + Fault(v != LeafRemoved && EmptyDir(k.past[|old(k.past)|], k.fds[parentFd], name))
    ensures k.nodes ==
      if v == LeafRemoved then WithoutEntry(k.past[|old(k.past)|], k.fds[parentFd], name) else k.past[|old(k.past)|]
  {
    var ok := k.Rmdirat(parentFd, name);
    v := if ok then LeafRemoved else CleanupIncomplete;
  }

  /** Only mode and owner of the leaf change, and they change to what the service needs when all
      goes well.  A directory that does not have the mode just asked for is left alone. */
  ghost predicate Settling(nodes: Inodes, leaf: Ino, nodes': Inodes, service: Option<int>, ok: bool) {
    && leaf in nodes && nodes[leaf].Dir? && leaf in nodes'
    && nodes' == nodes[leaf := nodes'[leaf]]
    && nodes'[leaf].Dir? && nodes'[leaf].entries == nodes[leaf].entries
    && (nodes[leaf].mode != PRIVATE ==> nodes' == nodes)
    && (ok ==>
          && service.Some? && nodes[leaf].mode == PRIVATE
          && nodes'[leaf] == Dir(nodes[leaf].entries, PRIVATE, service.value))
  }

  /** The steps on a bound leaf: check that it is what `mkdirat` made, then mode, owner, and a last
      look.  The descriptor is closed whatever happens. */
  method SettleLeaf(k: Kernel, leafFd: int) returns (ok: bool)
    requires k.Valid() && leafFd in k.fds
    modifies k`nodes, k`faults, k`fds, k`log, k`past
    ensures k.Valid() && k.fds == old(k.fds) - {leafFd} && old(k.past) <= k.past
    ensures GrownBy(old(k.log), k.log, Some(old(k.fds)[leafFd]))
    ensures ok ==> k.log == old(k.log) + [Moded(old(k.fds)[leafFd]), Owned(old(k.fds)[leafFd])]
    ensures |old(k.past)| < |k.past| && Moved(old(k.nodes), k.past[|old(k.past)|], k.company)
    // A look before the changes, and one after them.
    ensures ok ==> |k.past| == |old(k.past)| + 4
    ensures old(k.faults) <= k.faults
    ensures ok <==>
      IsPrivate(k.past[|old(k.past)|], old(k.fds)[leafFd]) && k.service.Some? && k.faults == old(k.faults)
    // Nothing is changed that did not have the mode just asked for when it was looked at.
    ensures k.log != old(k.log) ==> SawPrivate(k.past, |old(k.past)|, old(k.fds)[leafFd])
    ensures k.company.Alone? ==> Settling(old(k.nodes), old(k.fds)[leafFd], k.nodes, k.service, ok)
  {
    hide Settling, GrownBy, Moved, WithMode, WithOwner;
    ghost var leaf := k.fds[leafFd];
    NotGrown(k.log, leaf);
    ok := false;
    var info := k.Fstat(leafFd);
    ghost var seen, nodes := k.past, k.nodes;
    assert seen[|old(k.past)|] == nodes && leafFd in k.fds && k.fds[leafFd] == leaf;
    AloneCalled(old(k.past), seen, old(k.nodes), k.company);
    Unsettled(nodes, leaf, k.service);
    if info.Some? && info.value.isDir && !info.value.isLink && info.value.mode == PRIVATE {
      assert SawPrivate(seen, |old(k.past)|, leaf);
      ok := SetModeAndOwner(k, leafFd);
      PrivateLater(seen, k.past, |old(k.past)|, leaf);
    }
    k.Close(leafFd);
  }

  lemma NotGrown(log: seq<Mutation>, leaf: Ino)
    ensures GrownBy(log, log, Some(leaf))
  {
  }

  lemma AloneCalled(past: seq<Inodes>, past': seq<Inodes>, nodes: Inodes, company: Company)
    requires Called(past, past', nodes, company)
    ensures company.Alone? ==> past'[|past|] == nodes
  {
  }

  lemma PrivateLater(past: seq<Inodes>, past': seq<Inodes>, from: nat, ino: Ino)
    requires past <= past' && SawPrivate(past, from, ino)
    ensures SawPrivate(past', from, ino)
  {
    hide IsPrivate;
    var i :| from <= i < |past| && IsPrivate(past[i], ino);
    assert past'[i] == past[i];
  }

  lemma Unsettled(nodes: Inodes, leaf: Ino, service: Option<int>)
    requires leaf in nodes && nodes[leaf].Dir?
    ensures Settling(nodes, leaf, nodes, service, false)
  {
  }

  lemma Settled(nodes: Inodes, leaf: Ino, service: Option<int>, ok: bool)
    requires leaf in nodes && nodes[leaf].Dir? && nodes[leaf].mode == PRIVATE
    ensures Settling(nodes, leaf, WithMode(nodes, leaf), service, false)
    ensures service.Some? ==> Settling(nodes, leaf, WithOwner(WithMode(nodes, leaf), leaf, service.value), service, ok)
  {
  }

  /** Mode, owner, and a last look, on a leaf that has been checked. */
  method SetModeAndOwner(k: Kernel, leafFd: int) returns (ok: bool)
    requires k.Valid() && leafFd in k.fds
    modifies k`nodes, k`faults, k`log, k`past
    ensures k.Valid() && old(k.past) <= k.past
    ensures GrownBy(old(k.log), k.log, Some(k.fds[leafFd]))
    ensures ok ==> k.log == old(k.log) + [Moded(k.fds[leafFd]), Owned(k.fds[leafFd])]
    ensures old(k.faults) <= k.faults && (ok <==> k.service.Some? && k.faults == old(k.faults))
    ensures ok ==> |k.past| == |old(k.past)| + 3
    ensures k.company.Alone? && old(k.nodes)[k.fds[leafFd]].mode == PRIVATE ==>
      Settling(old(k.nodes), k.fds[leafFd], k.nodes, k.service, ok)
  {
    hide Settling, Moved, WithMode, WithOwner;
    ghost var leaf := k.fds[leafFd];
    if k.nodes[leaf].mode == PRIVATE {
      Unsettled(k.nodes, leaf, k.service);
      Settled(k.nodes, leaf, k.service, true);
      Settled(k.nodes, leaf, k.service, false);
    }
    ok := k.Fchmod(leafFd);
    AloneCalled(old(k.past), k.past, old(k.nodes), k.company);
    if ok {
      ghost var past, nodes := k.past, k.nodes;
      ok := k.Fchown(leafFd);
      AloneCalled(past, k.past, nodes, k.company);
      if ok {
        ghost var past1, nodes1 := k.past, k.nodes;
        var again := k.Fstat(leafFd);
        AloneCalled(past1, k.past, nodes1, k.company);
        ok := again.Some?;
      }
    }
  }

  /** A fresh leaf, bound and settled; taking its entry away again leaves what was there before. */
  lemma FreshSettled(nodes: Inodes, dir: Ino, name: string, ino: Ino, made: Inodes, umask: bv12, leaf: Ino,
                     nodes': Inodes, service: Option<int>, ok: bool)
    requires Created(nodes, dir, name, ino, made, umask)
    requires Child(made, dir, name) == Some(leaf) && Settling(made, leaf, nodes', service, ok)
    ensures ok ==> LeafMade(nodes, dir, name, nodes', service)
    ensures dir in nodes' && nodes'[dir].Dir? && Kept(nodes, WithoutEntry(nodes', dir, name))
  {
    assert leaf == ino && nodes'[dir] == made[dir];
    assert nodes'[dir].entries - {name} == nodes[dir].entries;
    if ok {
      assert nodes' == WithChild(nodes, dir, name, ino, Dir(map[], PRIVATE, service.value));
    }
  }

  lemma CreatedFree(nodes: Inodes, dir: Ino, name: string, ino: Ino, made: Inodes, umask: bv12)
    requires Created(nodes, dir, name, ino, made, umask)
    ensures dir in nodes && nodes[dir].Dir? && name !in nodes[dir].entries
  {
  }

  lemma FreshUnbound(nodes: Inodes, dir: Ino, name: string, ino: Ino, made: Inodes, umask: bv12)
    requires Created(nodes, dir, name, ino, made, umask)
    ensures dir in made && made[dir].Dir? && Kept(nodes, WithoutEntry(made, dir, name))
  {
    assert made[dir].entries - {name} == nodes[dir].entries;
  }

  /** A directory just made has the mode asked for exactly if its parent has no set-group-ID bit to
      hand down and the umask spares its owner. */
  predicate Accommodates(parent: bv12, umask: bv12) { parent & SET_GROUP == 0 && umask & PRIVATE == 0 }

  /** A parent like /srv with mode 02755 is safe, and no fresh leaf can be established below it. */
  lemma SetGroupParent(entries: map<string, Ino>, umask: bv12)
    ensures Safe(Dir(entries, 0x1ED | SET_GROUP, 0)) && !Accommodates(0x1ED | SET_GROUP, umask)
  {
  }

  lemma NewDirMode(parent: bv12, umask: bv12)
    ensures NewDir(parent, umask).mode == PRIVATE <==> Accommodates(parent, umask)
    ensures Safe(NewDir(parent, umask))
  {
  }

  /** Below a directory that only root may write, the entry just made still leads to the inode just
      made when it is looked up, unless root itself interferes. */
  lemma MadeStays(nodes: Inodes, dir: Ino, name: string, ino: Ino, made: Inodes, umask: bv12, later: Inodes,
                  company: Company)
    requires SafeAt(nodes, dir) && Created(nodes, dir, name, ino, made, umask)
    requires Moved(made, later, company) && company != Anyone
    ensures Child(later, dir, name) == Some(ino) && SafeAt(later, ino)
    ensures later[ino] == NewDir(nodes[dir].mode, umask)
  {
    NewDirMode(nodes[dir].mode, umask);
    assert SafeAt(made, dir) && SafeAt(made, ino);
  }

  /** What two looks at it, one after the other, find. */
  lemma MadeReads(nodes: Inodes, dir: Ino, name: string, ino: Ino, made: Inodes, umask: bv12, later: Inodes,
                  last: Inodes, company: Company)
    requires SafeAt(nodes, dir) && Created(nodes, dir, name, ino, made, umask)
    requires Moved(made, later, company) && (last == later || Moved(later, last, company)) && company != Anyone
    ensures Child(later, dir, name) == Some(ino)
    ensures IsPrivate(last, ino) <==> Accommodates(nodes[dir].mode, umask)
  {
    MadeStays(nodes, dir, name, ino, made, umask, later, company);
    NewDirMode(nodes[dir].mode, umask);
    hide Created, Child, NewDir, Accommodates;
    assert Moved(later, last, company) ==> last[ino] == later[ino];
  }

  /** Opens the created leaf by name, without following links, and settles what that gives. */
  method BindLeaf(k: Kernel, parentFd: int, name: string) returns (ok: bool, ghost leaf: Option<Ino>)
    requires k.Valid() && parentFd in k.fds
    modifies k`nodes, k`faults, k`fds, k`log, k`past
    ensures k.Valid() && k.fds == old(k.fds)
    ensures GrownBy(old(k.log), k.log, leaf)
    ensures ok ==> leaf.Some? && k.log == old(k.log) + [Moded(leaf.value), Owned(leaf.value)]
    ensures old(k.past) <= k.past && |old(k.past)| < |k.past|
    ensures Moved(old(k.nodes), k.past[|old(k.past)|], k.company)
    ensures leaf.Some? ==> Child(k.past[|old(k.past)|], k.fds[parentFd], name) == leaf
    ensures leaf.Some? ==>
      |old(k.past)| + 1 < |k.past| && Moved(k.past[|old(k.past)|], k.past[|old(k.past)| + 1], k.company)
    ensures old(k.faults) <= k.faults
    ensures leaf.None? ==> Child(k.past[|old(k.past)|], k.fds[parentFd], name).None? || k.faults > old(k.faults)
    ensures ok <==>
      leaf.Some? && IsPrivate(k.past[|old(k.past)| + 1], leaf.value) && k.service.Some? && k.faults == old(k.faults)
    ensures k.log != old(k.log) ==> leaf.Some? && SawPrivate(k.past, |old(k.past)|, leaf.value)
    ensures leaf.None? ==> !ok && (k.company.Alone? ==> k.nodes == old(k.nodes))
    ensures leaf.Some? && k.company.Alone? ==> Settling(old(k.nodes), leaf.value, k.nodes, k.service, ok)
  {
    hide Child, Settling, SawPrivate, IsPrivate;
    ok, leaf := false, None;
    var leafFd := k.Openat(parentFd, name);
    ghost var past := k.past;
    assert past[|old(k.past)|] == k.nodes;
    if leafFd.Some? {
      leaf := Some(k.fds[leafFd.value]);
      ok := SettleLeaf(k, leafFd.value);
      PrivateEarlier(k.past, |old(k.past)|, |past|, leaf.value);
      assert k.past[|old(k.past)|] == past[|old(k.past)|];
    }
  }

  lemma PrivateEarlier(past: seq<Inodes>, from: nat, later: nat, ino: Ino)
    requires from <= later
    ensures SawPrivate(past, later, ino) ==> SawPrivate(past, from, ino)
  {
  }

  lemma LogUntouched(log: seq<Mutation>, parent: Ino, name: string, made: Option<Ino>, leaf: Option<Ino>)
    ensures GrownBelow(log, log, parent, name, made, leaf)
  {
  }

  /** The log from before the leaf was made, over its settling, to after the clean-up. */
  lemma LogBelow(before: seq<Mutation>, made: seq<Mutation>, settled: seq<Mutation>, after: seq<Mutation>,
                 parent: Ino, name: string, ino: Ino, leaf: Option<Ino>)
    requires made == before + [Made(parent, name, ino)] && GrownBy(made, settled, leaf)
    requires after == settled || after == settled + [Removed(parent, name)]
    ensures GrownBelow(before, after, parent, name, Some(ino), leaf) && after != before
  {
  }

  /** A safe parent below which `mkdirat` makes a directory of the mode asked for. */
  predicate Welcomes(nodes: Inodes, parent: Ino, umask: bv12) {
    SafeAt(nodes, parent) && Accommodates(nodes[parent].mode, umask)
  }

  predicate Free(nodes: Inodes, parent: Ino, name: string, umask: bv12) {
    Welcomes(nodes, parent, umask) && name !in nodes[parent].entries
  }

  /** The same for a name that is free and an account that exists. */
  predicate Ready(nodes: Inodes, parent: Ino, name: string, umask: bv12, service: Option<int>) {
    Free(nodes, parent, name, umask) && service.Some?
  }

  /** `establishFreshLeaf`.  Nothing is made below a parent that was not seen to be safe.  Unless
      root itself interferes, the leaf that is bound is the one that was made. */
  method EstablishFreshLeaf(k: Kernel, parentFd: int, name: string)
    returns (v: Verdict, ghost made: Option<Ino>, ghost leaf: Option<Ino>)
    requires k.Valid() && parentFd in k.fds
    modifies k`nodes, k`faults, k`fds, k`log, k`past
    ensures k.Valid() && k.fds == old(k.fds) && old(k.past) <= k.past
    ensures v in {Established, ParentUnsafe, NotCreated, LeafRemoved, CleanupIncomplete}
    ensures GrownBelow(old(k.log), k.log, k.fds[parentFd], name, made, leaf)
    ensures k.log != old(k.log) ==> SawSafe(k.past, |old(k.past)|, k.fds[parentFd])
    ensures leaf.Some? && k.company != Anyone ==> leaf == made
    ensures v == Established ==>
      && made.Some? && leaf.Some?
      && k.log == old(k.log) + [Made(k.fds[parentFd], name, made.value), Moded(leaf.value), Owned(leaf.value)]
    ensures v in {ParentUnsafe, NotCreated} ==> k.log == old(k.log) && (k.company.Alone? ==> k.nodes == old(k.nodes))
    ensures k.company.Alone? && !SafeAt(old(k.nodes), k.fds[parentFd]) ==> v == ParentUnsafe
    ensures old(k.faults) <= k.faults
    // When a fresh leaf can be established at all, and that nothing else stands in its way.
    ensures k.company.Alone? ==>
      (v == Established <==>
        Ready(old(k.nodes), k.fds[parentFd], name, k.umask, k.service) && k.faults == old(k.faults))
    ensures k.company != Anyone && v == Established ==>
      exists i :: |old(k.past)| <= i < |k.past| && Welcomes(k.past[i], k.fds[parentFd], k.umask)
    ensures k.company.Alone? && v == Established ==> LeafMade(old(k.nodes), k.fds[parentFd], name, k.nodes, k.service)
    ensures k.company.Alone? && v == LeafRemoved ==> Kept(old(k.nodes), k.nodes)
  {
    hide Created, Settling, LeafMade, Kept, WithoutEntry, GrownBelow, GrownBy;
    hide SafeAt, Child, Moved, SawPrivate, SawSafe, Looked, Accommodates;
    made, leaf := None, None;
    LogUntouched(k.log, k.fds[parentFd], name, made, leaf);
    var safe := ParentSafe(k, parentFd);
    AloneSame(old(k.past), k.past, old(k.nodes), k.nodes, k.company);
    if !safe { return ParentUnsafe, made, leaf; }
    ghost var past, before := k.past, k.nodes;
    var ok;
    ghost var ino;
    ok, ino := k.Mkdirat(parentFd, name);
    ghost var at: Inodes := k.past[|past|];
    MovedSame(before, at, k.fds[parentFd], k.company);
    if !ok {
      return NotCreated, made, leaf;
    }
    made := Some(ino);
    ghost var nodes := k.nodes;
    v, leaf := FinishLeaf(k, parentFd, name, ino, at, old(k.log));
    CreatedFree(at, k.fds[parentFd], name, ino, nodes, k.umask);
    assert k.past[|past|] == at;
    Grown(old(k.past), past, old(k.nodes), before, k.company);
    assert k.company != Anyone && v == Established ==> Welcomes(k.past[|past|], k.fds[parentFd], k.umask);
    SafeStays(past, k.past, |old(k.past)|, k.fds[parentFd]);
  }

  /** Binds and settles a leaf that has been made in `at`. */
  method BindMade(k: Kernel, parentFd: int, name: string, ghost ino: Ino, ghost at: Inodes)
    returns (ok: bool, ghost leaf: Option<Ino>)
    requires k.Valid() && parentFd in k.fds && Created(at, k.fds[parentFd], name, ino, k.nodes, k.umask)
    modifies k`nodes, k`faults, k`fds, k`log, k`past
    ensures k.Valid() && k.fds == old(k.fds) && old(k.past) <= k.past && old(k.faults) <= k.faults
    ensures GrownBy(old(k.log), k.log, leaf)
    ensures ok ==> leaf.Some? && k.log == old(k.log) + [Moded(leaf.value), Owned(leaf.value)]
    ensures leaf.Some? && k.company != Anyone && SafeAt(at, k.fds[parentFd]) ==> leaf == Some(ino)
    ensures k.company != Anyone && SafeAt(at, k.fds[parentFd]) ==>
      (ok <==> Accommodates(at[k.fds[parentFd]].mode, k.umask) && k.service.Some? && k.faults == old(k.faults))
    ensures k.company.Alone? && ok ==> LeafMade(at, k.fds[parentFd], name, k.nodes, k.service)
    ensures k.company.Alone? ==>
      && k.fds[parentFd] in k.nodes && k.nodes[k.fds[parentFd]].Dir?
      && Kept(at, WithoutEntry(k.nodes, k.fds[parentFd], name))
  {
    hide Created, Settling, LeafMade, Kept, WithoutEntry, GrownBy, SafeAt, Child, Moved, SawPrivate;
    hide IsPrivate, Accommodates, Kernel.Valid;
    ghost var nodes, past := k.nodes, k.past;
    FreshUnbound(at, k.fds[parentFd], name, ino, nodes, k.umask);
    ok, leaf := BindLeaf(k, parentFd, name);
    if k.company != Anyone && SafeAt(at, k.fds[parentFd]) {
      MadeReads(at, k.fds[parentFd], name, ino, nodes, k.umask, k.past[|past|],
                if leaf.Some? then k.past[|past| + 1] else k.past[|past|], k.company);
    }
    if leaf.Some? && k.company.Alone? {
      AloneAt(nodes, k.past[|past|]);
      FreshSettled(at, k.fds[parentFd], name, ino, nodes, k.umask, leaf.value, k.nodes, k.service, ok);
    }
  }

  /** What follows once the leaf has been made in `at`, with nothing logged but `before`. */
  method FinishLeaf(k: Kernel, parentFd: int, name: string,
                    ghost ino: Ino, ghost at: Inodes, ghost before: seq<Mutation>)
    returns (v: Verdict, ghost leaf: Option<Ino>)
    requires k.Valid() && parentFd in k.fds && Created(at, k.fds[parentFd], name, ino, k.nodes, k.umask)
    requires k.log == before + [Made(k.fds[parentFd], name, ino)]
    modifies k`nodes, k`faults, k`fds, k`log, k`past
    ensures k.Valid() && k.fds == old(k.fds) && old(k.past) <= k.past
    ensures v in {Established, LeafRemoved, CleanupIncomplete}
    ensures GrownBelow(before, k.log, k.fds[parentFd], name, Some(ino), leaf) && k.log != before
    ensures leaf.Some? && k.company != Anyone && SafeAt(at, k.fds[parentFd]) ==> leaf == Some(ino)
    ensures v == Established ==> leaf.Some? && k.log == old(k.log) + [Moded(leaf.value), Owned(leaf.value)]
    ensures old(k.faults) <= k.faults
    ensures k.company != Anyone && SafeAt(at, k.fds[parentFd]) ==>
      (v == Established <==>
        Accommodates(at[k.fds[parentFd]].mode, k.umask) && k.service.Some? && k.faults == old(k.faults))
    ensures k.company.Alone? && v == Established ==> LeafMade(at, k.fds[parentFd], name, k.nodes, k.service)
    ensures k.company.Alone? && v == LeafRemoved ==> Kept(at, k.nodes)
  {
    hide Created, LeafMade, Kept, WithoutEntry, GrownBelow, GrownBy, SafeAt, Moved, Accommodates;
    hide EmptyDir, Kernel.Valid;
    ghost var log := k.log;
    var ok;
    ok, leaf := BindMade(k, parentFd, name, ino, at);
    ghost var settled, bound, past := k.log, k.nodes, k.past;
    if ok {
      v := Established;
    } else {
      v := CleanupLeafError(k, parentFd, name);
      AloneCalled(past, k.past, bound, k.company);
    }
    LogBelow(before, log, settled, k.log, k.fds[parentFd], name, ino, leaf);
  }

  lemma AloneSame(past: seq<Inodes>, past': seq<Inodes>, nodes: Inodes, nodes': Inodes, company: Company)
    requires Looked(past, past', nodes, nodes', company)
    ensures company.Alone? ==> nodes' == nodes
  {
  }

  lemma AloneAt(nodes: Inodes, at: Inodes)
    requires Moved(nodes, at, Alone)
    ensures at == nodes
  {
  }

  lemma MovedSame(nodes: Inodes, at: Inodes, ino: Ino, company: Company)
    requires Moved(nodes, at, company)
    ensures company.Alone? ==> at == nodes
    ensures company != Anyone && SafeAt(nodes, ino) ==> SafeAt(at, ino)
  {
  }

  lemma SafeStays(past: seq<Inodes>, past': seq<Inodes>, from: nat, ino: Ino)
    requires past <= past'
    ensures SawSafe(past, from, ino) ==> SawSafe(past', from, ino)
  {
    hide SafeAt;
    if SawSafe(past, from, ino) {
      var i :| from <= i < |past| && SafeAt(past[i], ino);
      assert past'[i] == past[i];
    }
  }

  /** `establishDataDir`.  A parent that the path no longer leads to is refused before anything is
      changed; an existing leaf is changed through the descriptor it was inspected through. */
  method EstablishDataDir(k: Kernel, p: Plan) returns (v: Verdict, ghost made: Option<Ino>, ghost leaf: Option<Ino>)
    requires k.Valid() && p.parentFd in k.fds && (!p.missing ==> p.leafFd in k.fds)
    modifies k`nodes, k`faults, k`fds, k`log, k`past
    ensures k.Valid() && k.fds == old(k.fds) && old(k.past) <= k.past
    ensures v != ParentChanged ==> Reached(k.past, |old(k.past)|, k.root, Split(p.dir, '/'), k.fds[p.parentFd])
    ensures k.company.Alone? && Walk(old(k.nodes), k.root, Split(p.dir, '/')) != Some(k.fds[p.parentFd]) ==>
      v == ParentChanged
    ensures v == ParentChanged ==> k.log == old(k.log) && (k.company.Alone? ==> k.nodes == old(k.nodes))
    ensures !p.missing ==> k.log == if v == Established then old(k.log) + [Moded(k.fds[p.leafFd])] else old(k.log)
    ensures old(k.faults) <= k.faults
    ensures k.company.Alone? ==>
      (v == Established <==>
        && Leads(old(k.nodes), k.root, p.dir) == Some(k.fds[p.parentFd]) && k.faults == old(k.faults)
        && (p.missing ==> Ready(old(k.nodes), k.fds[p.parentFd], p.leafName, k.umask, k.service)))
    ensures !p.missing && k.company.Alone? ==>
      if v == Established then OnlyMode(old(k.nodes), k.fds[p.leafFd], k.nodes) else k.nodes == old(k.nodes)
    ensures p.missing ==> GrownBelow(old(k.log), k.log, k.fds[p.parentFd], p.leafName, made, leaf)
    ensures p.missing && k.log != old(k.log) ==> SawSafe(k.past, |old(k.past)|, k.fds[p.parentFd])
    ensures leaf.Some? && k.company != Anyone ==> leaf == made
    ensures p.missing && k.company.Alone? && !SafeAt(old(k.nodes), k.fds[p.parentFd]) ==>
      v in {ParentChanged, ParentUnsafe} && k.log == old(k.log)
    ensures p.missing && v == Established ==>
      && made.Some? && leaf.Some?
      && k.log == old(k.log) + [Made(k.fds[p.parentFd], p.leafName, made.value), Moded(leaf.value), Owned(leaf.value)]
    ensures p.missing && k.company.Alone? && v == Established ==>
      Ready(old(k.nodes), k.fds[p.parentFd], p.leafName, k.umask, k.service)
    ensures p.missing && k.company.Alone? && v == Established ==>
      LeafMade(old(k.nodes), k.fds[p.parentFd], p.leafName, k.nodes, k.service)
    ensures p.missing && k.company.Alone? && v != Established && v != CleanupIncomplete ==> Kept(old(k.nodes), k.nodes)
  {
    hide Walk, Reached, Split, Moved, SawSafe, SafeAt, GrownBelow, LeafMade, Ready, Welcomes;
    made, leaf := None, None;
    LogUntouched(k.log, k.fds[p.parentFd], p.leafName, made, leaf);
    var same := DataParentConsistent(k, p.parentFd, p.dir);
    ghost var past, nodes := k.past, k.nodes;
    AloneSame(old(k.past), past, old(k.nodes), nodes, k.company);
    if !same { return ParentChanged, made, leaf; }
    if p.missing {
      v, made, leaf := EstablishFreshLeaf(k, p.parentFd, p.leafName);
      SafeEarlier(k.past, |old(k.past)|, |past|, k.fds[p.parentFd]);
    } else {
      var ok := k.Fchmod(p.leafFd);
      MovedSame(nodes, k.past[|past|], k.fds[p.leafFd], k.company);
      v := if ok then Established else ModeNotSet;
    }
    ReachedLater(past, k.past, |old(k.past)|, k.root, Split(p.dir, '/'), k.fds[p.parentFd]);
  }

  lemma SafeEarlier(past: seq<Inodes>, from: nat, later: nat, ino: Ino)
    requires from <= later
    ensures SawSafe(past, later, ino) ==> SawSafe(past, from, ino)
  {
    hide SafeAt;
  }

  /** From the accepted plan on, after anything at all may have happened to the file system. */
  method Proceed(k: Kernel, p: Plan, between: Option<Inodes>)
    returns (ok: bool, ghost made: Option<Ino>, ghost bound: Option<Ino>)
    requires k.Valid() && p.parentFd in k.fds && (!p.missing ==> p.leafFd in k.fds)
    modifies k`nodes, k`faults, k`fds, k`log, k`service, k`past
    ensures k.Valid() && k.fds == old(k.fds) && old(k.past) <= k.past
    ensures !p.missing ==> k.log == if ok then old(k.log) + [Moded(k.fds[p.leafFd])] else old(k.log)
    ensures p.missing ==> GrownBelow(old(k.log), k.log, k.fds[p.parentFd], p.leafName, made, bound)
    ensures bound.Some? && k.company != Anyone ==> bound == made
    ensures old(k.faults) <= k.faults
    ensures k.company.Alone? && between.None? ==>
      (ok <==>
        && Leads(old(k.nodes), k.root, p.dir) == Some(k.fds[p.parentFd]) && k.faults == old(k.faults)
        && (p.missing ==> Free(old(k.nodes), k.fds[p.parentFd], p.leafName, k.umask)))
  {
    hide Walk, Reached, SawSafe, GrownBelow, LeafMade, Kept, OnlyMode, Split, SafeAt;
    made, bound := None, None;
    LogUntouched(k.log, k.fds[p.parentFd], p.leafName, made, bound);
    ok := k.EnsureAccount();
    if ok {
      k.Rearrange(between);
      var v;
      v, made, bound := EstablishDataDir(k, p);
      ok := v == Established;
    }
  }

  predicate Provides(nodes: Inodes, root: Ino, dir: string, leafName: string, umask: bv12, service: Option<int>) {
    && Acceptable(nodes, root, dir, leafName, service)
    && var parent := Leads(nodes, root, dir).value;
       leafName !in nodes[parent].entries ==> Welcomes(nodes, parent, umask)
  }

  /** Inspection, whatever happens meanwhile, establishment, and the deferred close.  However the
      file system is rearranged between the phases, the descriptor table ends as it began, and what
      is changed is the mode of the very leaf that was inspected, or entries made below the very
      parent that was. */
  method Provide(k: Kernel, dir: string, leafName: string, between: Option<Inodes>)
    returns (ok: bool, ghost parent: Option<Ino>, ghost inspected: Option<Ino>, ghost made: Option<Ino>,
             ghost bound: Option<Ino>)
    requires k.Valid()
    modifies k`nodes, k`faults, k`fds, k`log, k`service, k`past
    ensures k.Valid() && k.fds == old(k.fds)
    ensures parent.Some? ==> Reached(k.past, |old(k.past)|, k.root, Split(dir, '/'), parent.value)
    ensures parent.Some? && inspected.Some? ==> SawChild(k.past, |old(k.past)|, parent.value, leafName, inspected.value)
    ensures k.company.Alone? && parent.Some? ==> Walk(old(k.nodes), k.root, Split(dir, '/')) == parent
    ensures k.company.Alone? && parent.Some? && inspected.Some? ==>
      Child(old(k.nodes), parent.value, leafName) == inspected
    ensures parent.None? ==> !ok && k.log == old(k.log)
    ensures parent.Some? && inspected.Some? ==>
      k.log == if ok then old(k.log) + [Moded(inspected.value)] else old(k.log)
    ensures parent.Some? && inspected.None? ==> GrownBelow(old(k.log), k.log, parent.value, leafName, made, bound)
    ensures bound.Some? && k.company != Anyone ==> bound == made
    ensures old(k.faults) <= k.faults
    // Alone, the directory is provided exactly if it is acceptable, a new one can be made if there is
    // none, and no call fails.
    ensures k.company.Alone? && between.None? ==>
      (ok <==> Provides(old(k.nodes), k.root, dir, leafName, k.umask, old(k.service)) && k.faults == old(k.faults))
  {
    hide Walk, Child, Reached, SawChild, SawSafe, SawSuitable, SawMissing, Safe, Suitable;
    hide GrownBelow, Split, Moved, Looked;
    parent, inspected, made, bound := None, None, None, None;
    var plan := InspectDataDir(k, dir, leafName);
    if plan.None? { return false, parent, inspected, made, bound; }
    parent := Some(k.fds[plan.value.parentFd]);
    inspected := if plan.value.missing then None else Some(k.fds[plan.value.leafFd]);
    AloneSame(old(k.past), k.past, old(k.nodes), k.nodes, k.company);
    Grown(old(k.past), k.past, old(k.nodes), k.nodes, k.company);
    ghost var past := k.past;
    if k.company.Alone? {
      ChildIs(old(k.nodes), parent.value, leafName);
    }
    ok, made, bound := Proceed(k, plan.value, between);
    ReachedLater(past, k.past, |old(k.past)|, k.root, Split(dir, '/'), parent.value);
    if inspected.Some? {
      ChildLater(past, k.past, |old(k.past)|, parent.value, leafName, inspected.value);
    }
    plan.value.Close(k);
  }

  lemma ChildLater(past: seq<Inodes>, past': seq<Inodes>, from: nat, dir: Ino, name: string, ino: Ino)
    requires past <= past' && SawChild(past, from, dir, name, ino)
    ensures SawChild(past', from, dir, name, ino)
  {
    hide Child;
    var i :| from <= i < |past| && Child(past[i], dir, name) == Some(ino);
    assert past'[i] == past[i];
  }
}
