/** Directories and descriptors, as the kernel keeps them.  Other processes may rearrange the file
    system between any two system calls; descriptors stay bound to the inodes they were opened on.
    Closing a descriptor that is not open is an error, so a method that restores the descriptor
    table has closed each descriptor it opened exactly once. */
module Kernel {
  import opened Wrappers

  type Ino = nat

  type Table = map<int, Ino>

  type Inodes = map<Ino, Node>

  const PRIVATE: bv12 := 0x1C0        // rwx------
  const OTHERS_WRITE: bv12 := 0x012   // ----w--w-
  const SET_GROUP: bv12 := 0x400      // the set-group-ID bit, which a new directory inherits

  datatype Node = Dir(entries: map<string, Ino>, mode: bv12, uid: int) | Link | Other

  datatype Info = Info(isDir: bool, isLink: bool, mode: bv12, uid: int)

  datatype Errno = Missing | Failure

  /** What the installer itself changes; `Made` names the inode that was made. */
  datatype Mutation =
    | Made(parent: Ino, name: string, ino: Ino)
    | Removed(parent: Ino, name: string)
    | Moded(ino: Ino)
    | Owned(ino: Ino)

  /** Who else is at work: nobody, only processes without root's rights, or anyone. */
  datatype Company = Alone | Untrusted | Anyone

  /** The directory an entry leads to, symbolic links not followed. */
  function Child(nodes: Inodes, dir: Ino, name: string): Option<Ino> {
    if dir in nodes && nodes[dir].Dir? && name in nodes[dir].entries
       && nodes[dir].entries[name] in nodes && nodes[nodes[dir].entries[name]].Dir?
    then Some(nodes[dir].entries[name])
    else None
  }

  function InfoOf(node: Node): Info {
    if node.Dir? then Info(true, false, node.mode, node.uid) else Info(false, node.Link?, 0, 0)
  }

  /** An entry that leads to a directory with nothing in it. */
  predicate EmptyDir(nodes: Inodes, dir: Ino, name: string) {
    Child(nodes, dir, name).Some? && nodes[Child(nodes, dir, name).value].entries == map[]
  }

  function Fault(b: bool): nat { if b then 1 else 0 }

  /** A directory in which only root can replace an entry. */
  predicate Safe(node: Node) { node.Dir? && node.uid == 0 && node.mode & OTHERS_WRITE == 0 }

  predicate SafeAt(nodes: Inodes, ino: Ino) { ino in nodes && Safe(nodes[ino]) }

  /** What others may have done to the file system: processes without root's rights cannot touch a
      directory that only root may write. */
  ghost predicate Moved(before: Inodes, after: Inodes, company: Company) {
    match company
    case Alone => after == before
    case Untrusted => forall i :: i in before && Safe(before[i]) ==> i in after && after[i] == before[i]
    case Anyone => true
  }

  /** One more system call: the file system as it found it is recorded. */
  ghost predicate Called(past: seq<Inodes>, past': seq<Inodes>, nodes: Inodes, company: Company) {
    |past'| == |past| + 1 && past <= past' && Moved(nodes, past'[|past|], company)
  }

  function WithChild(nodes: Inodes, dir: Ino, name: string, ino: Ino, node: Node): Inodes
    requires dir in nodes && nodes[dir].Dir?
  {
    nodes[dir := nodes[dir].(entries := nodes[dir].entries[name := ino])][ino := node]
  }

  function WithMode(nodes: Inodes, ino: Ino): Inodes
    requires ino in nodes && nodes[ino].Dir?
  {
    nodes[ino := nodes[ino].(mode := PRIVATE)]
  }

  function WithOwner(nodes: Inodes, ino: Ino, uid: int): Inodes
    requires ino in nodes && nodes[ino].Dir?
  {
    nodes[ino := nodes[ino].(uid := uid)]
  }

  function WithoutEntry(nodes: Inodes, dir: Ino, name: string): Inodes
    requires dir in nodes && nodes[dir].Dir?
  {
    nodes[dir := nodes[dir].(entries := nodes[dir].entries - {name})]
  }

  /** A directory that has just been made below one of such a mode. */
  function NewDir(parent: bv12, umask: bv12): Node { Dir(map[], (PRIVATE & !umask) | (parent & SET_GROUP), 0) }

  ghost predicate Created(nodes: Inodes, dir: Ino, name: string, ino: Ino, nodes': Inodes, umask: bv12) {
    && dir in nodes && nodes[dir].Dir? && name !in nodes[dir].entries && ino !in nodes
    && nodes' == WithChild(nodes, dir, name, ino, NewDir(nodes[dir].mode, umask))
  }

  class Kernel {
    var nodes: Inodes
    var fds: Table
    var service: Option<int>
    const root: Ino
    const umask: bv12
    var company: Company
    /** What the installer has changed so far. */
    ghost var log: seq<Mutation>
    /** The file system as each system call so far found it. */
    ghost var past: seq<Inodes>
    /** How many system calls so far have failed for no reason of their own. */
    ghost var faults: nat

    ghost predicate Valid()
      reads this
    {
      && root in nodes && nodes[root].Dir?
      && forall fd :: fd in fds ==> fds[fd] in nodes && nodes[fds[fd]].Dir?
    }

    constructor (nodes: Inodes, root: Ino, umask: bv12, service: Option<int>, company: Company)
      requires root in nodes && nodes[root].Dir?
      ensures Valid() && fds == map[] && log == [] && past == [] && faults == 0 && this.company == company
    {
      this.nodes, this.root, this.umask, this.service, this.company := nodes, root, umask, service, company;
      fds, log, past, faults := map[], [], [], 0;
    }

    /** Other processes before a system call. */
    method Interfere()
      requires Valid()
      modifies this`nodes, this`past
      ensures Valid() && Moved(old(nodes), nodes, company) && past == old(past) + [nodes]
    {
      if company != Alone {
        var other: Inodes := *;
        if root in other && other[root].Dir?
           && (forall fd :: fd in fds.Keys ==> fds[fd] in other && other[fds[fd]].Dir?)
           && (company == Anyone
               || forall i :: i in nodes.Keys && Safe(nodes[i]) ==> i in other && other[i] == nodes[i])
        {
          nodes := other;
        }
      }
      past := past + [nodes];
    }

    /** What others make of the file system in the meantime: anything at all, but open directories stay
        directories. */
    method Rearrange(other: Option<Inodes>)
      requires Valid()
      modifies this`nodes
      ensures Valid() && (other.None? ==> nodes == old(nodes))
    {
      if other.Some? && root in other.value && other.value[root].Dir?
         && (forall fd :: fd in fds.Keys ==> fds[fd] in other.value && other.value[fds[fd]].Dir?)
      {
        nodes := other.value;
      }
    }

    // --------------------------------------------------------- system calls

    /** Binds a descriptor number that is not in use. */
    method Bind(ino: Ino) returns (r: Option<int>)
      requires Valid() && ino in nodes && nodes[ino].Dir?
      modifies this`fds, this`faults
      ensures Valid() && faults == old(faults) + Fault(r.None?)
      ensures r.None? ==> fds == old(fds)
      ensures r.Some? ==> r.value >= 0 && r.value !in old(fds) && fds == old(fds)[r.value := ino]
    {
      var fd: int := *;
      if fd < 0 || fd in fds {
        faults := faults + 1;
        return None;
      }
      fds := fds[fd := ino];
      r := Some(fd);
    }

    method OpenRoot() returns (r: Option<int>)
      requires Valid()
      modifies this`nodes, this`faults, this`fds, this`past
      ensures Valid() && Called(old(past), past, old(nodes), company) && nodes == past[|old(past)|]
      ensures faults == old(faults) + Fault(r.None?)
      ensures r.None? ==> fds == old(fds)
      ensures r.Some? ==> r.value >= 0 && r.value !in old(fds) && fds == old(fds)[r.value := root]
    {
      Interfere();
      r := Bind(root);
    }

    /** `openat` with O_DIRECTORY and O_NOFOLLOW. */
    method Openat(fd: int, name: string) returns (r: Option<int>)
      requires Valid() && fd in fds
      modifies this`nodes, this`faults, this`fds, this`past
      ensures Valid() && Called(old(past), past, old(nodes), company) && nodes == past[|old(past)|]
      ensures r.None? ==> fds == old(fds)
      ensures r.Some? ==> r.value >= 0 && r.value !in old(fds) && r.value in fds
      ensures r.Some? ==> fds == old(fds)[r.value := fds[r.value]]
      ensures r.Some? ==> Child(nodes, fds[fd], name) == Some(fds[r.value])
      ensures faults == old(faults) + Fault(r.None? && Child(nodes, fds[fd], name).Some?)
    {
      Interfere();
      var child := Child(nodes, fds[fd], name);
      if child.None? { return None; }
      r := Bind(child.value);
    }

    method Close(fd: int)
      requires Valid() && fd in fds
      modifies this`fds
      ensures Valid() && fds == old(fds) - {fd}
    {
      fds := fds - {fd};
    }

    method Fstat(fd: int) returns (r: Option<Info>)
      requires Valid() && fd in fds
      modifies this`nodes, this`faults, this`past
      ensures Valid() && Called(old(past), past, old(nodes), company) && nodes == past[|old(past)|]
      ensures r.Some? ==> r.value == InfoOf(nodes[fds[fd]])
      ensures faults == old(faults) + Fault(r.None?)
    {
      Interfere();
      var fault: bool := *;
      faults := faults + Fault(fault);
      r := if fault then None else Some(InfoOf(nodes[fds[fd]]));
    }

    /** `fstatat` without following a symbolic link. */
    method Fstatat(fd: int, name: string) returns (r: Result<Info, Errno>)
      requires Valid() && fd in fds
      modifies this`nodes, this`faults, this`past
      ensures Valid() && Called(old(past), past, old(nodes), company) && nodes == past[|old(past)|]
      ensures r == Err(Missing) ==> name !in nodes[fds[fd]].entries
      ensures r.Ok? ==> name in nodes[fds[fd]].entries && nodes[fds[fd]].entries[name] in nodes
      ensures r.Ok? ==> r.value == InfoOf(nodes[nodes[fds[fd]].entries[name]])
      ensures r.Ok? || r.error.Missing? ==> faults == old(faults)
      ensures r.Err? && r.error.Failure? ==>
        faults == old(faults) + 1
        || (faults == old(faults) && name in nodes[fds[fd]].entries && nodes[fds[fd]].entries[name] !in nodes)
    {
      Interfere();
      var fault: bool := *;
      var entries := nodes[fds[fd]].entries;
      if fault {
        faults := faults + 1;
        return Err(Failure);
      }
      if name !in entries { return Err(Missing); }
      r := if entries[name] in nodes then Ok(InfoOf(nodes[entries[name]])) else Err(Failure);
    }

    method Mkdirat(fd: int, name: string) returns (ok: bool, ghost ino: Ino)
      requires Valid() && fd in fds
      modifies this`nodes, this`faults, this`log, this`past
      ensures Valid() && Called(old(past), past, old(nodes), company)
      ensures log == if ok then old(log) + [Made(fds[fd], name, ino)] else old(log)
      ensures !ok ==> nodes == past[|old(past)|]
      ensures ok ==> Created(past[|old(past)|], fds[fd], name, ino, nodes, umask)
      ensures fds[fd] in past[|old(past)|] && past[|old(past)|][fds[fd]].Dir?
      ensures faults == old(faults) + Fault(!ok && name !in past[|old(past)|][fds[fd]].entries)
    {
      Interfere();
      var dir, fault: bool, made: Ino := fds[fd], *, *;
      ino := made;
      if name in nodes[dir].entries { return false, ino; }
      if fault || made in nodes {
        faults := faults + 1;
        return false, ino;
      }
      nodes := WithChild(nodes, dir, name, made, NewDir(nodes[dir].mode, umask));
      log := log + [Made(dir, name, made)];
      ok := true;
    }

    method Fchmod(fd: int) returns (ok: bool)
      requires Valid() && fd in fds
      modifies this`nodes, this`faults, this`log, this`past
      ensures Valid() && Called(old(past), past, old(nodes), company)
      ensures fds[fd] in past[|old(past)|] && past[|old(past)|][fds[fd]].Dir?
      ensures log == if ok then old(log) + [Moded(fds[fd])] else old(log)
      ensures nodes == if ok then WithMode(past[|old(past)|], fds[fd]) else past[|old(past)|]
      ensures faults == old(faults) + Fault(!ok)
    {
      Interfere();
      ok := *;
      faults := faults + Fault(!ok);
      if ok {
        nodes := WithMode(nodes, fds[fd]);
        log := log + [Moded(fds[fd])];
      }
    }

    method Fchown(fd: int) returns (ok: bool)
      requires Valid() && fd in fds
      modifies this`nodes, this`faults, this`log, this`past
      ensures Valid() && Called(old(past), past, old(nodes), company) && (ok ==> service.Some?)
      ensures fds[fd] in past[|old(past)|] && past[|old(past)|][fds[fd]].Dir?
      ensures log == if ok then old(log) + [Owned(fds[fd])] else old(log)
      ensures nodes == if ok then WithOwner(past[|old(past)|], fds[fd], service.value) else past[|old(past)|]
      ensures faults == old(faults) + Fault(!ok && service.Some?)
    {
      Interfere();
      ok := *;
      faults := faults + Fault(!ok && service.Some?);
      ok := ok && service.Some?;
      if ok {
        nodes := WithOwner(nodes, fds[fd], service.value);
        log := log + [Owned(fds[fd])];
      }
    }

    /** `unlinkat` with AT_REMOVEDIR. */
    method Rmdirat(fd: int, name: string) returns (ok: bool)
      requires Valid() && fd in fds
      modifies this`nodes, this`faults, this`log, this`past
      ensures Valid() && Called(old(past), past, old(nodes), company)
      ensures fds[fd] in past[|old(past)|] && past[|old(past)|][fds[fd]].Dir?
      ensures log == if ok then old(log) + [Removed(fds[fd], name)] else old(log)
      ensures nodes == if ok then WithoutEntry(past[|old(past)|], fds[fd], name) else past[|old(past)|]
      ensures faults == old(faults) + Fault(!ok && EmptyDir(past[|old(past)|], fds[fd], name))
    {
      Interfere();
      ok := *;
      faults := faults + Fault(!ok && EmptyDir(nodes, fds[fd], name));
      ok := ok && EmptyDir(nodes, fds[fd], name);
      if ok {
        nodes := WithoutEntry(nodes, fds[fd], name);
        log := log + [Removed(fds[fd], name)];
      }
    }

    /** The service account, created if it is missing. */
    method EnsureAccount() returns (ok: bool)
      modifies this`service, this`faults
      ensures ok ==> service.Some?
      ensures faults == old(faults) + Fault(!ok) && (old(service).Some? ==> service == old(service))
    {
      ok := *;
      faults := faults + Fault(!ok);
      var uid: int := *;
      if ok && service.None? {
        service := Some(uid);
      }
    }
  }
}
