/** The state store.  Every update works on a private copy of the slices, so nothing a callback
    does in place reaches the store or a snapshot taken earlier; and a failed callback or save
    leaves memory and disk as they were. */
module Store {
  import opened Wrappers
  import opened Slices

  newtype byte = b: int | 0 <= b < 256

  const MAX_AUDIT := 200

  datatype AuditEntry = AuditEntry(at: int, actor: string, action: string, detail: string)

  datatype AuthSession = AuthSession(
    tokenHash: string,
    csrf: string,
    expiresAt: int,
    accountId: string,
    identityId: string)

  /** The fields without slices. */
  datatype Scalars = Scalars(installationId: string, createdAt: int, credential: string, nextSequence: int)

  datatype State = State(
    scalars: Scalars,
    audit: Slice<AuditEntry>,
    sessions: Slice<AuthSession>,
    queue: Slice<Slice<byte>>)

  /** What a state says, free of arrays; also what is on disk. */
  datatype Model = Model(scalars: Scalars, audit: seq<AuditEntry>, sessions: seq<AuthSession>, queue: seq<seq<byte>>)

  // -------------------------------------------------------------- footprints

  /** The arrays of queued bodies. */
  ghost function Bodies(items: seq<Slice<byte>>): set<object> {
    set x | x in items :: x.arr as object
  }

  /** Queued bodies read as the given byte strings. */
  ghost predicate BodiesRead(items: seq<Slice<byte>>, queue: seq<seq<byte>>)
    reads Bodies(items)
  {
    && |items| == |queue|
    && forall i :: 0 <= i < |items| ==> items[i].Ok() && items[i].View() == queue[i]
  }

  /** No two queued bodies share an array. */
  ghost predicate Separate(items: seq<Slice<byte>>) {
    forall i, j :: 0 <= i < j < |items| ==> items[i].arr != items[j].arr
  }

  ghost predicate Windows(st: State) {
    st.audit.Ok() && st.sessions.Ok() && st.queue.Ok()
  }

  /** Every array a state can read. */
  ghost function Arrays(st: State): set<object>
    requires st.queue.Ok()
    reads st.queue.arr
  {
    {st.audit.arr as object, st.sessions.arr, st.queue.arr} + Bodies(st.queue.View())
  }

  /** The state's slices read as the model says. */
  ghost predicate Reads(st: State, m: Model)
    requires Windows(st)
    reads Arrays(st)
  {
    && st.scalars == m.scalars
    && st.audit.View() == m.audit
    && st.sessions.View() == m.sessions
    && BodiesRead(st.queue.View(), m.queue)
  }

  // ------------------------------------------------------------------- edits

  /** What an update callback can do to the state it is given. */
  datatype Edit =
    | AppendAudit(entry: AuditEntry)
    | AppendSession(session: AuthSession)
    | FilterSessions(remove: AuthSession -> bool)
    | SetSession(index: nat, session: AuthSession)
    | ClearSessions
    | Enqueue(body: seq<byte>)
    | PopHead
    | SetByte(index: nat, position: nat, value: byte)
    | SetScalars(scalars: Scalars)
    | Refuse

  /** The newest rows. */
  function Newest(audit: seq<AuditEntry>): seq<AuditEntry> {
    if |audit| > MAX_AUDIT then audit[|audit| - MAX_AUDIT..] else audit
  }

  /** An edit on values; None is an error from the callback (or an index out of range, which
      ends it the same way). */
  function Edited(m: Model, e: Edit): Option<Model> {
    match e
    case AppendAudit(entry) => Some(m.(audit := Newest(m.audit + [entry])))
    case AppendSession(session) => Some(m.(sessions := m.sessions + [session]))
    case FilterSessions(remove) => Some(m.(sessions := Filter(m.sessions, remove)))
    case SetSession(index, session) =>
      if index < |m.sessions| then Some(m.(sessions := m.sessions[index := session])) else None
    case ClearSessions => Some(m.(sessions := []))
    case Enqueue(body) => Some(m.(queue := m.queue + [body]))
    case PopHead => Some(if m.queue == [] then m else m.(queue := m.queue[1..]))
    case SetByte(index, position, value) =>
      if index < |m.queue| && position < |m.queue[index]|
      then Some(m.(queue := m.queue[index := m.queue[index][position := value]]))
      else None
    case SetScalars(scalars) => Some(m.(scalars := scalars))
    case Refuse => None
  }

  function AllEdited(m: Model, edits: seq<Edit>): Option<Model>
    decreases |edits|
  {
    if edits == [] then Some(m)
    else
      match Edited(m, edits[0])
      case None => None
      case Some(next) => AllEdited(next, edits[1..])
  }

  /** A callback's edits come one after the other. */
  lemma {:induction false} EditsCompose(m: Model, first: seq<Edit>, later: seq<Edit>)
    ensures AllEdited(m, first + later) ==
      match AllEdited(m, first)
      case None => None
      case Some(next) => AllEdited(next, later)
    decreases |first|
  {
    if first == [] {
      assert first + later == later;
    } else {
      assert (first + later)[1..] == first[1..] + later;
      if Edited(m, first[0]).Some? {
        EditsCompose(Edited(m, first[0]).value, first[1..], later);
      }
    }
  }

  /** At most two hundred rows are kept, and only the oldest are dropped. */
  lemma NewestKept(audit: seq<AuditEntry>)
    ensures |Newest(audit)| == (if |audit| > 200 then 200 else |audit|)
    ensures Newest(audit) == audit[|audit| - |Newest(audit)|..]
  {
  }

  // ------------------------------------------------------- edits on slices

  /** `AppendAudit`: append, then move the window past the oldest rows. */
  method EditAudit(s: Slice<AuditEntry>, entry: AuditEntry) returns (s': Slice<AuditEntry>)
    requires s.Ok()
    modifies s.arr
    ensures s'.Ok() && s'.View() == Newest(old(s.View()) + [entry])
    ensures s'.arr == s.arr || fresh(s'.arr)
  {
    s' := Append(s, entry);
    if s'.len > MAX_AUDIT {
      var cut := s'.len - MAX_AUDIT;
      ghost var all := s'.View();
      s' := Slice(s'.arr, s'.off + cut, MAX_AUDIT, s'.cap - cut);
      assert s'.View() == all[cut..];
    }
  }

  method EditSessions(s: Slice<AuthSession>, e: Edit, ghost m: Model) returns (s': Slice<AuthSession>, ok: bool)
    requires s.Ok() && s.View() == m.sessions
    requires e.AppendSession? || e.FilterSessions? || e.SetSession? || e.ClearSessions?
    modifies s.arr
    ensures s'.arr == s.arr || fresh(s'.arr)
    ensures ok == Edited(m, e).Some?
    ensures ok ==> s'.Ok() && Edited(m, e) == Some(m.(sessions := s'.View()))
  {
    s', ok := s, true;
    match e {
      case AppendSession(session) =>
        s' := Append(s, session);
      case FilterSessions(remove) =>
        s' := FilterInPlace(s, remove);
      case SetSession(index, session) =>
        ok := index < s.len;
        if ok {
          s.arr[s.off + index] := session;
          assert s.View() == m.sessions[index := session];
        }
      case ClearSessions =>
        var none := new AuthSession[0];
        s' := Slice(none, 0, 0, 0);
    }
  }

  /** A fresh slice holding a body. */
  method NewBody(body: seq<byte>) returns (item: Slice<byte>)
    ensures fresh(item.arr) && item.Ok() && item.View() == body
  {
    var arr := new byte[|body|](i requires 0 <= i < |body| => body[i]);
    item := Slice(arr, 0, |body|, |body|);
    assert item.View() == body;
  }

  /** A queue that a single update may change: its bodies lie apart from each other and from
      the array that lists them. */
  ghost predicate Holding(q: Slice<Slice<byte>>, queue: seq<seq<byte>>)
    requires q.Ok()
    reads q.arr, Bodies(q.View())
  {
    && BodiesRead(q.View(), queue)
    && Separate(q.View())
    && q.arr as object !in Bodies(q.View())
  }

  lemma NoneSeparate(items: seq<Slice<byte>>)
    requires items == []
    ensures Separate(items)
  {
  }

  lemma SeparateSnoc(items: seq<Slice<byte>>, item: Slice<byte>)
    requires Separate(items) && forall i :: 0 <= i < |items| ==> items[i].arr != item.arr
    ensures Separate(items + [item])
  {
  }

  method EnqueueBody(q: Slice<Slice<byte>>, body: seq<byte>, ghost queue: seq<seq<byte>>)
    returns (q': Slice<Slice<byte>>)
    requires q.Ok() && Holding(q, queue)
    modifies q.arr
    ensures q'.Ok() && Holding(q', queue + [body])
    ensures q'.arr == q.arr || fresh(q'.arr)
    ensures fresh(Bodies(q'.View()) - Bodies(old(q.View())))
  {
    hide Separate;
    ghost var items := q.View();
    var item := NewBody(body);
    SeparateSnoc(items, item);
    assert BodiesRead(items, queue);
    q' := Append(q, item);
    assert q'.View() == items + [item];
    assert BodiesRead(items, queue);
  }

  method PopBody(q: Slice<Slice<byte>>, ghost queue: seq<seq<byte>>) returns (q': Slice<Slice<byte>>)
    requires q.Ok() && Holding(q, queue)
    ensures q'.Ok() && Holding(q', if queue == [] then [] else queue[1..])
    ensures q'.arr == q.arr && Bodies(q'.View()) <= Bodies(q.View())
  {
    q' := q;
    if q.len > 0 {
      q' := Slice(q.arr, q.off + 1, q.len - 1, q.cap - 1);
      assert q'.View() == q.View()[1..];
      assert forall i :: 0 <= i < q'.len ==> q'.View()[i] == q.View()[i + 1];
    }
  }

  method SetBodyByte(q: Slice<Slice<byte>>, index: nat, position: nat, value: byte, ghost queue: seq<seq<byte>>)
    requires q.Ok() && Holding(q, queue)
    requires index < |queue| && position < |queue[index]|
    modifies q.View()[index].arr
    ensures Holding(q, queue[index := queue[index][position := value]])
    ensures q.View() == old(q.View())
  {
    ghost var items := q.View();
    var item := q.arr[q.off + index];
    assert item == items[index];
    item.arr[item.off + position] := value;
    assert item.View() == queue[index][position := value];
    assert q.View() == items;
    assert forall i :: 0 <= i < |items| && i != index ==> items[i].View() == queue[i];
  }

  /** What the three edits of the queue compute. */
  lemma QueueEdited(m: Model, e: Edit)
    ensures e.Enqueue? ==> Edited(m, e) == Some(m.(queue := m.queue + [e.body]))
    ensures e.PopHead? ==> Edited(m, e) == Some(m.(queue := if m.queue == [] then [] else m.queue[1..]))
    ensures e.SetByte? ==>
      Edited(m, e) == if e.index < |m.queue| && e.position < |m.queue[e.index]|
        then Some(m.(queue := m.queue[e.index := m.queue[e.index][e.position := e.value]])) else None
  {
  }

  method EditQueue(q: Slice<Slice<byte>>, e: Edit, ghost m: Model) returns (q': Slice<Slice<byte>>, ok: bool)
    requires q.Ok() && Holding(q, m.queue)
    requires e.Enqueue? || e.PopHead? || e.SetByte?
    modifies q.arr, Bodies(q.View())
    ensures q'.Ok() && (q'.arr == q.arr || fresh(q'.arr))
    ensures fresh(Bodies(q'.View()) - Bodies(old(q.View())))
    ensures ok == Edited(m, e).Some?
    ensures ok ==> Edited(m, e).value == m.(queue := Edited(m, e).value.queue)
    ensures ok ==> Holding(q', Edited(m, e).value.queue)
  {
    hide Holding, BodiesRead, Separate, Edited;
    QueueEdited(m, e);
    q', ok := q, true;
    match e {
      case Enqueue(body) =>
        q' := EnqueueBody(q, body, m.queue);
      case PopHead =>
        q' := PopBody(q, m.queue);
      case SetByte(index, position, value) =>
        HoldingLengths(q, m.queue);
        ok := index < q.len && position < q.arr[q.off + index].len;
        if ok {
          SetBodyByte(q, index, position, value, m.queue);
        }
    }
  }

  lemma HoldingLengths(q: Slice<Slice<byte>>, queue: seq<seq<byte>>)
    requires q.Ok() && Holding(q, queue)
    ensures |queue| == q.len
    ensures forall i :: 0 <= i < q.len ==>
      && q.arr[q.off + i] == q.View()[i] && q.arr[q.off + i].len == |queue[i]|
      && q.View()[i].arr as object in Bodies(q.View())
  {
  }

  /** A state that a single update may change in place. */
  ghost predicate Private(st: State, m: Model)
    requires Windows(st)
    reads Arrays(st)
  {
    && st.scalars == m.scalars
    && st.audit.View() == m.audit
    && st.sessions.View() == m.sessions
    && Holding(st.queue, m.queue)
  }

  method OnAudit(st: State, entry: AuditEntry, ghost m: Model) returns (st': State)
    requires Windows(st) && Private(st, m)
    modifies st.audit.arr
    ensures Windows(st') && fresh(Arrays(st') - old(Arrays(st)))
    ensures Private(st', Edited(m, AppendAudit(entry)).value)
  {
    var audit := EditAudit(st.audit, entry);
    st' := st.(audit := audit);
  }

  method OnSessions(st: State, e: Edit, ghost m: Model) returns (st': State, ok: bool)
    requires Windows(st) && Private(st, m)
    requires e.AppendSession? || e.FilterSessions? || e.SetSession? || e.ClearSessions?
    modifies st.sessions.arr
    ensures ok == Edited(m, e).Some?
    ensures Windows(st') && fresh(Arrays(st') - old(Arrays(st)))
    ensures ok ==> Private(st', Edited(m, e).value)
  {
    var sessions;
    sessions, ok := EditSessions(st.sessions, e, m);
    st' := if ok then st.(sessions := sessions) else st;
  }

  method OnQueue(st: State, e: Edit, ghost m: Model) returns (st': State, ok: bool)
    requires Windows(st) && Private(st, m)
    requires e.Enqueue? || e.PopHead? || e.SetByte?
    modifies st.queue.arr, Bodies(st.queue.View())
    ensures ok == Edited(m, e).Some?
    ensures Windows(st') && fresh(Arrays(st') - old(Arrays(st)))
    ensures ok ==> Private(st', Edited(m, e).value)
  {
    var queue;
    queue, ok := EditQueue(st.queue, e, m);
    st' := st.(queue := queue);
  }

  /** One edit, in place on a private state. */
  method Perform(st: State, e: Edit, ghost m: Model) returns (st': State, ok: bool)
    requires Windows(st) && Private(st, m)
    modifies Arrays(st)
    ensures ok == Edited(m, e).Some?
    ensures Windows(st') && fresh(Arrays(st') - old(Arrays(st)))
    ensures ok ==> Private(st', Edited(m, e).value)
  {
    if e.AppendAudit? {
      st' := OnAudit(st, e.entry, m);
      ok := true;
    } else if e.SetScalars? {
      st', ok := st.(scalars := e.scalars), true;
    } else if e.Refuse? {
      st', ok := st, false;
    } else if e.Enqueue? || e.PopHead? || e.SetByte? {
      st', ok := OnQueue(st, e, m);
    } else {
      st', ok := OnSessions(st, e, m);
    }
  }

  // ---------------------------------------------------------------- the store

  /** Copies the queue and every body in it. */
  method CloneQueue(q: Slice<Slice<byte>>, ghost queue: seq<seq<byte>>) returns (q': Slice<Slice<byte>>)
    requires q.Ok() && BodiesRead(q.View(), queue)
    ensures q'.Ok() && Holding(q', queue)
    ensures fresh(q'.arr) && fresh(Bodies(q'.View()))
  {
    hide Separate;
    var none := new byte[0];
    var arr := new Slice<byte>[q.len](_ => Slice(none, 0, 0, 0));
    assert Separate(arr[..0]) by { NoneSeparate(arr[..0]); }
    for i := 0 to q.len
      invariant forall j :: 0 <= j < i ==> fresh(arr[j].arr) && arr[j].Ok() && arr[j].View() == queue[j]
      invariant Separate(arr[..i])
    {
      assert q.arr[q.off + i] == q.View()[i];
      var copy := Clone(q.arr[q.off + i]);
      ghost var done := arr[..i];
      arr[i] := copy;
      SeparateSnoc(done, copy);
      assert arr[..i + 1] == done + [copy];
    }
    q' := Slice(arr, 0, q.len, q.len);
    assert q'.View() == arr[..q.len];
  }

  /** `cloneData`. */
  method CloneData(st: State, ghost m: Model) returns (next: State)
    requires Windows(st) && Reads(st, m)
    ensures Windows(next) && Private(next, m) && fresh(Arrays(next))
  {
    hide Holding, Separate;
    var audit := Clone(st.audit);
    var sessions := Clone(st.sessions);
    var queue := CloneQueue(st.queue, m.queue);
    next := State(st.scalars, audit, sessions, queue);
  }

  /** The edits of a callback, one after the other. */
  method PerformAll(st: State, edits: seq<Edit>, ghost m: Model) returns (st': State, ok: bool)
    requires Windows(st) && Private(st, m)
    modifies Arrays(st)
    ensures Windows(st') && fresh(Arrays(st') - old(Arrays(st)))
    ensures ok == AllEdited(m, edits).Some?
    ensures ok ==> Private(st', AllEdited(m, edits).value)
    decreases |edits|
  {
    hide Holding, Edited, Reads;
    if edits == [] { return st, true; }
    st', ok := Perform(st, edits[0], m);
    if ok {
      st', ok := PerformAll(st', edits[1..], Edited(m, edits[0]).value);
    }
  }

  /** Runs a callback on a private copy. */
  method RunCallback(st: State, edits: seq<Edit>, ghost m: Model) returns (next: State, ok: bool)
    requires Windows(st) && Reads(st, m)
    ensures Windows(next) && fresh(Arrays(next))
    ensures ok == AllEdited(m, edits).Some?
    ensures ok ==> Private(next, AllEdited(m, edits).value)
  {
    hide Holding, BodiesRead, Separate;
    next := CloneData(st, m);
    next, ok := PerformAll(next, edits, m);
  }

  lemma PrivateReads(st: State, m: Model)
    requires Windows(st) && Private(st, m)
    ensures Reads(st, m)
  {
  }

  lemma ReadsSessions(st: State, m: Model)
    requires Windows(st) && Reads(st, m)
    ensures st.sessions.Ok() && st.sessions.View() == m.sessions
  {
  }

  /** What a save writes. */
  method Encode(st: State, ghost m: Model) returns (e: Model)
    requires Windows(st) && Reads(st, m)
    ensures e == m
  {
    var audit := st.audit.arr[st.audit.off..st.audit.off + st.audit.len];
    var sessions := st.sessions.arr[st.sessions.off..st.sessions.off + st.sessions.len];
    var queue: seq<seq<byte>> := [];
    for i := 0 to st.queue.len
      invariant queue == m.queue[..i]
    {
      var item := st.queue.arr[st.queue.off + i];
      assert item == st.queue.View()[i];
      queue := queue + [item.arr[item.off..item.off + item.len]];
    }
    e := Model(st.scalars, audit, sessions, queue);
  }

  /** A state with empty slices. */
  method Empty(scalars: Scalars) returns (st: State)
    ensures Windows(st) && Private(st, Model(scalars, [], [], [])) && fresh(Arrays(st))
  {
    var audit, sessions, queue := new AuditEntry[0], new AuthSession[0], new Slice<byte>[0];
    st := State(scalars, Slice(audit, 0, 0, 0), Slice(sessions, 0, 0, 0), Slice(queue, 0, 0, 0));
  }

  class Store {
    var data: State
    /** The file: replaced as a whole by a save, or not at all. */
    var disk: Model
    /** What the store says, in memory and on disk. */
    ghost var model: Model
    /** The arrays the store can read. */
    ghost var repr: set<object>

    ghost predicate Valid()
      reads this, repr
    {
      Windows(data) && data.queue.arr in repr && Arrays(data) == repr && Reads(data, model) && disk == model
    }

    constructor (scalars: Scalars)
      ensures Valid() && fresh(repr) && model == Model(scalars, [], [], [])
    {
      var st := Empty(scalars);
      data, disk, model := st, Model(scalars, [], [], []), Model(scalars, [], [], []);
      repr := Arrays(st);
    }

    /** Callers keep what this returns; it shares its arrays with the store. */
    method Snapshot() returns (st: State)
      requires Valid()
      ensures st == data && Windows(st) && Reads(st, model)
    {
      st := data;
    }

    /** Writes a new file and renames it over the old one; whether the disk takes it, before the
        rename, is an input. */
    method SaveState(m: Model, saves: bool) returns (ok: bool)
      modifies this`disk
      ensures ok == saves && disk == if saves then m else old(disk)
    {
      ok := saves;
      if ok {
        disk := m;
      }
    }

    /** Makes a state current that has just been saved. */
    method Adopt(next: State, ghost m: Model)
      requires Windows(next) && Reads(next, m) && disk == m
      modifies this`data, this`model, this`repr
      ensures Valid() && repr == Arrays(next) && data == next && model == m
    {
      hide BodiesRead;
      data, model, repr := next, m, Arrays(next);
    }

    /** Saves a new state and, if that succeeds, makes it current. */
    method Commit(next: State, ghost m: Model, saves: bool) returns (ok: bool)
      requires Valid() && Windows(next) && Private(next, m)
      modifies this
      ensures ok == saves
      ensures Valid() && repr == if ok then Arrays(next) else old(repr)
      ensures if ok then data == next && model == m && disk == m
              else data == old(data) && model == old(model) && disk == old(disk)
    {
      hide Private, Holding, Separate;
      PrivateReads(next, m);
      var encoded := Encode(next, m);
      ok := SaveState(encoded, saves);
      if ok {
        Adopt(next, m);
      }
    }

    /** Runs a callback on a private copy and commits it, in memory and on disk together.  Only
        the store itself changes: no array that existed before is written. */
    method Update(edits: seq<Edit>, saves: bool) returns (ok: bool)
      requires Valid()
      modifies this
      ensures Valid() && fresh(repr - old(repr))
      ensures ok <==> AllEdited(old(model), edits).Some? && saves
      ensures ok ==> AllEdited(old(model), edits) == Some(model)
      ensures !ok ==> data == old(data) && model == old(model) && disk == old(disk)
    {
      var next;
      ghost var m := AllEdited(model, edits);
      next, ok := RunCallback(data, edits, model);
      assert Valid() && data == old(data) && model == old(model) && disk == old(disk);
      if ok {
        ok := Commit(next, m.value, saves);
      }
    }

    /** Back to the first-run state; the installation keeps its identity. */
    method Reset(confirm: string, saves: bool) returns (ok: bool)
      requires Valid()
      modifies this
      ensures Valid() && fresh(repr - old(repr))
      ensures ok <==> confirm == old(model.scalars.installationId) && saves
      ensures !ok ==> data == old(data) && model == old(model) && disk == old(disk)
      ensures ok ==> model == Model(old(model.scalars).(credential := "", nextSequence := 1), [], [], [])
    {
      if confirm != data.scalars.installationId { return false; }
      var scalars := data.scalars.(credential := "", nextSequence := 1);
      var next := Empty(scalars);
      ok := Commit(next, Model(scalars, [], [], []), saves);
    }
  }

  /** What any number of updates make of the state: those that a callback refuses or the disk does not
      take change nothing. */
  function AfterUpdates(m: Model, updates: seq<(seq<Edit>, bool)>): Model {
    if updates == [] then m
    else
      var n := |updates| - 1;
      var before, next := AfterUpdates(m, updates[..n]), AllEdited(AfterUpdates(m, updates[..n]), updates[n].0);
      if next.Some? && updates[n].1 then next.value else before
  }

  /** Any number of updates, successful or not, whatever their callbacks do to the slices they
      are given: an earlier snapshot still reads exactly what it read. */
  method SnapshotStands(store: Store, snap: State, ghost m: Model, updates: seq<(seq<Edit>, bool)>)
    requires store.Valid() && Windows(snap) && Reads(snap, m)
    modifies store
    ensures store.Valid() && Reads(snap, m)
    ensures store.model == AfterUpdates(old(store.model), updates)
  {
    hide Store.Valid, AllEdited;
    for i := 0 to |updates|
      invariant store.Valid() && Reads(snap, m)
      invariant store.model == AfterUpdates(old(store.model), updates[..i])
    {
      assert updates[..i + 1][..i] == updates[..i];
      var _ := store.Update(updates[i].0, updates[i].1);
    }
    assert updates[..|updates|] == updates;
  }
}
