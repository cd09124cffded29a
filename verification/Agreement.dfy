/** When an in-memory session table and the durable session list say the same, and which changes
    keep it so. */
module Agreement {
  import opened Slices
  import opened Store

  datatype User = User(id: string, email: string)

  datatype Record = Record(csrf: string, expires: int, user: User)

  type Table = map<string, Record>

  /** The account model, which this agent does not change: which identities may sign in, and the
      e-mail address shown for an account. */
  datatype Accounts = Accounts(active: (string, string) -> bool, emailOf: string -> string)

  function RecordOf(a: Accounts, e: AuthSession): Record {
    Record(e.csrf, e.expiresAt, User(e.accountId, a.emailOf(e.accountId)))
  }

  predicate Live(a: Accounts, e: AuthSession, now: int) {
    now < e.expiresAt && a.active(e.accountId, e.identityId)
  }

  ghost predicate DistinctHashes(list: seq<AuthSession>) {
    forall i, j :: 0 <= i < j < |list| ==> list[i].tokenHash != list[j].tokenHash
  }

  /** Every session in memory is backed by a durable entry with the same hash, CSRF token, expiry
      and account. */
  ghost predicate Backed(a: Accounts, table: Table, list: seq<AuthSession>) {
    forall h :: h in table ==>
      exists e :: e in list && e.tokenHash == h && table[h] == RecordOf(a, e) && a.active(e.accountId, e.identityId)
  }

  /** Every durable entry that could still be used is in memory. */
  ghost predicate Loaded(a: Accounts, table: Table, list: seq<AuthSession>, now: int) {
    forall e :: e in list && Live(a, e, now) ==> e.tokenHash in table && table[e.tokenHash] == RecordOf(a, e)
  }

  ghost predicate Agree(a: Accounts, table: Table, list: seq<AuthSession>, now: int) {
    DistinctHashes(list) && Backed(a, table, list) && Loaded(a, table, list, now)
  }

  /** Whether a table lets a token in at a given instant. */
  predicate Accepts(table: Table, h: string, now: int) {
    h in table && now <= table[h].expires
  }

  // ----------------------------------------------------------------- filtering

  lemma {:induction false} FilterMembers<T>(xs: seq<T>, remove: T -> bool)
    ensures forall x :: x in Filter(xs, remove) <==> x in xs && !remove(x)
  {
    if xs == [] {
    } else {
      var n := |xs| - 1;
      FilterMembers(xs[..n], remove);
      assert xs == xs[..n] + [xs[n]];
    }
  }

  lemma {:induction false} FilterDistinct(list: seq<AuthSession>, remove: AuthSession -> bool)
    requires DistinctHashes(list)
    ensures DistinctHashes(Filter(list, remove))
  {
    if list == [] {
    } else {
      var n := |list| - 1;
      FilterDistinct(list[..n], remove);
      FilterMembers(list[..n], remove);
      var kept := Filter(list[..n], remove);
      forall i | 0 <= i < |kept| ensures kept[i].tokenHash != list[n].tokenHash {
        assert kept[i] in list[..n];
      }
    }
  }

  /** The table without the sessions that a predicate on its rows names. */
  function Without(table: Table, gone: (string, Record) -> bool): Table {
    map h | h in table && !gone(h, table[h]) :: table[h]
  }

  /** Removing from the table and from the list what answers the same description. */
  lemma FilterAgrees(a: Accounts, table: Table, list: seq<AuthSession>, now: int,
                     gone: (string, Record) -> bool, remove: AuthSession -> bool)
    requires Agree(a, table, list, now)
    requires forall e: AuthSession :: remove(e) == gone(e.tokenHash, RecordOf(a, e))
    ensures Agree(a, Without(table, gone), Filter(list, remove), now)
  {
    FilterMembers(list, remove);
    FilterDistinct(list, remove);
    var table', list' := Without(table, gone), Filter(list, remove);
    forall h | h in table'
      ensures exists e :: e in list' && e.tokenHash == h && table'[h] == RecordOf(a, e)
                            && a.active(e.accountId, e.identityId)
    {
      var e :| e in list && e.tokenHash == h && table[h] == RecordOf(a, e) && a.active(e.accountId, e.identityId);
      assert e in list';
    }
  }

  /** A session added to both. */
  lemma AddAgrees(a: Accounts, table: Table, list: seq<AuthSession>, now: int, e: AuthSession)
    requires Agree(a, table, list, now)
    requires forall x :: x in list ==> x.tokenHash != e.tokenHash
    requires a.active(e.accountId, e.identityId)
    ensures e.tokenHash !in table
    ensures Agree(a, table[e.tokenHash := RecordOf(a, e)], list + [e], now)
  {
    var table', list' := table[e.tokenHash := RecordOf(a, e)], list + [e];
    forall h | h in table'
      ensures exists x :: x in list' && x.tokenHash == h && table'[h] == RecordOf(a, x)
                            && a.active(x.accountId, x.identityId)
    {
      if h == e.tokenHash {
        assert e in list';
      } else {
        var x :| x in list && x.tokenHash == h && table[h] == RecordOf(a, x) && a.active(x.accountId, x.identityId);
        assert x in list';
      }
    }
    forall i, j | 0 <= i < j < |list'| ensures list'[i].tokenHash != list'[j].tokenHash {
      assert list'[i] in list;
    }
  }

  /** A durable entry that could not be used anyway. */
  lemma SkipAgrees(a: Accounts, table: Table, list: seq<AuthSession>, now: int, e: AuthSession)
    requires Agree(a, table, list, now) && !Live(a, e, now)
    requires forall x :: x in list ==> x.tokenHash != e.tokenHash
    ensures Agree(a, table, list + [e], now)
  {
    var list' := list + [e];
    forall h | h in table
      ensures exists x :: x in list' && x.tokenHash == h && table[h] == RecordOf(a, x)
                            && a.active(x.accountId, x.identityId)
    {
      var x :| x in list && x.tokenHash == h && table[h] == RecordOf(a, x) && a.active(x.accountId, x.identityId);
      assert x in list';
    }
    forall i, j | 0 <= i < j < |list'| ensures list'[i].tokenHash != list'[j].tokenHash {
      assert list'[i] in list;
    }
  }

  /** A row that no longer lets anyone in may leave the table, whether or not the list follows. */
  lemma ForgetAgrees(a: Accounts, table: Table, list: seq<AuthSession>, now: int, h: string)
    requires Agree(a, table, list, now) && !Accepts(table, h, now)
    ensures Agree(a, table - {h}, list, now)
  {
  }

  /** An empty table agrees with a list exactly when the list holds nothing of use. */
  lemma ClearedAgrees(a: Accounts, list: seq<AuthSession>, now: int)
    requires DistinctHashes(list)
    ensures Agree(a, map[], list, now) <==> forall e :: e in list ==> !Live(a, e, now)
  {
  }

  /** Removing the sessions found by a search through the table. */
  lemma RemovedAre(table: Table, gone: (string, Record) -> bool, targets: set<string>)
    requires targets == set h | h in table && gone(h, table[h])
    ensures Without(table, gone) == table - targets
    ensures |targets| == |table| - |Without(table, gone)|
  {
    assert (table - targets).Keys == table.Keys - targets;
  }

  lemma NothingAgrees(a: Accounts, now: int)
    ensures Agree(a, map[], [], now)
  {
  }

  lemma AgreeDistinct(a: Accounts, table: Table, list: seq<AuthSession>, now: int)
    requires Agree(a, table, list, now)
    ensures DistinctHashes(list)
  {
  }

  lemma HashIsNew(list: seq<AuthSession>, i: nat)
    requires DistinctHashes(list) && i < |list|
    ensures forall x :: x in list[..i] ==> x.tokenHash != list[i].tokenHash
  {
  }

  /** A durable entry of use lets its token in. */
  lemma LiveAccepted(a: Accounts, table: Table, list: seq<AuthSession>, now: int, e: AuthSession)
    requires Agree(a, table, list, now) && e in list && Live(a, e, now)
    ensures Accepts(table, e.tokenHash, now)
  {
  }

  /** Time passing keeps agreement. */
  lemma LaterAgrees(a: Accounts, table: Table, list: seq<AuthSession>, now: int, later: int)
    requires Agree(a, table, list, now) && now <= later
    ensures Agree(a, table, list, later)
  {
  }

  /** Two tables that agree with one list accept the same tokens, except at the very instant one
      of them expires. */
  lemma SameTokens(a: Accounts, table: Table, table': Table, list: seq<AuthSession>, now: int, h: string)
    requires Agree(a, table, list, now) && Agree(a, table', list, now)
    requires h in table ==> now != table[h].expires
    requires h in table' ==> now != table'[h].expires
    ensures Accepts(table, h, now) <==> Accepts(table', h, now)
    ensures Accepts(table, h, now) ==> table[h] == table'[h]
  {
  }
}
