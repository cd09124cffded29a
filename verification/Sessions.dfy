/** The session manager: an in-memory session table over the state store.  Every operation is one
    atomic step and nothing else writes the state file. */
module Sessions {
  import opened Wrappers
  import opened Slices
  import opened Store
  import opened Agreement
  import opened Throttle

  const LIFETIME := 24 * 60 * 60 * SECOND

  datatype Session = Session(token: string, csrf: string, user: User)

  datatype Principal = Principal(accountId: string, identityId: string)

  datatype Error = Throttled | Unavailable | AuditPersistence | InvalidCredentials | Refused

  // ------------------------------------------------- descriptions of sessions

  function HashIs(hash: string): (string, Record) -> bool { (h, r) => h == hash }

  function OfHash(hash: string): AuthSession -> bool { (e: AuthSession) => e.tokenHash == hash }

  function AccountIs(id: string): (string, Record) -> bool { (h, r: Record) => r.user.id == id }

  function OfAccount(id: string): AuthSession -> bool { (e: AuthSession) => e.accountId == id }

  function OtherIs(id: string, keep: string): (string, Record) -> bool {
    (h, r: Record) => r.user.id == id && h != keep
  }

  function OtherOf(id: string, keep: string): AuthSession -> bool {
    (e: AuthSession) => e.accountId == id && e.tokenHash != keep
  }

  /** The two descriptions of an account's sessions name the same ones. */
  lemma AccountsMatch(a: Accounts, id: string)
    ensures forall e: AuthSession :: OfAccount(id)(e) == AccountIs(id)(e.tokenHash, RecordOf(a, e))
    ensures forall h, r: Record :: AccountIs(id)(h, r) <==> r.user.id == id
  {
  }

  /** The two descriptions of an account's other sessions name the same ones. */
  lemma OthersMatch(a: Accounts, id: string, keep: string)
    ensures forall e: AuthSession :: OtherOf(id, keep)(e) == OtherIs(id, keep)(e.tokenHash, RecordOf(a, e))
    ensures forall h, r: Record :: OtherIs(id, keep)(h, r) <==> r.user.id == id && Some(keep) != Some(h)
  {
  }

  // ------------------------------------------------------ what a step commits

  /** The state after one save that adds one audit row, dated `at`, and puts `list` in place of the
      durable sessions. */
  ghost predicate OneRow(m: Model, m': Model, at: int, actor: string, action: string, detail: string,
                         list: seq<AuthSession>)
  {
    m' == m.(audit := Newest(m.audit + [AuditEntry(at, actor, action, detail)]), sessions := list)
  }

  lemma TwoEdits(m: Model, row: AuditEntry, edit: Edit)
    requires edit.AppendSession? || edit.FilterSessions?
    ensures AllEdited(m, [AppendAudit(row), edit]) == Edited(Edited(m, AppendAudit(row)).value, edit)
  {
    var edits := [AppendAudit(row), edit];
    var next := Edited(m, edits[0]).value;
    assert edits[1..] == [edit];
    assert AllEdited(next, [edit]) == AllEdited(Edited(next, edit).value, [edit][1..]);
  }

  function Changed(list: seq<AuthSession>, edit: Edit): seq<AuthSession>
    requires edit.AppendSession? || edit.FilterSessions?
  {
    if edit.AppendSession? then list + [edit.session] else Filter(list, edit.remove)
  }

  /** What the world does during a login: two clock readings, whether the account file can be
      read, its verdict on a password, the random values, and whether the disk takes the save. */
  datatype Turn = Turn(now: int, reloaded: bool, verdict: (string, string) -> Option<Principal>,
                       token: Option<string>, csrf: Option<string>, later: int, saves: bool)

  /** The account model's verdict; it signs in active principals only. */
  function SignsIn(a: Accounts, turn: Turn, email: string, password: string): (p: Option<Principal>)
    ensures p.Some? ==> a.active(p.value.accountId, p.value.identityId)
  {
    var p := turn.verdict(email, password);
    if p.Some? && !a.active(p.value.accountId, p.value.identityId) then None else p
  }

  /** A clock that does not run backwards. */
  function Later(clock: int, reading: int): (now: int)
    ensures now >= clock
  {
    if reading > clock then reading else clock
  }

  /** The part of a durable list that is still of use; every entry reads the clock again. */
  method LoadSessions(s: Slice<AuthSession>, accounts: Accounts, clock: int) returns (table: Table, now: int)
    requires s.Ok() && DistinctHashes(s.View())
    ensures now >= clock && Agree(accounts, table, s.View(), now)
    ensures s.len == 0 ==> now == clock
    ensures forall h :: h in table ==> clock < table[h].expires
  {
    hide Agree, DistinctHashes;
    ghost var list := s.View();
    NothingAgrees(accounts, clock);
    assert list[..0] == [];
    table, now := map[], clock;
    for i := 0 to s.len
      invariant now >= clock && (i == 0 ==> now == clock)
      invariant Agree(accounts, table, list[..i], now)
      invariant forall h :: h in table ==> clock < table[h].expires
    {
      var e := s.arr[s.off + i];
      assert list[..i + 1] == list[..i] + [e];
      HashIsNew(list, i);
      var reading: int := *;
      LaterAgrees(accounts, table, list[..i], now, Later(now, reading));
      now := Later(now, reading);
      if accounts.active(e.accountId, e.identityId) && now < e.expiresAt {
        AddAgrees(accounts, table, list[..i], now, e);
        table := table[e.tokenHash := RecordOf(accounts, e)];
      } else {
        SkipAgrees(accounts, table, list[..i], now, e);
      }
    }
    assert list[..s.len] == list;
  }

  /** The table of a manager that starts now. */
  method Rebuilt(store: Store, accounts: Accounts, clock: int) returns (table: Table, now: int)
    requires store.Valid() && DistinctHashes(store.model.sessions)
    ensures now >= clock && Agree(accounts, table, store.model.sessions, now)
    ensures store.model.sessions == [] ==> now == clock
    ensures forall h :: h in table ==> clock < table[h].expires
  {
    hide Agree, Store.Valid, DistinctHashes, Windows, Reads;
    var snapshot := store.Snapshot();
    ReadsSessions(snapshot, store.model);
    table, now := LoadSessions(snapshot.sessions, accounts, clock);
  }

  class Manager {
    const store: Store
    const accounts: Accounts
    const hash: string -> string
    var sessions: Table
    var failures: seq<int>
    var clock: int
    /** What has happened since the last successful login, under this manager or an earlier one. */
    ghost var history: seq<Event>

    ghost predicate Valid()
      reads this, store, store.repr
    {
      && store.Valid()
      && this !in store.repr
      && Agree(accounts, sessions, store.model.sessions, clock)
      && Tracks(failures, Current(history), clock)
      && Recorded(history, clock)
    }

    /** `New`: a manager over whatever the store holds.  It knows of no failed checks. */
    constructor (store: Store, accounts: Accounts, hash: string -> string, now: int, ghost earlier: seq<Event>)
      requires store.Valid() && DistinctHashes(store.model.sessions) && Recorded(earlier, now)
      ensures Valid() && this.store == store && this.accounts == accounts && this.hash == hash
      ensures clock >= now && history == earlier + [Forgotten(clock)]
      ensures store.model.sessions == [] ==> clock == now
      ensures forall h :: h in sessions ==> now < sessions[h].expires
    {
      this.store, this.accounts, this.hash := store, accounts, hash;
      hide Agree, Tracks, Recorded, Store.Valid, Current, DistinctHashes;
      var table, at := Rebuilt(store, accounts, now);
      EventRecorded(earlier, now, Forgotten(at));
      NothingTracked(at);
      sessions, failures, clock, history := table, [], at, earlier + [Forgotten(at)];
    }

    /** A random token whose hash is not in use; None when none can be had. */
    method FreshToken(drawn: Option<string>) returns (token: Option<string>)
      requires store.Valid()
      ensures token == if drawn.Some? && Unused(drawn.value) then drawn else None
    {
      token := drawn;
      if token.Some? && exists e :: e in store.disk.sessions && e.tokenHash == hash(token.value) {
        token := None;
      }
    }

    ghost predicate Unused(token: string)
      reads this, store
    {
      forall e :: e in store.model.sessions ==> e.tokenHash != hash(token)
    }

    /** One save: an audit row and a change of the durable sessions, or nothing. */
    method Change(actor: string, action: string, detail: string, edit: Edit, saves: bool) returns (ok: bool)
      requires store.Valid() && (edit.AppendSession? || edit.FilterSessions?)
      modifies store
      ensures store.Valid() && fresh(store.repr - old(store.repr))
      ensures ok == saves
      ensures !ok ==> store.model == old(store.model)
      ensures ok ==>
        OneRow(old(store.model), store.model, clock, actor, action, detail, Changed(old(store.model.sessions), edit))
    {
      var row := AuditEntry(clock, actor, action, detail);
      TwoEdits(store.model, row, edit);
      ok := store.Update([AppendAudit(row), edit], saves);
    }

    /** Waiting keeps the manager valid. */
    lemma TimePasses(was: int)
      requires Agree(accounts, sessions, store.model.sessions, was) && was <= clock
      requires Tracks(failures, Current(history), was) && Recorded(history, was)
      ensures Agree(accounts, sessions, store.model.sessions, clock)
      ensures Tracks(failures, Current(history), clock) && Recorded(history, clock)
    {
      LaterAgrees(accounts, sessions, store.model.sessions, was, clock);
    }

    /** Reads the clock. */
    method Now(reading: int)
      requires Valid()
      modifies this`clock
      ensures Valid() && clock == Later(old(clock), reading)
    {
      hide Agree, Tracks, Recorded, Store.Valid;
      ghost var was := clock;
      clock := Later(clock, reading);
      TimePasses(was);
    }

    /** Records a failed check. */
    method Fail(reading: int)
      requires Valid() && |failures| < LIMIT
      modifies this`clock, this`failures, this`history
      ensures Valid() && clock == Later(old(clock), reading)
      ensures history == old(history) + [Failed(clock)]
    {
      hide Agree, Tracks, Recorded, Current, Store.Valid;
      var at := Later(clock, reading);
      FailureRecorded(failures, history, clock, at);
      LaterAgrees(accounts, sessions, store.model.sessions, clock, at);
      clock, failures, history := at, failures + [at], history + [Failed(at)];
    }

    /** Issues a session for an account that has just been authenticated. */
    method Issue(p: Principal, turn: Turn) returns (r: Result<Session, Error>, ghost e: AuthSession)
      requires Valid() && accounts.active(p.accountId, p.identityId)
      modifies this, store
      ensures Valid() && clock >= old(clock)
      ensures r.Ok? ==> clock == Later(old(clock), turn.later)
      ensures r.Err? ==> sessions == old(sessions) && store.model == old(store.model) && history == old(history)
      ensures r.Err? ==> r.error == if old(Drawn(turn)) then AuditPersistence else Unavailable
      ensures r.Ok? <==> old(Drawn(turn)) && turn.saves
      ensures r.Ok? ==> history == [] && SignedIn(old(store.model), old(sessions), p, turn, e, r.value)
    {
      hide Agree, Tracks, Recorded, Store.Valid;
      e := AuthSession("", "", 0, "", "");
      var token := FreshToken(turn.token);
      var csrf := turn.csrf;
      if token.None? || csrf.None? { return Err(Unavailable), e; }
      var user := User(p.accountId, accounts.emailOf(p.accountId));
      Now(turn.later);
      var expires := clock + LIFETIME;
      var entry := AuthSession(hash(token.value), csrf.value, expires, p.accountId, p.identityId);
      e := entry;
      AddAgrees(accounts, sessions, store.model.sessions, clock, entry);
      var saved := Change(user.email, "login", "login", AppendSession(entry), turn.saves);
      if !saved { return Err(AuditPersistence), e; }
      NothingTracked(clock);
      NothingRecorded(clock);
      failures, history := [], [];
      sessions := sessions[entry.tokenHash := Record(csrf.value, expires, user)];
      r := Ok(Session(token.value, csrf.value, user));
    }

    /** Both random values can be had. */
    ghost predicate Drawn(turn: Turn)
      reads this, store
    {
      turn.token.Some? && Unused(turn.token.value) && turn.csrf.Some?
    }

    /** What a successful login of `p` commits: one durable entry of its account and identity with one
        audit row, and the same session in memory, valid for a day, under the values drawn. */
    ghost predicate SignedIn(before: Model, table: Table, p: Principal, turn: Turn, e: AuthSession, s: Session)
      reads this, store
    {
      && turn.token.Some? && turn.csrf.Some?
      && s == Session(turn.token.value, turn.csrf.value, User(p.accountId, accounts.emailOf(p.accountId)))
      && e == AuthSession(hash(s.token), s.csrf, clock + LIFETIME, p.accountId, p.identityId)
      && OneRow(before, store.model, clock, s.user.email, "login", "login", before.sessions + [e])
      && e.tokenHash !in table
      && sessions == table[e.tokenHash := Record(s.csrf, clock + LIFETIME, s.user)]
    }

    /** `Login`.  It is refused, before any password is looked at, exactly when five checks have
        failed in the last five minutes under this manager, with neither a successful login nor a
        reset since. */
    method Login(email: string, password: string, turn: Turn)
      returns (r: Result<Session, Error>, ghost at: int, ghost e: AuthSession)
      requires Valid()
      modifies this, store
      ensures Valid()
      ensures at == Later(old(clock), turn.now) <= clock
      ensures r == Err(Throttled) <==> |Recent(Current(old(history)), at)| >= LIMIT
      ensures r == Err(InvalidCredentials) <==>
        |Recent(Current(old(history)), at)| < LIMIT && turn.reloaded && SignsIn(accounts, turn, email, password).None?
      ensures r.Ok? || r == Err(AuditPersistence) <==>
        && |Recent(Current(old(history)), at)| < LIMIT && turn.reloaded
        && SignsIn(accounts, turn, email, password).Some? && old(Drawn(turn))
      ensures r.Ok? ==> turn.saves
      ensures r == Err(AuditPersistence) ==> !turn.saves
      ensures r.Ok? ==> history == [] && clock == Later(at, turn.later)
      // The session is that of the very account and identity that the password signed in.
      ensures r.Ok? ==>
        SignedIn(old(store.model), old(sessions), SignsIn(accounts, turn, email, password).value, turn, e, r.value)
      ensures r.Err? ==> sessions == old(sessions) && store.model == old(store.model) && r.error != Refused
      ensures r.Err? ==> history == old(history) + if r.error == InvalidCredentials then [Failed(clock)] else []
      ensures r == Err(InvalidCredentials) ==> clock == Later(at, turn.later)
    {
      hide Agree, Tracks, Recorded, Store.Valid, Recent, Current;
      e := AuthSession("", "", 0, "", "");
      Now(turn.now);
      at := clock;
      failures := Prune(failures, clock, Current(history));
      if |failures| >= LIMIT { return Err(Throttled), at, e; }
      if !turn.reloaded { return Err(Unavailable), at, e; }
      var p := SignsIn(accounts, turn, email, password);
      if p.Some? {
        r, e := Issue(p.value, turn);
      } else {
        Fail(turn.later);
        r := Err(InvalidCredentials);
      }
    }

    /** `Authenticate`. */
    method Authenticate(token: string, now: int, saves: bool) returns (s: Option<Session>)
      requires Valid()
      modifies this, store
      ensures Valid() && clock == Later(old(clock), now) && history == old(history)
      ensures s.Some? <==> Accepts(old(sessions), hash(token), clock)
      ensures s.Some? ==> sessions == old(sessions) && store.model == old(store.model)
      ensures s.Some? ==> s.value == Session(token, sessions[hash(token)].csrf, sessions[hash(token)].user)
      ensures s.None? ==> sessions == old(sessions) - {hash(token)}
      ensures s.None? ==> store.model == if !saves then old(store.model) else
        old(store.model).(sessions := Filter(old(store.model.sessions), OfHash(hash(token))))
    {
      hide Agree, Tracks, Recorded, Store.Valid;
      var h := hash(token);
      Now(now);
      if h in sessions && clock <= sessions[h].expires {
        return Some(Session(token, sessions[h].csrf, sessions[h].user));
      }
      ForgetAgrees(accounts, sessions, store.model.sessions, clock, h);
      FilterAgrees(accounts, sessions, store.model.sessions, clock, HashIs(h), OfHash(h));
      assert Without(sessions, HashIs(h)) == sessions - {h};
      sessions := sessions - {h};
      var _ := store.Update([FilterSessions(OfHash(h))], saves);
      s := None;
    }

    /** `Logout`. */
    method Logout(token: string, saves: bool) returns (ok: bool)
      requires Valid()
      modifies this`sessions, store
      ensures Valid()
      ensures ok <==> saves || hash(token) !in old(sessions)
      ensures hash(token) !in old(sessions) ==> store.model == old(store.model) && sessions == old(sessions)
      ensures !ok ==> store.model == old(store.model) && sessions == old(sessions)
      ensures ok && hash(token) in old(sessions) ==> sessions == old(sessions) - {hash(token)}
      ensures ok && hash(token) in old(sessions) ==>
        OneRow(old(store.model), store.model, clock, old(sessions)[hash(token)].user.email, "logout", "logout",
               Filter(old(store.model.sessions), OfHash(hash(token))))
    {
      hide Agree, Tracks, Recorded, Store.Valid;
      var h := hash(token);
      if h !in sessions { return true; }
      FilterAgrees(accounts, sessions, store.model.sessions, clock, HashIs(h), OfHash(h));
      assert Without(sessions, HashIs(h)) == sessions - {h};
      ok := Change(sessions[h].user.email, "logout", "logout", FilterSessions(OfHash(h)), saves);
      if ok {
        sessions := sessions - {h};
      }
    }

    /** The in-memory sessions of an account, but for one that may be kept. */
    method Targets(ghost gone: (string, Record) -> bool, accountId: string, keep: Option<string>)
      returns (targets: set<string>)
      requires forall h, r: Record :: gone(h, r) <==> r.user.id == accountId && keep != Some(h)
      ensures targets == set h | h in sessions && gone(h, sessions[h])
    {
      targets := {};
      var rest := sessions.Keys;
      while rest != {}
        invariant rest <= sessions.Keys
        invariant targets == set h | h in sessions.Keys - rest && sessions[h].user.id == accountId && keep != Some(h)
      {
        var h :| h in rest;
        rest := rest - {h};
        if sessions[h].user.id == accountId && keep != Some(h) {
          targets := targets + {h};
        }
      }
    }

    /** `RevokeUserSessions`. */
    method RevokeUserSessions(actor: string, accountId: string, saves: bool) returns (r: Option<nat>)
      requires Valid()
      modifies this`sessions, store
      ensures Valid()
      ensures r.Some? == saves
      ensures r.None? ==> store.model == old(store.model) && sessions == old(sessions)
      ensures r.Some? ==>
        OneRow(old(store.model), store.model, clock, actor, "account_revoke_sessions", "account=" + accountId,
               Filter(old(store.model.sessions), OfAccount(accountId)))
      ensures r.Some? ==> sessions == Without(old(sessions), AccountIs(accountId))
      ensures r.Some? ==> r.value == |old(sessions)| - |sessions|
    {
      hide Agree, Tracks, Recorded, Store.Valid, AccountIs, OfAccount, Without, Filter, OneRow, RecordOf;
      AccountsMatch(accounts, accountId);
      FilterAgrees(accounts, sessions, store.model.sessions, clock, AccountIs(accountId), OfAccount(accountId));
      var targets := Targets(AccountIs(accountId), accountId, None);
      RemovedAre(sessions, AccountIs(accountId), targets);
      var all := FilterSessions(OfAccount(accountId));
      var ok := Change(actor, "account_revoke_sessions", "account=" + accountId, all, saves);
      if !ok { return None; }
      sessions := sessions - targets;
      r := Some(|targets|);
    }

    /** The session part of `ChangePassword`, once the password itself is (or is not) changed. */
    method ChangePassword(accountId: string, keepToken: string, changed: bool, saves: bool) returns (ok: bool)
      requires Valid()
      modifies this`sessions, store
      ensures Valid()
      ensures ok <==> changed && saves
      ensures !ok ==> store.model == old(store.model) && sessions == old(sessions)
      ensures ok ==>
        OneRow(old(store.model), store.model, clock, accounts.emailOf(accountId), "password_change", "password rotated",
               Filter(old(store.model.sessions), OtherOf(accountId, hash(keepToken))))
      ensures ok ==> sessions == Without(old(sessions), OtherIs(accountId, hash(keepToken)))
    {
      hide Agree, Tracks, Recorded, Store.Valid, OtherIs, OtherOf, Without, Filter, OneRow, RecordOf;
      var keep := hash(keepToken);
      OthersMatch(accounts, accountId, keep);
      if !changed { return false; }
      FilterAgrees(accounts, sessions, store.model.sessions, clock, OtherIs(accountId, keep), OtherOf(accountId, keep));
      var others := FilterSessions(OtherOf(accountId, keep));
      ok := Change(accounts.emailOf(accountId), "password_change", "password rotated", others, saves);
      if ok {
        var targets := Targets(OtherIs(accountId, keep), accountId, Some(keep));
        RemovedAre(sessions, OtherIs(accountId, keep), targets);
        sessions := sessions - targets;
      }
    }

    /** `ClearSessions`.  It does not look at whether its save succeeds, so the manager agrees
        with the durable list afterwards exactly when no usable entry is left there. */
    method ClearSessions(now: int, saves: bool)
      requires store.Valid() && this !in store.repr && DistinctHashes(store.model.sessions) && Recorded(history, clock)
      modifies this`sessions, this`failures, this`clock, this`history, store
      ensures store.Valid() && sessions == map[] && clock == Later(old(clock), now)
      ensures history == old(history) + [Forgotten(clock)] && Current(history) == [] && Recorded(history, clock)
      ensures store.model == if saves then old(store.model).(sessions := []) else old(store.model)
      ensures Valid() <==> forall e :: e in store.model.sessions ==> !Live(accounts, e, clock)
    {
      hide Agree, Tracks, Recorded, Store.Valid;
      var _ := store.Update([Edit.ClearSessions], saves);
      var at := Later(clock, now);
      EventRecorded(history, clock, Forgotten(at));
      NothingTracked(at);
      ClearedAgrees(accounts, store.model.sessions, at);
      clock, sessions, failures, history := at, map[], [], history + [Forgotten(at)];
    }

    /** A lost save: the session is gone from memory, and a manager rebuilt before it expires lets
        the same token in again. */
    method ComesBack(e: AuthSession, now: int) returns (rebuilt: Manager)
      requires Valid() && e in store.model.sessions && Live(accounts, e, now) && clock <= now
      modifies this`sessions, this`failures, this`clock, this`history, store
      ensures sessions == map[] && !Valid()
      ensures rebuilt.Valid() && rebuilt.store == store && rebuilt.accounts == accounts
      ensures rebuilt.clock < e.expiresAt ==> Accepts(rebuilt.sessions, e.tokenHash, rebuilt.clock)
    {
      AgreeDistinct(accounts, sessions, store.model.sessions, clock);
      hide Agree, Tracks, Recorded, Store.Valid, Current, DistinctHashes;
      ClearSessions(now, false);
      rebuilt := new Manager(store, accounts, hash, clock, history);
      if rebuilt.clock < e.expiresAt {
        LiveAccepted(accounts, rebuilt.sessions, store.model.sessions, rebuilt.clock, e);
      }
    }

    /** The reset request: the store first, then the sessions. */
    method Reset(confirm: string, now: int, saves: bool, clears: bool) returns (ok: bool)
      requires Valid()
      modifies this`sessions, this`failures, this`clock, this`history, store
      ensures Valid() && clock >= old(clock)
      ensures ok <==> confirm == old(store.model.scalars.installationId) && saves
      ensures !ok ==> sessions == old(sessions) && store.model == old(store.model) && history == old(history)
      ensures ok ==> sessions == map[] && store.model.sessions == [] && Current(history) == []
      ensures ok ==> clock == Later(old(clock), now) && history == old(history) + [Forgotten(clock)]
      ensures store.model.scalars.installationId == old(store.model.scalars.installationId)
    {
      ok := store.Reset(confirm, saves);
      if ok {
        ClearSessions(now, clears);
      }
    }
  }

  // ------------------------------------------------------------- whole runs

  datatype Request =
    | LoginRequest(email: string, password: string, turn: Turn)
    | AuthenticateRequest(token: string, now: int, saves: bool)
    | LogoutRequest(token: string, saves: bool)
    | RevokeRequest(actor: string, accountId: string, saves: bool)
    | PasswordRequest(accountId: string, keepToken: string, changed: bool, saves: bool)
    | ResetRequest(confirm: string, now: int, saves: bool, clears: bool)

  /** Only a login clears the history of failed checks. */
  method Serve(m: Manager, request: Request)
    requires m.Valid()
    modifies m, m.store
    ensures m.Valid() && m.clock >= old(m.clock)
    ensures old(m.history) <= m.history || (request.LoginRequest? && m.history == [])
  {
    hide Manager.Valid, Manager.SignedIn, OneRow, Without, Recent, Current, SignsIn, Accepts, Filter;
    match request
    case LoginRequest(email, password, turn) => var r, at, e := m.Login(email, password, turn);
    case AuthenticateRequest(token, now, saves) => var s := m.Authenticate(token, now, saves);
    case LogoutRequest(token, saves) => var ok := m.Logout(token, saves);
    case RevokeRequest(actor, accountId, saves) => var r := m.RevokeUserSessions(actor, accountId, saves);
    case PasswordRequest(accountId, keepToken, changed, saves) =>
      var ok := m.ChangePassword(accountId, keepToken, changed, saves);
    case ResetRequest(confirm, now, saves, clears) => var ok := m.Reset(confirm, now, saves, clears);
  }

  /** Any run of requests, then a restart: the rebuilt manager lets in exactly the tokens the
      running one does, for the same accounts, away from the instant a session expires. */
  method RunThenRestart(m: Manager, requests: seq<Request>) returns (rebuilt: Manager)
    requires m.Valid()
    modifies m, m.store
    ensures m.Valid() && rebuilt.Valid() && rebuilt.store == m.store && rebuilt.clock >= m.clock
    ensures rebuilt.history == m.history + [Forgotten(rebuilt.clock)]
    ensures forall h :: AwayFromExpiry(m, h, rebuilt.clock) && AwayFromExpiry(rebuilt, h, rebuilt.clock) ==>
              (Accepts(m.sessions, h, rebuilt.clock) <==> Accepts(rebuilt.sessions, h, rebuilt.clock))
    ensures forall h :: Accepts(m.sessions, h, rebuilt.clock) && AwayFromExpiry(m, h, rebuilt.clock) ==>
              h in rebuilt.sessions && rebuilt.sessions[h] == m.sessions[h]
  {
    for i := 0 to |requests|
      invariant m.Valid()
    {
      Serve(m, requests[i]);
    }
    rebuilt := new Manager(m.store, m.accounts, m.hash, m.clock, m.history);
    LaterAgrees(m.accounts, m.sessions, m.store.model.sessions, m.clock, rebuilt.clock);
    forall h | AwayFromExpiry(m, h, rebuilt.clock) && AwayFromExpiry(rebuilt, h, rebuilt.clock)
      ensures Accepts(m.sessions, h, rebuilt.clock) <==> Accepts(rebuilt.sessions, h, rebuilt.clock)
    {
      SameTokens(m.accounts, m.sessions, rebuilt.sessions, m.store.model.sessions, rebuilt.clock, h);
    }
  }

  ghost predicate AwayFromExpiry(m: Manager, h: string, now: int)
    reads m
  {
    h in m.sessions ==> now != m.sessions[h].expires
  }

  /** Whatever the run, and however often the manager was rebuilt in it: five minutes hold at most
      five failed checks since the last successful login, and five more for every reset or restart
      during them; so at most five when there was none. */
  lemma ThrottleHolds(m: Manager, start: int)
    requires m.Valid()
    ensures FailedIn(m.history, start) <= 5 * (1 + ForgottenIn(m.history, start))
    ensures ForgottenIn(m.history, start) == 0 ==> FailedIn(m.history, start) <= 5
  {
    FivePerStretch(m.history, m.clock, start);
  }

  // ------------------------------------------------- what empties the throttle

  /** A login with a wrong password, at the instant of the last clock reading. */
  function Wrong(now: int): Turn {
    Turn(now, true, (e, p) => None, None, None, now, false)
  }

  /** Five wrong passwords at once, when no failure is on record. */
  method FiveWrong(m: Manager, email: string, password: string)
    requires m.Valid() && Current(m.history) == []
    modifies m, m.store
    ensures m.Valid() && m.clock == old(m.clock) && m.store.model == old(m.store.model)
    ensures FailedIn(m.history, m.clock) == FailedIn(old(m.history), m.clock) + 5
    ensures ForgottenIn(m.history, m.clock) == ForgottenIn(old(m.history), m.clock)
  {
    hide Manager.Valid, Recent, Current, FailedIn, ForgottenIn, Manager.SignedIn;
    for i := 0 to LIMIT
      invariant m.Valid() && m.clock == old(m.clock) && m.store.model == old(m.store.model)
      invariant |Current(m.history)| == i
      invariant FailedIn(m.history, m.clock) == FailedIn(old(m.history), m.clock) + i
      invariant ForgottenIn(m.history, m.clock) == ForgottenIn(old(m.history), m.clock)
    {
      ghost var before := m.history;
      FewRecent(Current(before), m.clock);
      var r, at, e := m.Login(email, password, Wrong(m.clock));
      OneMore(before, Failed(m.clock), m.clock);
    }
  }

  /** Each reset lets five more wrong passwords through at once, with no successful login. */
  method ResetsForget(m: Manager, email: string, password: string, confirm: string, n: nat)
    requires m.Valid() && m.history == [] && confirm == m.store.model.scalars.installationId
    modifies m, m.store
    ensures m.Valid() && m.clock == old(m.clock)
    ensures FailedIn(m.history, m.clock) == 5 * (1 + n) && ForgottenIn(m.history, m.clock) == n
  {
    hide Manager.Valid, Current, FailedIn, ForgottenIn;
    NoEvents(m.clock);
    FiveWrong(m, email, password);
    for i := 0 to n
      invariant m.Valid() && m.clock == old(m.clock) && confirm == m.store.model.scalars.installationId
      invariant FailedIn(m.history, m.clock) == 5 * (1 + i) && ForgottenIn(m.history, m.clock) == i
    {
      ghost var before := m.history;
      var ok := m.Reset(confirm, m.clock, true, true);
      OneMore(before, Forgotten(m.clock), m.clock);
      FiveWrong(m, email, password);
    }
  }

  /** And so does each restart. */
  method RestartForgets(m: Manager, email: string, password: string) returns (rebuilt: Manager)
    requires m.Valid() && m.history == [] && m.store.model.sessions == []
    modifies m, m.store
    ensures rebuilt.Valid() && rebuilt.store == m.store && rebuilt.clock == old(m.clock)
    ensures FailedIn(rebuilt.history, rebuilt.clock) == 10 && ForgottenIn(rebuilt.history, rebuilt.clock) == 1
  {
    hide Current, FailedIn, ForgottenIn, Agree, DistinctHashes, Tracks, Recorded, Store.Valid;
    NoEvents(m.clock);
    FiveWrong(m, email, password);
    AgreeDistinct(m.accounts, m.sessions, m.store.model.sessions, m.clock);
    rebuilt := new Manager(m.store, m.accounts, m.hash, m.clock, m.history);
    OneMore(m.history, Forgotten(m.clock), m.clock);
    FiveWrong(rebuilt, email, password);
  }
}
