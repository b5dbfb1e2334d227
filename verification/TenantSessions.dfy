// src/nexus/database.py over PostgreSQL row-level security: sessions of many
// tenants share one connection pool, the tenant is a transaction-local setting
// of the connection, and the policy reads that setting. Compared with a
// database that holds one tenant's rows only and has no policy at all.
module TenantSessions {
  import opened Wrappers

  type Company = nat
  type Key = nat        // table and primary key of a row under tenant_isolation
  type SessionId = nat
  type ConnId = nat

  datatype Row = Row(company: Company, data: string)

  type Rows = map<Key, Row>

  // current_setting('nexus.company_id', true): never set on this connection,
  // left empty by an earlier transaction-local set, or a company.
  datatype Setting = Unset | Empty | To(company: Company)

  // NULLIF(current_setting(...), '')::uuid
  function Tenant(s: Setting): Option<Company> {
    if s.To? then Some(s.company) else None
  }

  // company_id = tenant; a comparison with NULL is not true.
  predicate Policy(tenant: Option<Company>, r: Row) {
    tenant == Some(r.company)
  }

  // What an UPDATE or DELETE does to one visible row.
  datatype Change = Delete | Put(row: Row)

  // Modify covers any UPDATE or DELETE: what happens to which row may depend on
  // everything visible.
  datatype Stmt = Select | Insert(key: Key, row: Row) | Modify(f: Rows -> map<Key, Change>)

  datatype Output = Silent | Result(rows: Rows) | Affected(keys: set<Key>) | Violation | InFailedTransaction

  // Rows written by an open transaction; None is a deletion.
  type Writes = map<Key, Option<Row>>

  function Overlay(rows: Rows, writes: Writes): Rows {
    (map k | k in rows && k !in writes :: rows[k]) + (map k | k in writes && writes[k].Some? :: writes[k].value)
  }

  function Visible(tenant: Option<Company>, rows: Rows): Rows {
    map k | k in rows && Policy(tenant, rows[k]) :: rows[k]
  }

  /* --- one statement: what the session gets, what is written, whether it failed --- */

  datatype Effect = Effect(output: Output, writes: Writes, failed: bool)

  function Changes(visible: Rows, changes: map<Key, Change>): Writes {
    map k | k in changes && k in visible :: if changes[k].Put? then Some(changes[k].row) else None
  }

  predicate WithCheck(tenant: Option<Company>, writes: Writes) {
    forall k <- writes :: writes[k].Some? ==> Policy(tenant, writes[k].value)
  }

  // taken: every key ever used.
  function Execute(tenant: Option<Company>, rows: Rows, taken: set<Key>, stmt: Stmt): Effect {
    var visible := Visible(tenant, rows);
    match stmt
    case Select => Effect(Result(visible), map[], false)
    case Insert(key, row) =>
      if key in taken || !Policy(tenant, row) then Effect(Violation, map[], true)
      else Effect(Affected({key}), map[key := Some(row)], false)
    case Modify(f) =>
      var writes := Changes(visible, f(visible));
      if WithCheck(tenant, writes) then Effect(Affected(writes.Keys), writes, false)
      else Effect(Violation, map[], true)
  }

  /* --- the shared system --- */

  datatype Conn = Conn(setting: Setting, holder: Option<SessionId>)

  datatype Session = Idle | InTx(conn: ConnId, writes: Writes, failed: bool) | Closed

  // owners: the company of every key ever used.
  datatype Sys = Sys(committed: Rows, owners: map<Key, Company>, conns: map<ConnId, Conn>,
                     sessions: map<SessionId, Session>)

  // Which company _bind_tenant was called with for a session, if any.
  type Binding = SessionId -> Option<Company>

  datatype Event =
    | Open(s: SessionId)
    | Begin(s: SessionId, conn: ConnId)  // the pool hands out conn for the session's next transaction
    | Exec(s: SessionId, stmt: Stmt)
    | Commit(s: SessionId)
    | Rollback(s: SessionId)
    | Close(s: SessionId)

  // The transaction-local setting ends with the transaction; the connection
  // goes back to the pool.
  function Release(c: Conn): Conn {
    Conn(if c.setting == Unset then Unset else Empty, None)
  }

  predicate Live(sys: Sys, s: SessionId) {
    s in sys.sessions && sys.sessions[s].InTx? && sys.sessions[s].conn in sys.conns
  }

  function EndTx(sys: Sys, s: SessionId, next: Session): Sys
    requires Live(sys, s)
  {
    var k := sys.sessions[s].conn;
    sys.(conns := sys.conns[k := Release(sys.conns[k])], sessions := sys.sessions[s := next])
  }

  function Step(bound: Binding, sys: Sys, e: Event): (Sys, Output) {
    match e
    case Open(s) =>
      (if s in sys.sessions then sys else sys.(sessions := sys.sessions[s := Idle]), Silent)
    case Begin(s, k) =>
      if s in sys.sessions && sys.sessions[s].Idle? && k in sys.conns && sys.conns[k].holder.None? then
        // after_begin: set_config('nexus.company_id', company, is_local = true)
        var setting := if bound(s).Some? then To(bound(s).value) else sys.conns[k].setting;
        (sys.(conns := sys.conns[k := Conn(setting, Some(s))], sessions := sys.sessions[s := InTx(k, map[], false)]),
            Silent)
      else (sys, Silent)
    case Exec(s, stmt) =>
      if !Live(sys, s) then (sys, Silent)
      else
        var tx := sys.sessions[s];
        if tx.failed then (sys, InFailedTransaction)
        else
          var effect := Execute(Tenant(sys.conns[tx.conn].setting), Overlay(sys.committed, tx.writes),
              sys.owners.Keys, stmt);
          (sys.(sessions := sys.sessions[s := InTx(tx.conn, tx.writes + effect.writes, effect.failed)],
                owners := if stmt.Insert? && !effect.failed
                          then sys.owners[stmt.key := stmt.row.company] else sys.owners),
           effect.output)
    case Commit(s) =>
      if !Live(sys, s) then (sys, Silent)
      else
        var tx := sys.sessions[s];
        var ended := EndTx(sys, s, Idle);
        (if tx.failed then ended else ended.(committed := Overlay(sys.committed, tx.writes)), Silent)
    case Rollback(s) =>
      (if Live(sys, s) then EndTx(sys, s, Idle) else sys, Silent)
    case Close(s) =>
      (if Live(sys, s) then EndTx(sys, s, Closed)
       else if s in sys.sessions then sys.(sessions := sys.sessions[s := Closed]) else sys, Silent)
  }

  /* --- the reference: one tenant alone --- */

  // No connections, no setting, no policy on reads; every row is the tenant's.
  datatype SoloSession = SoloIdle | SoloTx(writes: Writes, failed: bool) | SoloClosed

  datatype Solo = Solo(rows: Rows, taken: set<Key>, sessions: map<SessionId, SoloSession>)

  datatype SoloEvent = SoloOpen(s: SessionId) | SoloBegin(s: SessionId) | SoloExec(s: SessionId, stmt: Stmt)
                     | SoloCommit(s: SessionId) | SoloRollback(s: SessionId) | SoloClose(s: SessionId)

  // A row of another company (or, for no tenant, any row) cannot be written.
  predicate Own(tenant: Option<Company>, r: Row) {
    tenant == Some(r.company)
  }

  function SoloExecute(tenant: Option<Company>, rows: Rows, taken: set<Key>, stmt: Stmt): Effect {
    match stmt
    case Select => Effect(Result(rows), map[], false)
    case Insert(key, row) =>
      if key in taken || !Own(tenant, row) then Effect(Violation, map[], true)
      else Effect(Affected({key}), map[key := Some(row)], false)
    case Modify(f) =>
      var writes := Changes(rows, f(rows));
      if forall k <- writes :: writes[k].Some? ==> Own(tenant, writes[k].value)
      then Effect(Affected(writes.Keys), writes, false)
      else Effect(Violation, map[], true)
  }

  function SoloStep(tenant: Option<Company>, solo: Solo, e: SoloEvent): (Solo, Output) {
    match e
    case SoloOpen(s) => (if s in solo.sessions then solo else solo.(sessions := solo.sessions[s := SoloIdle]), Silent)
    case SoloBegin(s) =>
      (if s in solo.sessions && solo.sessions[s].SoloIdle?
       then solo.(sessions := solo.sessions[s := SoloTx(map[], false)])
       else solo, Silent)
    case SoloExec(s, stmt) =>
      if !(s in solo.sessions && solo.sessions[s].SoloTx?) then (solo, Silent)
      else
        var tx := solo.sessions[s];
        if tx.failed then (solo, InFailedTransaction)
        else
          var effect := SoloExecute(tenant, Overlay(solo.rows, tx.writes), solo.taken, stmt);
          (solo.(sessions := solo.sessions[s := SoloTx(tx.writes + effect.writes, effect.failed)],
                 taken := if stmt.Insert? && !effect.failed then solo.taken + {stmt.key} else solo.taken),
           effect.output)
    case SoloCommit(s) =>
      if !(s in solo.sessions && solo.sessions[s].SoloTx?) then (solo, Silent)
      else
        var tx := solo.sessions[s];
        var ended := solo.(sessions := solo.sessions[s := SoloIdle]);
        (if tx.failed then ended else ended.(rows := Overlay(solo.rows, tx.writes)), Silent)
    case SoloRollback(s) =>
      (if s in solo.sessions && solo.sessions[s].SoloTx?
       then solo.(sessions := solo.sessions[s := SoloIdle])
       else solo, Silent)
    case SoloClose(s) =>
      (if s in solo.sessions then solo.(sessions := solo.sessions[s := SoloClosed]) else solo, Silent)
  }

  /* --- what a tenant can see of the shared system --- */

  function Erase(x: Session): SoloSession {
    match x
    case Idle => SoloIdle
    case InTx(_, writes, failed) => SoloTx(writes, failed)
    case Closed => SoloClosed
  }

  ghost function OwnedBy(sys: Sys, tenant: Option<Company>): set<Key> {
    set k | k in sys.owners && tenant == Some(sys.owners[k])
  }

  ghost function View(bound: Binding, sys: Sys, tenant: Option<Company>): Solo {
    Solo(Visible(tenant, sys.committed),
         OwnedBy(sys, tenant),
         map s | s in sys.sessions && bound(s) == tenant :: Erase(sys.sessions[s]))
  }

  function EraseEvent(e: Event): SoloEvent {
    match e
    case Open(s) => SoloOpen(s)
    case Begin(s, _) => SoloBegin(s)
    case Exec(s, stmt) => SoloExec(s, stmt)
    case Commit(s) => SoloCommit(s)
    case Rollback(s) => SoloRollback(s)
    case Close(s) => SoloClose(s)
  }

  /* --- the invariant --- */

  // A connection in a transaction carries the tenant of the session holding
  // it; an idle one carries none.
  ghost predicate ConnsOk(bound: Binding, sys: Sys) {
    && (forall k <- sys.conns :: match sys.conns[k].holder
          case None => Tenant(sys.conns[k].setting) == None
          case Some(s) =>
            && Tenant(sys.conns[k].setting) == bound(s)
            && s in sys.sessions && sys.sessions[s].InTx? && sys.sessions[s].conn == k)
    && (forall s <- sys.sessions :: sys.sessions[s].InTx? ==>
          sys.sessions[s].conn in sys.conns && sys.conns[sys.sessions[s].conn].holder == Some(s))
  }

  ghost predicate OwnWrites(sys: Sys, tenant: Option<Company>, writes: Writes) {
    forall k <- writes :: k in sys.owners && tenant == Some(sys.owners[k])
      && (writes[k].Some? ==> writes[k].value.company == sys.owners[k])
  }

  ghost predicate RowsOk(bound: Binding, sys: Sys) {
    && (forall k <- sys.committed :: k in sys.owners && sys.owners[k] == sys.committed[k].company)
    && (forall s <- sys.sessions :: sys.sessions[s].InTx? ==> OwnWrites(sys, bound(s), sys.sessions[s].writes))
  }

  ghost predicate SysOk(bound: Binding, sys: Sys) {
    ConnsOk(bound, sys) && RowsOk(bound, sys)
  }

  // The insert passes the policy but meets a key another company has used:
  // unique keys are checked below the policy.
  ghost predicate Collides(sys: Sys, tenant: Option<Company>, stmt: Stmt) {
    stmt.Insert? && Policy(tenant, stmt.row) && stmt.key in sys.owners && tenant != Some(sys.owners[stmt.key])
  }

  // The two ways in which sessions of other tenants get in the way of a step:
  // the connection handed out is not idle, or an insert collides.
  ghost predicate Allowed(bound: Binding, sys: Sys, e: Event) {
    match e
    case Begin(s, k) => s in sys.sessions && sys.sessions[s].Idle? ==> k in sys.conns && sys.conns[k].holder.None?
    case Exec(s, stmt) => Live(sys, s) && !sys.sessions[s].failed ==> !Collides(sys, bound(s), stmt)
    case _ => true
  }

  /* --- lemmas about one statement --- */

  lemma OwnOverlay(sys: Sys, tenant: Option<Company>, writes: Writes)
    requires forall k <- sys.committed :: k in sys.owners && sys.owners[k] == sys.committed[k].company
    requires OwnWrites(sys, tenant, writes)
    ensures Visible(tenant, Overlay(sys.committed, writes)) == Overlay(Visible(tenant, sys.committed), writes)
  {
  }

  lemma OtherOverlay(sys: Sys, tenant: Option<Company>, other: Option<Company>, writes: Writes)
    requires forall k <- sys.committed :: k in sys.owners && sys.owners[k] == sys.committed[k].company
    requires OwnWrites(sys, tenant, writes) && other != tenant
    ensures Visible(other, Overlay(sys.committed, writes)) == Visible(other, sys.committed)
  {
  }

  // A statement under the policy does what it does in a database of the
  // tenant's rows alone.
  lemma SameEffect(sys: Sys, tenant: Option<Company>, writes: Writes, stmt: Stmt)
    requires forall k <- sys.committed :: k in sys.owners && sys.owners[k] == sys.committed[k].company
    requires OwnWrites(sys, tenant, writes)
    ensures Execute(tenant, Overlay(sys.committed, writes), sys.owners.Keys, stmt) ==
            SoloExecute(tenant, Overlay(Visible(tenant, sys.committed), writes), OwnedBy(sys, tenant), stmt)
            <==> !Collides(sys, tenant, stmt)
  {
    OwnOverlay(sys, tenant, writes);
  }

  // And writes only the tenant's rows.
  lemma EffectIsOwn(sys: Sys, tenant: Option<Company>, writes: Writes, stmt: Stmt)
    requires forall k <- sys.committed :: k in sys.owners && sys.owners[k] == sys.committed[k].company
    requires OwnWrites(sys, tenant, writes)
    ensures var effect := Execute(tenant, Overlay(sys.committed, writes), sys.owners.Keys, stmt);
            var owners := if stmt.Insert? && !effect.failed
                          then sys.owners[stmt.key := stmt.row.company] else sys.owners;
            OwnWrites(sys.(owners := owners), tenant, writes + effect.writes)
  {
    OwnOverlay(sys, tenant, writes);
    var all := Overlay(sys.committed, writes);
    forall k | k in Visible(tenant, all) ensures k in sys.owners && tenant == Some(sys.owners[k]) {
    }
  }

  lemma MoreOwners(bound: Binding, sys: Sys, owners: map<Key, Company>)
    requires RowsOk(bound, sys) && forall k <- sys.owners :: k in owners && owners[k] == sys.owners[k]
    ensures RowsOk(bound, sys.(owners := owners))
  {
  }

  /* --- every step keeps the invariant --- */

  lemma ExecKeepsConns(bound: Binding, sys: Sys, s: SessionId, stmt: Stmt)
    requires ConnsOk(bound, sys)
    ensures ConnsOk(bound, Step(bound, sys, Exec(s, stmt)).0)
  {
  }

  lemma ExecKeeps(bound: Binding, sys: Sys, s: SessionId, stmt: Stmt)
    requires SysOk(bound, sys)
    ensures SysOk(bound, Step(bound, sys, Exec(s, stmt)).0)
  {
    ExecKeepsConns(bound, sys, s, stmt);
    if Live(sys, s) && !sys.sessions[s].failed {
      assert Tenant(sys.conns[sys.sessions[s].conn].setting) == bound(s);
      var after := Step(bound, sys, Exec(s, stmt)).0;
      EffectIsOwn(sys, bound(s), sys.sessions[s].writes, stmt);
      MoreOwners(bound, sys, after.owners);
      SessionWrites(bound, sys.(owners := after.owners), s, after.sessions[s]);
    }
  }

  // A session's new writes are its tenant's own.
  lemma SessionWrites(bound: Binding, sys: Sys, s: SessionId, x: Session)
    requires RowsOk(bound, sys) && x.InTx? && OwnWrites(sys, bound(s), x.writes)
    ensures RowsOk(bound, sys.(sessions := sys.sessions[s := x]))
  {
  }

  lemma OpenKeeps(bound: Binding, sys: Sys, s: SessionId)
    requires SysOk(bound, sys)
    ensures SysOk(bound, Step(bound, sys, Open(s)).0)
  {
  }

  // The hook runs: the connection now carries the session's tenant.
  lemma BeginKeeps(bound: Binding, sys: Sys, s: SessionId, k: ConnId)
    requires SysOk(bound, sys)
    ensures SysOk(bound, Step(bound, sys, Begin(s, k)).0)
  {
  }

  lemma EndKeeps(bound: Binding, sys: Sys, s: SessionId, next: Session)
    requires SysOk(bound, sys) && Live(sys, s) && !next.InTx?
    ensures SysOk(bound, EndTx(sys, s, next))
  {
  }

  lemma CommitKeeps(bound: Binding, sys: Sys, s: SessionId)
    requires SysOk(bound, sys)
    ensures SysOk(bound, Step(bound, sys, Commit(s)).0)
  {
    if Live(sys, s) { EndKeeps(bound, sys, s, Idle); }
  }

  lemma CloseKeeps(bound: Binding, sys: Sys, s: SessionId)
    requires SysOk(bound, sys)
    ensures SysOk(bound, Step(bound, sys, Close(s)).0)
  {
    if Live(sys, s) { EndKeeps(bound, sys, s, Closed); }
  }

  lemma StepKeeps(bound: Binding, sys: Sys, e: Event)
    requires SysOk(bound, sys)
    ensures SysOk(bound, Step(bound, sys, e).0)
  {
    match e {
      case Open(s) => OpenKeeps(bound, sys, s);
      case Begin(s, k) => BeginKeeps(bound, sys, s, k);
      case Exec(s, stmt) => ExecKeeps(bound, sys, s, stmt);
      case Commit(s) => CommitKeeps(bound, sys, s);
      case Rollback(s) => if Live(sys, s) { EndKeeps(bound, sys, s, Idle); }
      case Close(s) => CloseKeeps(bound, sys, s);
    }
  }

  /* --- non-interference --- */

  lemma ViewOfUpdate(bound: Binding, sys: Sys, after: Sys, s: SessionId, x: Session, tenant: Option<Company>)
    requires after.sessions == sys.sessions[s := x]
    ensures View(bound, after, tenant).sessions ==
            if bound(s) == tenant
            then View(bound, sys, tenant).sessions[s := Erase(x)] else View(bound, sys, tenant).sessions
  {
  }

  lemma OwnKeys(bound: Binding, sys: Sys, s: SessionId, stmt: Stmt)
    requires SysOk(bound, sys) && Live(sys, s)
    ensures var after := Step(bound, sys, Exec(s, stmt)).0;
            OwnedBy(after, bound(s)) ==
            OwnedBy(sys, bound(s)) + if stmt.Insert? && after.owners != sys.owners then {stmt.key} else {}
  {
    assert Tenant(sys.conns[sys.sessions[s].conn].setting) == bound(s);
  }

  // A step of a session looks, to its tenant, like the same step in the
  // tenant's own database.
  ghost predicate SameStep(bound: Binding, sys: Sys, e: Event) {
    var (after, output) := Step(bound, sys, e);
    SoloStep(bound(e.s), View(bound, sys, bound(e.s)), EraseEvent(e)) == (View(bound, after, bound(e.s)), output)
  }

  lemma OwnExec(bound: Binding, sys: Sys, s: SessionId, stmt: Stmt)
    requires SysOk(bound, sys)
    ensures SameStep(bound, sys, Exec(s, stmt)) <==> Allowed(bound, sys, Exec(s, stmt))
  {
    if Live(sys, s) && !sys.sessions[s].failed {
      assert Tenant(sys.conns[sys.sessions[s].conn].setting) == bound(s);
      SameEffect(sys, bound(s), sys.sessions[s].writes, stmt);
      if !Collides(sys, bound(s), stmt) { OwnExecSame(bound, sys, s, stmt); }
    }
  }

  lemma OwnExecSame(bound: Binding, sys: Sys, s: SessionId, stmt: Stmt)
    requires SysOk(bound, sys) && Live(sys, s) && !sys.sessions[s].failed && !Collides(sys, bound(s), stmt)
    ensures SameStep(bound, sys, Exec(s, stmt))
  {
    var after := Step(bound, sys, Exec(s, stmt)).0;
    assert Tenant(sys.conns[sys.sessions[s].conn].setting) == bound(s);
    SameEffect(sys, bound(s), sys.sessions[s].writes, stmt);
    ViewOfUpdate(bound, sys, after, s, after.sessions[s], bound(s));
    OwnKeys(bound, sys, s, stmt);
  }

  lemma OwnCommit(bound: Binding, sys: Sys, s: SessionId)
    requires SysOk(bound, sys)
    ensures SameStep(bound, sys, Commit(s))
  {
    if Live(sys, s) {
      OwnOverlay(sys, bound(s), sys.sessions[s].writes);
      ViewOfUpdate(bound, sys, Step(bound, sys, Commit(s)).0, s, Idle, bound(s));
    }
  }

  lemma OwnBegin(bound: Binding, sys: Sys, s: SessionId, k: ConnId)
    requires SysOk(bound, sys)
    ensures SameStep(bound, sys, Begin(s, k)) <==> Allowed(bound, sys, Begin(s, k))
  {
    var after := Step(bound, sys, Begin(s, k)).0;
    if s in sys.sessions && sys.sessions[s].Idle? {
      if k in sys.conns && sys.conns[k].holder.None? {
        ViewOfUpdate(bound, sys, after, s, after.sessions[s], bound(s));
      } else {
        assert View(bound, after, bound(s)).sessions[s] == SoloIdle;
      }
    }
  }

  lemma OwnLifecycle(bound: Binding, sys: Sys, e: Event)
    requires SysOk(bound, sys) && (e.Open? || e.Rollback? || e.Close?)
    ensures SameStep(bound, sys, e)
  {
    var after := Step(bound, sys, e).0;
    if e.s in after.sessions {
      assert after.sessions == sys.sessions[e.s := after.sessions[e.s]];
      ViewOfUpdate(bound, sys, after, e.s, after.sessions[e.s], bound(e.s));
    }
  }

  // It does exactly when no other tenant's session is in the way.
  lemma OwnStep(bound: Binding, sys: Sys, e: Event)
    requires SysOk(bound, sys)
    ensures SameStep(bound, sys, e) <==> Allowed(bound, sys, e)
  {
    match e {
      case Begin(s, k) => OwnBegin(bound, sys, s, k);
      case Exec(s, stmt) => OwnExec(bound, sys, s, stmt);
      case Commit(s) => OwnCommit(bound, sys, s);
      case _ => OwnLifecycle(bound, sys, e);
    }
  }

  // What a collision tells: the key is taken.
  lemma CollisionTells(bound: Binding, sys: Sys, s: SessionId, stmt: Stmt)
    requires SysOk(bound, sys) && !Allowed(bound, sys, Exec(s, stmt))
    ensures Step(bound, sys, Exec(s, stmt)).1 == Violation
    ensures SoloStep(bound(s), View(bound, sys, bound(s)), SoloExec(s, stmt)).1 == Affected({stmt.key})
    ensures Step(bound, sys, Exec(s, stmt)).0.committed == sys.committed
  {
    assert Tenant(sys.conns[sys.sessions[s].conn].setting) == bound(s);
  }

  // Another tenant's step does not change what a tenant can see.
  lemma OtherStep(bound: Binding, sys: Sys, e: Event, tenant: Option<Company>)
    requires SysOk(bound, sys) && bound(e.s) != tenant
    ensures View(bound, Step(bound, sys, e).0, tenant) == View(bound, sys, tenant)
  {
    var after := Step(bound, sys, e).0;
    if e.s in after.sessions && after.sessions != sys.sessions {
      ViewOfUpdate(bound, sys, after, e.s, after.sessions[e.s], tenant);
    }
    match e {
      case Exec(s, stmt) => OtherExec(bound, sys, s, stmt, tenant);
      case Commit(s) =>
        if Live(sys, s) { OtherOverlay(sys, bound(s), tenant, sys.sessions[s].writes); }
      case _ =>
    }
  }

  lemma OtherExec(bound: Binding, sys: Sys, s: SessionId, stmt: Stmt, tenant: Option<Company>)
    requires SysOk(bound, sys) && bound(s) != tenant
    ensures OwnedBy(Step(bound, sys, Exec(s, stmt)).0, tenant) == OwnedBy(sys, tenant)
  {
  }

  /* --- whole runs --- */

  function Run(bound: Binding, sys: Sys, events: seq<Event>): Sys
    decreases |events|
  {
    if events == [] then sys else Run(bound, Step(bound, sys, events[0]).0, events[1..])
  }

  // What the sessions of one tenant were given, in order.
  function Outputs(bound: Binding, sys: Sys, events: seq<Event>, tenant: Option<Company>): seq<Output>
    decreases |events|
  {
    if events == [] then []
    else
      var (next, output) := Step(bound, sys, events[0]);
      (if bound(events[0].s) == tenant then [output] else []) + Outputs(bound, next, events[1..], tenant)
  }

  // No step of the tenant's own sessions meets another tenant's; the others
  // may do anything.
  ghost predicate OwnAllowed(bound: Binding, sys: Sys, events: seq<Event>, tenant: Option<Company>)
    decreases |events|
  {
    events != [] ==>
      && (bound(events[0].s) == tenant ==> Allowed(bound, sys, events[0]))
      && OwnAllowed(bound, Step(bound, sys, events[0]).0, events[1..], tenant)
  }

  lemma {:induction false} RunKeeps(bound: Binding, sys: Sys, events: seq<Event>)
    requires SysOk(bound, sys)
    ensures SysOk(bound, Run(bound, sys, events))
    decreases |events|
  {
    if events == [] {
    } else {
      StepKeeps(bound, sys, events[0]);
      RunKeeps(bound, Step(bound, sys, events[0]).0, events[1..]);
    }
  }

  // The steps of one tenant's sessions, without the connections they happened to get.
  function Project(bound: Binding, events: seq<Event>, tenant: Option<Company>): seq<SoloEvent> {
    if events == [] then []
    else (if bound(events[0].s) == tenant then [EraseEvent(events[0])] else []) + Project(bound, events[1..], tenant)
  }

  function SoloRun(tenant: Option<Company>, solo: Solo, events: seq<SoloEvent>): (Solo, seq<Output>)
    decreases |events|
  {
    if events == [] then (solo, [])
    else
      var (next, output) := SoloStep(tenant, solo, events[0]);
      var (last, outputs) := SoloRun(tenant, next, events[1..]);
      (last, [output] + outputs)
  }

  // One tenant's sessions get the results, and leave the rows, of running
  // alone in a database holding only that tenant's rows.
  ghost predicate AsIfAlone(bound: Binding, sys: Sys, events: seq<Event>, tenant: Option<Company>) {
    SoloRun(tenant, View(bound, sys, tenant), Project(bound, events, tenant)) ==
    (View(bound, Run(bound, sys, events), tenant), Outputs(bound, sys, events, tenant))
  }

  lemma AloneNext(bound: Binding, sys: Sys, e: Event, rest: seq<Event>, tenant: Option<Company>)
    requires SysOk(bound, sys) && (bound(e.s) == tenant ==> Allowed(bound, sys, e))
    ensures AsIfAlone(bound, sys, [e] + rest, tenant) <==> AsIfAlone(bound, Step(bound, sys, e).0, rest, tenant)
  {
    var events := [e] + rest;
    var (next, output) := Step(bound, sys, e);
    assert events[0] == e && events[1..] == rest;
    if bound(e.s) == tenant {
      OwnStep(bound, sys, e);
      assert Project(bound, events, tenant) == [EraseEvent(e)] + Project(bound, rest, tenant);
      assert Outputs(bound, sys, events, tenant) == [output] + Outputs(bound, next, rest, tenant);
      FirstCancels(output, SoloRun(tenant, View(bound, next, tenant), Project(bound, rest, tenant)).1,
                   Outputs(bound, next, rest, tenant));
      assert Project(bound, events, tenant)[1..] == Project(bound, rest, tenant);
    } else {
      OtherStep(bound, sys, e, tenant);
      assert Project(bound, events, tenant) == Project(bound, rest, tenant);
      assert Outputs(bound, sys, events, tenant) == Outputs(bound, next, rest, tenant);
    }
  }

  lemma FirstCancels(x: Output, a: seq<Output>, b: seq<Output>)
    ensures [x] + a == [x] + b <==> a == b
  {
    if [x] + a == [x] + b {
      assert a == ([x] + a)[1..] == ([x] + b)[1..] == b;
    }
  }

  // Whatever other tenants' sessions do in between, and whichever idle
  // connections the pool hands out.
  lemma {:induction false} RunsAsIfAlone(bound: Binding, sys: Sys, events: seq<Event>, tenant: Option<Company>)
    requires SysOk(bound, sys) && OwnAllowed(bound, sys, events, tenant)
    ensures AsIfAlone(bound, sys, events, tenant)
    decreases |events|
  {
    if events == [] {
    } else {
      StepKeeps(bound, sys, events[0]);
      RunsAsIfAlone(bound, Step(bound, sys, events[0]).0, events[1..], tenant);
      AloneNext(bound, sys, events[0], events[1..], tenant);
      assert [events[0]] + events[1..] == events;
    }
  }

  // At the first step in which another tenant is in the way, they do not.
  lemma NotAlone(bound: Binding, sys: Sys, e: Event)
    requires SysOk(bound, sys) && !Allowed(bound, sys, e)
    ensures !AsIfAlone(bound, sys, [e], bound(e.s))
  {
    OwnStep(bound, sys, e);
    var solo := View(bound, sys, bound(e.s));
    var (after, output) := Step(bound, sys, e);
    var (next, o) := SoloStep(bound(e.s), solo, EraseEvent(e));
    assert Project(bound, [e], bound(e.s)) == [EraseEvent(e)];
    assert SoloRun(bound(e.s), solo, [EraseEvent(e)]) == (next, [o]) by {
      assert [EraseEvent(e)][1..] == [];
      assert SoloRun(bound(e.s), next, []) == (next, []);
      assert [o] + [] == [o];
    }
    assert Outputs(bound, sys, [e], bound(e.s)) == [output];
    assert Run(bound, sys, [e]) == after;
    assert [o][0] == o && [output][0] == output;
  }

  // At every moment of a run as if alone, exactly when none of the tenant's
  // steps meets another tenant's connection or key.
  lemma {:induction false} AloneIffAllowed(bound: Binding, sys: Sys, events: seq<Event>, tenant: Option<Company>)
    requires SysOk(bound, sys)
    ensures OwnAllowed(bound, sys, events, tenant) <==>
            forall n :: 0 <= n <= |events| ==> AsIfAlone(bound, sys, events[..n], tenant)
    decreases |events|
  {
    if events == [] {
      assert forall n :: 0 <= n <= |events| ==> events[..n] == [];
    } else {
      var e, rest := events[0], events[1..];
      var next := Step(bound, sys, e).0;
      assert events[..0] == [] && events[..1] == [e];
      StepKeeps(bound, sys, e);
      if bound(e.s) == tenant && !Allowed(bound, sys, e) {
        NotAlone(bound, sys, e);
      } else {
        AloneIffAllowed(bound, next, rest, tenant);
        forall n | 0 <= n <= |rest|
          ensures AsIfAlone(bound, sys, events[..n + 1], tenant) <==> AsIfAlone(bound, next, rest[..n], tenant)
        {
          assert events[..n + 1] == [e] + rest[..n];
          AloneNext(bound, sys, e, rest[..n], tenant);
        }
        PrefixesShift(bound, sys, next, events, tenant);
      }
    }
  }

  lemma PrefixesShift(bound: Binding, sys: Sys, next: Sys, events: seq<Event>, tenant: Option<Company>)
    requires events != []
    requires forall n :: 0 <= n < |events| ==>
               (AsIfAlone(bound, sys, events[..n + 1], tenant) <==> AsIfAlone(bound, next, events[1..][..n], tenant))
    ensures (forall n :: 0 <= n <= |events| ==> AsIfAlone(bound, sys, events[..n], tenant)) <==>
            (forall n :: 0 <= n <= |events[1..]| ==> AsIfAlone(bound, next, events[1..][..n], tenant))
  {
    assert events[..0] == [] && AsIfAlone(bound, sys, [], tenant);
    if forall n :: 0 <= n <= |events| ==> AsIfAlone(bound, sys, events[..n], tenant) {
      forall n | 0 <= n <= |events[1..]| ensures AsIfAlone(bound, next, events[1..][..n], tenant) {
        assert AsIfAlone(bound, sys, events[..n + 1], tenant);
      }
    }
    if forall n :: 0 <= n <= |events[1..]| ==> AsIfAlone(bound, next, events[1..][..n], tenant) {
      forall n | 0 <= n <= |events| ensures AsIfAlone(bound, sys, events[..n], tenant) {
        if n > 0 { assert AsIfAlone(bound, next, events[1..][..n - 1], tenant); }
      }
    }
  }

  // Two runs that differ only in other tenants' rows and steps give one
  // tenant's sessions the same results and leave it the same rows.
  lemma NonInterference(bound: Binding, a: Sys, b: Sys, x: seq<Event>, y: seq<Event>, tenant: Option<Company>)
    requires SysOk(bound, a) && SysOk(bound, b)
    requires OwnAllowed(bound, a, x, tenant) && OwnAllowed(bound, b, y, tenant)
    requires View(bound, a, tenant) == View(bound, b, tenant)
    requires Project(bound, x, tenant) == Project(bound, y, tenant)
    ensures Outputs(bound, a, x, tenant) == Outputs(bound, b, y, tenant)
    ensures Visible(tenant, Run(bound, a, x).committed) == Visible(tenant, Run(bound, b, y).committed)
  {
    RunsAsIfAlone(bound, a, x, tenant);
    RunsAsIfAlone(bound, b, y, tenant);
  }

  // The sessions of one tenant alone change no other company's rows.
  lemma {:induction false} OnlyOwnRowsChange(bound: Binding, sys: Sys, events: seq<Event>, other: Company)
    requires SysOk(bound, sys) && forall e <- events :: bound(e.s) != Some(other)
    ensures Visible(Some(other), Run(bound, sys, events).committed) == Visible(Some(other), sys.committed)
    decreases |events|
  {
    if events == [] {
    } else {
      assert events[0] in events;
      StepKeeps(bound, sys, events[0]);
      OtherStep(bound, sys, events[0], Some(other));
      OnlyOwnRowsChange(bound, Step(bound, sys, events[0]).0, events[1..], other);
    }
  }

  // An unbound session reads no rows and affects none.
  lemma UnboundSeesNothing(bound: Binding, sys: Sys, s: SessionId, stmt: Stmt)
    requires SysOk(bound, sys) && bound(s).None?
    ensures var output := Step(bound, sys, Exec(s, stmt)).1;
            output == Result(map[]) || output == Affected({}) || output == Violation || output == InFailedTransaction
                || output == Silent
    ensures Step(bound, Step(bound, sys, Exec(s, stmt)).0, Commit(s)).0.committed == sys.committed
  {
    if Live(sys, s) {
      var tx := sys.sessions[s];
      assert OwnWrites(sys, None, tx.writes) && tx.writes == map[];
      NothingOverlaid(sys.committed);
      NoTenantNoEffect(sys.committed, sys.owners.Keys, stmt);
    }
  }

  lemma NothingOverlaid(rows: Rows)
    ensures Overlay(rows, map[]) == rows
  {
  }

  lemma NoTenantNoEffect(rows: Rows, taken: set<Key>, stmt: Stmt)
    ensures var effect := Execute(None, rows, taken, stmt);
            effect.writes == map[]
                && (effect.output == Result(map[]) || effect.output == Affected({}) || effect.output == Violation)
  {
    assert Visible(None, rows) == map[];
  }
}
