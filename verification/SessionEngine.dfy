// The same steps as methods on the pool's own state, and the two context
// managers built from them.
module SessionEngine {
  import opened TenantSessions
  import opened Wrappers

  class Engine {
    const bound: Binding
    var committed: Rows
    var owners: map<Key, Company>
    var conns: map<ConnId, Conn>
    var sessions: map<SessionId, Session>

    constructor (bound: Binding, committed: Rows, owners: map<Key, Company>, pool: set<ConnId>)
      requires forall k <- committed :: k in owners && owners[k] == committed[k].company
      ensures this.bound == bound && State() == Sys(committed, owners, map k | k in pool :: Conn(Unset, None), map[])
      ensures SysOk(bound, State())
    {
      this.bound, this.committed, this.owners := bound, committed, owners;
      conns, sessions := map k | k in pool :: Conn(Unset, None), map[];
    }

    function State(): Sys
      reads this
    {
      Sys(committed, owners, conns, sessions)
    }

    method OpenSession(s: SessionId)
      modifies this
      ensures State() == Step(bound, old(State()), Open(s)).0
    {
      if s !in sessions {
        sessions := sessions[s := Idle];
      }
    }

    // Checkout, then the after_begin hook.
    method BeginTransaction(s: SessionId, k: ConnId)
      modifies this
      ensures State() == Step(bound, old(State()), Begin(s, k)).0
    {
      if s in sessions && sessions[s].Idle? && k in conns && conns[k].holder.None? {
        sessions := sessions[s := InTx(k, map[], false)];
        conns := conns[k := conns[k].(holder := Some(s))];
        match bound(s) {
          case None =>
          case Some(company) => conns := conns[k := conns[k].(setting := To(company))];
        }
      }
    }

    method ExecuteStatement(s: SessionId, stmt: Stmt) returns (output: Output)
      modifies this
      ensures (State(), output) == Step(bound, old(State()), Exec(s, stmt))
    {
      output := Silent;
      if Live(State(), s) {
        var tx := sessions[s];
        if tx.failed {
          return InFailedTransaction;
        }
        var effect := Execute(Tenant(conns[tx.conn].setting), Overlay(committed, tx.writes), owners.Keys, stmt);
        sessions := sessions[s := InTx(tx.conn, tx.writes + effect.writes, effect.failed)];
        if stmt.Insert? && !effect.failed {
          owners := owners[stmt.key := stmt.row.company];
        }
        output := effect.output;
      }
    }

    method CommitTransaction(s: SessionId)
      modifies this
      ensures State() == Step(bound, old(State()), Commit(s)).0
    {
      if Live(State(), s) {
        var tx := sessions[s];
        if !tx.failed {
          committed := Overlay(committed, tx.writes);
        }
        conns := conns[tx.conn := Release(conns[tx.conn])];
        sessions := sessions[s := Idle];
      }
    }

    method RollbackTransaction(s: SessionId)
      modifies this
      ensures State() == Step(bound, old(State()), Rollback(s)).0
    {
      if Live(State(), s) {
        conns := conns[sessions[s].conn := Release(conns[sessions[s].conn])];
        sessions := sessions[s := Idle];
      }
    }

    method CloseSession(s: SessionId)
      modifies this
      ensures State() == Step(bound, old(State()), Close(s)).0
    {
      if Live(State(), s) {
        conns := conns[sessions[s].conn := Release(conns[sessions[s].conn])];
      }
      if s in sessions {
        sessions := sessions[s := Closed];
      }
    }

    method Perform(e: Event) returns (output: Output)
      modifies this
      ensures (State(), output) == Step(bound, old(State()), e)
    {
      output := Silent;
      match e {
        case Open(s) => OpenSession(s);
        case Begin(s, k) => BeginTransaction(s, k);
        case Exec(s, stmt) => output := ExecuteStatement(s, stmt);
        case Commit(s) => CommitTransaction(s);
        case Rollback(s) => RollbackTransaction(s);
        case Close(s) => CloseSession(s);
      }
    }

    // What the code inside the `async with` does: any number of transactions,
    // each on whatever connection the pool hands out.
    method Body(s: SessionId, body: seq<Event>)
      requires BodyOf(s, body)
      modifies this
      ensures State() == Run(bound, old(State()), body)
    {
      var i := 0;
      assert body[..0] == [];
      while i < |body|
        invariant i <= |body|
        invariant State() == Run(bound, old(State()), body[..i])
      {
        RunNext(bound, old(State()), body[..i], body[i]);
        assert body[..i + 1] == body[..i] + [body[i]];
        var _ := Perform(body[i]);
        i := i + 1;
      }
      assert body[..i] == body;
    }

    // get_session: commit unless the request raised, then close. `raises` also
    // stands for a commit that itself fails and is rolled back. However the
    // request ends, the session keeps no connection and no connection in the
    // pool keeps a tenant; a request that raised before any commit of its own
    // changed nothing.
    method GetSession(s: SessionId, body: seq<Event>, raises: bool)
      requires SysOk(bound, State()) && s !in sessions && BodyOf(s, body)
      modifies this
      ensures State() == Run(bound, old(State()), GetSessionEvents(s, body, raises))
      ensures SysOk(bound, State()) && Returned(State(), s)
      ensures raises && CommitFree(body) ==> committed == old(committed)
    {
      ghost var before := State();
      OpenSession(s);
      Body(s, body);
      if raises {
        RollbackTransaction(s);
      } else {
        CommitTransaction(s);
      }
      CloseSession(s);
      RunNext(bound, Step(bound, before, Open(s)).0, body, if raises then Rollback(s) else Commit(s));
      SessionEnds(bound, before, s, body + [if raises then Rollback(s) else Commit(s)]);
    }

    // tenant_session: rollback if the body raised, and the session is closed
    // either way. Nothing is committed unless the body does it.
    method TenantSession(s: SessionId, body: seq<Event>, raises: bool)
      requires SysOk(bound, State()) && s !in sessions && BodyOf(s, body)
      modifies this
      ensures State() == Run(bound, old(State()), TenantSessionEvents(s, body, raises))
      ensures SysOk(bound, State()) && Returned(State(), s)
      ensures CommitFree(body) ==> committed == old(committed)
    {
      ghost var before := State();
      OpenSession(s);
      Body(s, body);
      if raises {
        RollbackTransaction(s);
        RunNext(bound, Step(bound, before, Open(s)).0, body, Rollback(s));
      }
      CloseSession(s);
      assert body + [] == body;
      SessionEnds(bound, before, s, body + if raises then [Rollback(s)] else []);
    }
  }

  /* --- the steps of one session --- */

  ghost predicate BodyOf(s: SessionId, body: seq<Event>) {
    forall e <- body :: e.s == s && !e.Open? && !e.Close?
  }

  ghost predicate CommitFree(events: seq<Event>) {
    forall e <- events :: !e.Commit?
  }

  function GetSessionEvents(s: SessionId, body: seq<Event>, raises: bool): seq<Event> {
    [Open(s)] + (body + [if raises then Rollback(s) else Commit(s)]) + [Close(s)]
  }

  function TenantSessionEvents(s: SessionId, body: seq<Event>, raises: bool): seq<Event> {
    [Open(s)] + (body + if raises then [Rollback(s)] else []) + [Close(s)]
  }

  // The session is closed and holds no connection; idle connections carry no tenant.
  ghost predicate Returned(sys: Sys, s: SessionId) {
    && s in sys.sessions && sys.sessions[s] == Closed
    && forall k <- sys.conns :: sys.conns[k].holder != Some(s)
          && (sys.conns[k].holder.None? ==> Tenant(sys.conns[k].setting).None?)
  }

  lemma {:induction false} RunNext(bound: Binding, sys: Sys, events: seq<Event>, e: Event)
    ensures Run(bound, sys, events + [e]) == Step(bound, Run(bound, sys, events), e).0
    decreases |events|
  {
    if events == [] {
      assert Run(bound, sys, [e]) == Run(bound, Step(bound, sys, e).0, []);
    } else {
      RunNext(bound, Step(bound, sys, events[0]).0, events[1..], e);
      assert (events + [e])[1..] == events[1..] + [e];
    }
  }

  lemma {:induction false} CommitFreeRun(bound: Binding, sys: Sys, events: seq<Event>)
    requires CommitFree(events)
    ensures Run(bound, sys, events).committed == sys.committed
    decreases |events|
  {
    if events == [] {
    } else {
      assert events[0] in events;
      CommitFreeRun(bound, Step(bound, sys, events[0]).0, events[1..]);
    }
  }

  // [Open(s)], more steps, Close(s).
  lemma RunOfSession(bound: Binding, sys: Sys, s: SessionId, steps: seq<Event>)
    ensures Run(bound, sys, [Open(s)] + steps + [Close(s)]) ==
            Step(bound, Run(bound, Step(bound, sys, Open(s)).0, steps), Close(s)).0
  {
    var events := [Open(s)] + steps + [Close(s)];
    assert events[1..] == steps + [Close(s)] && events[0] == Open(s);
    RunNext(bound, Step(bound, sys, Open(s)).0, steps, Close(s));
  }

  lemma ClosedReturns(bound: Binding, sys: Sys, s: SessionId)
    requires SysOk(bound, sys) && s in sys.sessions && sys.sessions[s] == Closed
    ensures Returned(sys, s)
  {
  }

  lemma SessionEnds(bound: Binding, sys: Sys, s: SessionId, steps: seq<Event>)
    requires SysOk(bound, sys)
    ensures var after := Run(bound, sys, [Open(s)] + steps + [Close(s)]);
            && after == Step(bound, Run(bound, Step(bound, sys, Open(s)).0, steps), Close(s)).0
            && SysOk(bound, after) && Returned(after, s)
            && (CommitFree(steps) ==> after.committed == sys.committed)
  {
    var events := [Open(s)] + steps + [Close(s)];
    var open := Step(bound, sys, Open(s)).0;
    RunOfSession(bound, sys, s, steps);
    OpenKnows(bound, sys, s);
    StaysKnown(bound, open, steps, s);
    RunKeeps(bound, sys, events);
    CloseCloses(bound, Run(bound, open, steps), s);
    ClosedReturns(bound, Run(bound, sys, events), s);
    if CommitFree(steps) {
      CommitFreeRun(bound, sys, events);
    }
  }

  lemma CloseCloses(bound: Binding, sys: Sys, s: SessionId)
    requires s in sys.sessions
    ensures var after := Step(bound, sys, Close(s)).0; s in after.sessions && after.sessions[s] == Closed
  {
  }

  lemma OpenKnows(bound: Binding, sys: Sys, s: SessionId)
    ensures s in Step(bound, sys, Open(s)).0.sessions
  {
  }

  lemma {:induction false} StaysKnown(bound: Binding, sys: Sys, events: seq<Event>, s: SessionId)
    requires s in sys.sessions
    ensures s in Run(bound, sys, events).sessions
    decreases |events|
  {
    if events == [] {
    } else {
      StaysKnown(bound, Step(bound, sys, events[0]).0, events[1..], s);
    }
  }
}
