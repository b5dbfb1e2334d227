// One session among others: what it leaves behind, however its steps are
// interleaved with theirs.
module SessionTraces {
  import opened TenantSessions
  import opened SessionEngine
  import opened Wrappers

  // The steps of session s, and those of all others.
  ghost function Of(events: seq<Event>, s: SessionId): seq<Event> {
    if events == [] then []
    else (if events[0].s == s then [events[0]] else []) + Of(events[1..], s)
  }

  ghost function Others(events: seq<Event>, s: SessionId): seq<Event> {
    if events == [] then []
    else (if events[0].s != s then [events[0]] else []) + Others(events[1..], s)
  }

  // What every session but s is given, in order.
  ghost function OutputsBut(bound: Binding, sys: Sys, events: seq<Event>, s: SessionId): seq<Output>
    decreases |events|
  {
    if events == [] then []
    else
      var (next, output) := Step(bound, sys, events[0]);
      (if events[0].s != s then [output] else []) + OutputsBut(bound, next, events[1..], s)
  }

  /* --- without session s --- */

  // b is a without session s, whose connection, if it has one, is idle in b.
  ghost predicate SameWithout(a: Sys, b: Sys, s: SessionId) {
    && a.committed == b.committed
    && b.owners.Keys <= a.owners.Keys
    && b.sessions == (map x | x in a.sessions && x != s :: a.sessions[x])
    && a.conns.Keys == b.conns.Keys
    && forall k <- a.conns :: SameConn(a.conns[k], b.conns[k], s)
  }

  ghost predicate SameConn(c: Conn, d: Conn, s: SessionId) {
    if c.holder == Some(s) then d.holder.None? && Tenant(d.setting).None?
    else d.holder == c.holder && Tenant(d.setting) == Tenant(c.setting)
  }

  // The pool hands the session of step e an idle connection, and its insert
  // meets no key that only session s has used.
  ghost predicate StepUnhindered(a: Sys, b: Sys, e: Event) {
    match e
    case Begin(x, k) => x in a.sessions && a.sessions[x].Idle? ==> k in a.conns && a.conns[k].holder.None?
    case Exec(x, stmt) => stmt.Insert? && stmt.key in a.owners ==> stmt.key in b.owners
    case _ => true
  }

  ghost predicate Unhindered(bound: Binding, a: Sys, b: Sys, events: seq<Event>, s: SessionId)
    decreases |events|
  {
    events != [] ==>
      var e, next := events[0], Step(bound, a, events[0]).0;
      && (e.s != s ==> StepUnhindered(a, b, e))
      && Unhindered(bound, next, if e.s == s then b else Step(bound, b, e).0, events[1..], s)
  }

  lemma OwnBeginHidden(bound: Binding, a: Sys, b: Sys, s: SessionId, k: ConnId)
    requires ConnsOk(bound, a) && SameWithout(a, b, s)
    ensures SameWithout(Step(bound, a, Begin(s, k)).0, b, s)
  {
    var a' := Step(bound, a, Begin(s, k)).0;
    forall c | c in a.conns ensures SameConn(a'.conns[c], b.conns[c], s) {
      assert SameConn(a.conns[c], b.conns[c], s);
    }
  }

  lemma OwnEndHidden(bound: Binding, a: Sys, b: Sys, s: SessionId, next: Session)
    requires ConnsOk(bound, a) && Live(a, s) && SameWithout(a, b, s)
    ensures SameWithout(EndTx(a, s, next), b, s)
  {
    forall c | c in a.conns ensures SameConn(EndTx(a, s, next).conns[c], b.conns[c], s) {
      assert SameConn(a.conns[c], b.conns[c], s);
    }
  }

  // Until it commits, nothing session s does shows.
  lemma OwnStepHidden(bound: Binding, a: Sys, b: Sys, e: Event)
    requires SysOk(bound, a) && SameWithout(a, b, e.s) && !e.Commit?
    ensures SameWithout(Step(bound, a, e).0, b, e.s)
  {
    match e {
      case Begin(s, k) => OwnBeginHidden(bound, a, b, s, k);
      case Rollback(s) => if Live(a, s) { OwnEndHidden(bound, a, b, s, Idle); }
      case Close(s) => if Live(a, s) { OwnEndHidden(bound, a, b, s, Closed); }
      case _ =>
    }
  }

  lemma SameExecute(tenant: Option<Company>, rows: Rows, a: set<Key>, b: set<Key>, stmt: Stmt)
    requires stmt.Insert? ==> (stmt.key in a <==> stmt.key in b)
    ensures Execute(tenant, rows, a, stmt) == Execute(tenant, rows, b, stmt)
  {
  }

  lemma BothSet(a: Sys, b: Sys, x: SessionId, v: Session, oa: map<Key, Company>, ob: map<Key, Company>, s: SessionId)
    requires SameWithout(a, b, s) && x != s && ob.Keys <= oa.Keys
    ensures SameWithout(a.(sessions := a.sessions[x := v], owners := oa),
                        b.(sessions := b.sessions[x := v], owners := ob), s)
  {
  }

  lemma OtherExecSame(bound: Binding, a: Sys, b: Sys, x: SessionId, stmt: Stmt, s: SessionId)
    requires SysOk(bound, a) && StepUnhindered(a, b, Exec(x, stmt)) && SameWithout(a, b, s) && x != s
    ensures Step(bound, b, Exec(x, stmt)).1 == Step(bound, a, Exec(x, stmt)).1
    ensures SameWithout(Step(bound, a, Exec(x, stmt)).0, Step(bound, b, Exec(x, stmt)).0, s)
  {
    if Live(a, x) {
      var k := a.sessions[x].conn;
      assert SameConn(a.conns[k], b.conns[k], s) && a.conns[k].holder == Some(x);
      var rows := Overlay(a.committed, a.sessions[x].writes);
      SameExecute(Tenant(a.conns[k].setting), rows, a.owners.Keys, b.owners.Keys, stmt);
      if !a.sessions[x].failed {
        var a', b' := Step(bound, a, Exec(x, stmt)).0, Step(bound, b, Exec(x, stmt)).0;
        BothSet(a, b, x, a'.sessions[x], a'.owners, b'.owners, s);
      }
    }
  }

  lemma OtherBeginSame(bound: Binding, a: Sys, b: Sys, x: SessionId, k: ConnId, s: SessionId)
    requires SysOk(bound, a) && StepUnhindered(a, b, Begin(x, k)) && SameWithout(a, b, s) && x != s
    ensures SameWithout(Step(bound, a, Begin(x, k)).0, Step(bound, b, Begin(x, k)).0, s)
  {
    var a', b' := Step(bound, a, Begin(x, k)).0, Step(bound, b, Begin(x, k)).0;
    forall c | c in a.conns ensures SameConn(a'.conns[c], b'.conns[c], s) {
      assert SameConn(a.conns[c], b.conns[c], s);
    }
  }

  lemma OtherEndSame(bound: Binding, a: Sys, b: Sys, x: SessionId, next: Session, s: SessionId)
    requires SysOk(bound, a) && SameWithout(a, b, s) && x != s && Live(a, x)
    ensures Live(b, x) && b.sessions[x] == a.sessions[x] && SameWithout(EndTx(a, x, next), EndTx(b, x, next), s)
  {
    var k := a.sessions[x].conn;
    assert SameConn(a.conns[k], b.conns[k], s) && a.conns[k].holder == Some(x);
  }

  // The steps of other sessions go the same way.
  lemma OtherStepSame(bound: Binding, a: Sys, b: Sys, e: Event, s: SessionId)
    requires SysOk(bound, a) && StepUnhindered(a, b, e) && SameWithout(a, b, s) && e.s != s
    ensures Step(bound, b, e).1 == Step(bound, a, e).1
    ensures SameWithout(Step(bound, a, e).0, Step(bound, b, e).0, s)
  {
    match e {
      case Open(x) =>
      case Begin(x, k) => OtherBeginSame(bound, a, b, x, k, s);
      case Exec(x, stmt) => OtherExecSame(bound, a, b, x, stmt, s);
      case Commit(x) => if Live(a, x) { OtherEndSame(bound, a, b, x, Idle, s); }
      case Rollback(x) => if Live(a, x) { OtherEndSame(bound, a, b, x, Idle, s); }
      case Close(x) => if Live(a, x) { OtherEndSame(bound, a, b, x, Closed, s); }
    }
  }

  // A session that never commits leaves the database, and everything the other
  // sessions are given, as if it had never been.
  lemma {:induction false} UncommittedLeavesNoTrace(bound: Binding, a: Sys, b: Sys, events: seq<Event>, s: SessionId)
    requires SysOk(bound, a) && Unhindered(bound, a, b, events, s) && SameWithout(a, b, s)
    requires CommitFree(Of(events, s))
    ensures SameWithout(Run(bound, a, events), Run(bound, b, Others(events, s)), s)
    ensures OutputsBut(bound, a, events, s) == OutputsBut(bound, b, Others(events, s), s)
    decreases |events|
  {
    if events == [] {
    } else {
      var e, rest := events[0], events[1..];
      var (next, output) := Step(bound, a, e);
      StepKeeps(bound, a, e);
      assert forall f :: f in Of(rest, s) ==> f in Of(events, s);
      if e.s == s {
        assert e in Of(events, s);
        OwnStepHidden(bound, a, b, e);
        assert Others(events, s) == Others(rest, s);
        UncommittedLeavesNoTrace(bound, next, b, rest, s);
      } else {
        OtherStepSame(bound, a, b, e, s);
        assert Others(events, s) == [e] + Others(rest, s);
        assert Others(events, s)[1..] == Others(rest, s);
        UncommittedLeavesNoTrace(bound, next, Step(bound, b, e).0, rest, s);
      }
    }
  }

  /* --- the end of session s --- */

  lemma OtherLeavesSession(bound: Binding, sys: Sys, e: Event, s: SessionId)
    requires e.s != s
    ensures var after := Step(bound, sys, e).0;
            (s in after.sessions <==> s in sys.sessions) && (s in sys.sessions ==> after.sessions[s] == sys.sessions[s])
  {
  }

  lemma {:induction false} EndsClosed(bound: Binding, sys: Sys, events: seq<Event>, s: SessionId)
    requires Of(events, s) != [] ==> Of(events, s)[|Of(events, s)| - 1] == Close(s)
    requires Of(events, s) == [] ==> s in sys.sessions && sys.sessions[s] == Closed
    requires s in sys.sessions || Of(events, s)[0] == Open(s)
    ensures s in Run(bound, sys, events).sessions && Run(bound, sys, events).sessions[s] == Closed
    decreases |events|
  {
    if events == [] {
    } else {
      var e, rest := events[0], events[1..];
      if e.s == s {
        assert Of(events, s) == [e] + Of(rest, s);
        if Of(rest, s) != [] {
          assert Of(events, s)[|Of(events, s)| - 1] == Of(rest, s)[|Of(rest, s)| - 1];
        }
      } else {
        OtherLeavesSession(bound, sys, e, s);
        assert Of(events, s) == Of(rest, s);
      }
      EndsClosed(bound, Step(bound, sys, e).0, rest, s);
    }
  }

  ghost predicate OpensAndCloses(own: seq<Event>, s: SessionId) {
    own != [] && own[0] == Open(s) && own[|own| - 1] == Close(s)
  }

  lemma AmongOthers(bound: Binding, sys: Sys, events: seq<Event>, s: SessionId)
    requires SysOk(bound, sys) && s !in sys.sessions
    requires OpensAndCloses(Of(events, s), s)
    ensures SysOk(bound, Run(bound, sys, events)) && Returned(Run(bound, sys, events), s)
    ensures CommitFree(Of(events, s)) && Unhindered(bound, sys, sys, events, s) ==>
              && Run(bound, sys, events).committed == Run(bound, sys, Others(events, s)).committed
              && OutputsBut(bound, sys, events, s) == OutputsBut(bound, sys, Others(events, s), s)
  {
    RunKeeps(bound, sys, events);
    EndsClosed(bound, sys, events, s);
    ClosedReturns(bound, Run(bound, sys, events), s);
    if CommitFree(Of(events, s)) && Unhindered(bound, sys, sys, events, s) {
      SameWithoutAtFirst(bound, sys, s);
      UncommittedLeavesNoTrace(bound, sys, sys, events, s);
    }
  }

  lemma SameWithoutAtFirst(bound: Binding, sys: Sys, s: SessionId)
    requires SysOk(bound, sys) && s !in sys.sessions
    ensures SameWithout(sys, sys, s)
  {
  }

  // get_session among other sessions, interleaved in any way: it keeps no
  // connection, idle connections carry no tenant, and if the request or its
  // commit raised before any other commit, it leaves no trace.
  lemma GetSessionAmongOthers(bound: Binding, sys: Sys, events: seq<Event>, s: SessionId, body: seq<Event>,
                              raises: bool)
    requires SysOk(bound, sys) && s !in sys.sessions
    requires BodyOf(s, body) && Of(events, s) == GetSessionEvents(s, body, raises)
    ensures SysOk(bound, Run(bound, sys, events)) && Returned(Run(bound, sys, events), s)
    ensures raises && CommitFree(body) && Unhindered(bound, sys, sys, events, s) ==>
              && Run(bound, sys, events).committed == Run(bound, sys, Others(events, s)).committed
              && OutputsBut(bound, sys, events, s) == OutputsBut(bound, sys, Others(events, s), s)
  {
    AmongOthers(bound, sys, events, s);
  }

  // The same for tenant_session, which itself never commits.
  lemma TenantSessionAmongOthers(bound: Binding, sys: Sys, events: seq<Event>, s: SessionId, body: seq<Event>,
                                 raises: bool)
    requires SysOk(bound, sys) && s !in sys.sessions
    requires BodyOf(s, body) && Of(events, s) == TenantSessionEvents(s, body, raises)
    ensures SysOk(bound, Run(bound, sys, events)) && Returned(Run(bound, sys, events), s)
    ensures CommitFree(body) && Unhindered(bound, sys, sys, events, s) ==>
              && Run(bound, sys, events).committed == Run(bound, sys, Others(events, s)).committed
              && OutputsBut(bound, sys, events, s) == OutputsBut(bound, sys, Others(events, s), s)
  {
    AmongOthers(bound, sys, events, s);
  }
}
