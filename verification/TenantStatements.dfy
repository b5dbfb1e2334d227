// What a session's statements do, told by what its SELECTs show and by the rows
// committed in the end.
module TenantStatements {
  import opened Wrappers
  import opened TenantSessions

  // The session may write this row.
  predicate Mine(bound: Binding, s: SessionId, r: Row) {
    bound(s).Some? && bound(s).value == r.company
  }

  // What a SELECT of the session returns.
  function Seen(bound: Binding, sys: Sys, s: SessionId): Output {
    Step(bound, sys, Exec(s, Select)).1
  }

  ghost predicate Working(bound: Binding, sys: Sys, s: SessionId) {
    SysOk(bound, sys) && Live(sys, s) && !sys.sessions[s].failed
  }

  // The row stands in the table as its company's sessions see it.
  predicate Stands(rows: Rows, k: Key, r: Row) {
    k in rows && rows[k] == r
  }

  /* --- one step, without the connection --- */

  lemma SeenIs(bound: Binding, sys: Sys, s: SessionId)
    requires SysOk(bound, sys) && Live(sys, s)
    ensures Seen(bound, sys, s) ==
            if sys.sessions[s].failed then InFailedTransaction
            else Result(Visible(bound(s), Overlay(sys.committed, sys.sessions[s].writes)))
  {
  }

  lemma ExecIs(bound: Binding, sys: Sys, s: SessionId, stmt: Stmt)
    requires Working(bound, sys, s)
    ensures var after, output := Step(bound, sys, Exec(s, stmt)).0, Step(bound, sys, Exec(s, stmt)).1;
            var tx := sys.sessions[s];
            var effect := Execute(bound(s), Overlay(sys.committed, tx.writes), sys.owners.Keys, stmt);
            && output == effect.output && SysOk(bound, after) && Live(after, s) && after.committed == sys.committed
            && after.sessions[s] == InTx(tx.conn, tx.writes + effect.writes, effect.failed)
  {
    assert Tenant(sys.conns[sys.sessions[s].conn].setting) == bound(s);
    StepKeeps(bound, sys, Exec(s, stmt));
  }

  lemma OverlayTwice(rows: Rows, writes: Writes, more: Writes)
    ensures Overlay(rows, writes + more) == Overlay(Overlay(rows, writes), more)
  {
  }

  // The row a key has afterwards.
  predicate Becomes(before: Rows, changes: map<Key, Change>, k: Key, r: Row) {
    k in before && if k in changes then changes[k] == Put(r) else before[k] == r
  }

  lemma ChangedRows(bound: Binding, s: SessionId, rows: Rows, changes: map<Key, Change>)
    ensures var before := Visible(bound(s), rows);
            var writes := Changes(before, changes);
            && (WithCheck(bound(s), writes) <==> !Escapes(bound, s, before, changes))
            && writes.Keys == (set k | k in before && k in changes)
            && (WithCheck(bound(s), writes) ==>
                  forall k, r ::
                    Stands(Visible(bound(s), Overlay(rows, writes)), k, r) <==> Becomes(before, changes, k, r))
  {
    var before := Visible(bound(s), rows);
    var writes := Changes(before, changes);
    assert forall k <- before :: k in changes ==> k in writes;
  }

  lemma InsertedRow(bound: Binding, s: SessionId, rows: Rows, key: Key, row: Row)
    ensures Mine(bound, s, row) ==>
              Visible(bound(s), Overlay(rows, map[key := Some(row)])) == Visible(bound(s), rows)[key := row]
  {
  }

  lemma RunOfThree(bound: Binding, sys: Sys, a: Event, b: Event, c: Event)
    ensures Run(bound, sys, [a, b, c]) == Step(bound, Step(bound, Step(bound, sys, a).0, b).0, c).0
  {
    var first := Step(bound, sys, a).0;
    var second := Step(bound, first, b).0;
    assert [a, b, c][1..] == [b, c] && [b, c][1..] == [c] && [c][1..] == [];
    assert Run(bound, second, [c]) == Run(bound, Step(bound, second, c).0, []);
    assert Run(bound, first, [b, c]) == Run(bound, second, [c]);
  }

  /* --- the statements --- */

  // The committed rows of the session's company.
  function OwnRows(bound: Binding, s: SessionId, rows: Rows): Rows {
    map k | k in rows && Mine(bound, s, rows[k]) :: rows[k]
  }

  // A transaction that has written nothing reads the committed rows of its company.
  lemma FreshSelect(bound: Binding, sys: Sys, s: SessionId)
    requires Working(bound, sys, s) && sys.sessions[s].writes == map[]
    ensures Seen(bound, sys, s) == Result(OwnRows(bound, s, sys.committed))
    ensures Step(bound, sys, Exec(s, Select)).0 == sys
  {
    NothingOverlaid(sys.committed);
    SeenIs(bound, sys, s);
    assert sys.sessions == sys.sessions[s := sys.sessions[s]];
  }

  // Some visible row would go to another company.
  predicate Escapes(bound: Binding, s: SessionId, visible: Rows, changes: map<Key, Change>) {
    exists k <- visible :: k in changes && changes[k].Put? && !Mine(bound, s, changes[k].row)
  }

  // An UPDATE or DELETE is refused exactly when it would move a visible row to
  // another company. Otherwise the next SELECT shows the new rows, the deleted
  // ones are gone, and the others stay.
  lemma ModifyShows(bound: Binding, sys: Sys, s: SessionId, f: Rows -> map<Key, Change>)
    requires Working(bound, sys, s)
    ensures Seen(bound, sys, s).Result?
    ensures var before := Seen(bound, sys, s).rows;
            var e := Exec(s, Modify(f));
            var after, output := Step(bound, sys, e).0, Step(bound, sys, e).1;
            if Escapes(bound, s, before, f(before)) then
              output == Violation && Seen(bound, after, s) == InFailedTransaction
            else
              && output == Affected(set k | k in before && k in f(before))
              && Working(bound, after, s) && Seen(bound, after, s).Result?
              && forall k, r :: Stands(Seen(bound, after, s).rows, k, r) <==> Becomes(before, f(before), k, r)
  {
    var all := Overlay(sys.committed, sys.sessions[s].writes);
    var visible := Visible(bound(s), all);
    SeenIs(bound, sys, s);
    ExecIs(bound, sys, s, Modify(f));
    SeenIs(bound, Step(bound, sys, Exec(s, Modify(f))).0, s);
    ChangedRows(bound, s, all, f(visible));
    OverlayTwice(sys.committed, sys.sessions[s].writes, Changes(visible, f(visible)));
  }

  // So is an INSERT: refused for a key that was used before or another company's row.
  lemma InsertShows(bound: Binding, sys: Sys, s: SessionId, key: Key, row: Row)
    requires Working(bound, sys, s)
    ensures Seen(bound, sys, s).Result?
    ensures var before := Seen(bound, sys, s).rows;
            var e := Exec(s, Insert(key, row));
            var after, output := Step(bound, sys, e).0, Step(bound, sys, e).1;
            if key in sys.owners || !Mine(bound, s, row) then
              output == Violation && Seen(bound, after, s) == InFailedTransaction
            else
              && output == Affected({key})
              && Working(bound, after, s) && Seen(bound, after, s) == Result(before[key := row])
  {
    SeenIs(bound, sys, s);
    ExecIs(bound, sys, s, Insert(key, row));
    SeenIs(bound, Step(bound, sys, Exec(s, Insert(key, row))).0, s);
    OverlayTwice(sys.committed, sys.sessions[s].writes, map[key := Some(row)]);
    InsertedRow(bound, s, Overlay(sys.committed, sys.sessions[s].writes), key, row);
  }

  // A commit leaves what the session's SELECTs showed in the committed rows of
  // its company, and the other companies' rows as they were.
  lemma CommitShows(bound: Binding, sys: Sys, s: SessionId)
    requires Working(bound, sys, s)
    ensures Seen(bound, sys, s).Result?
    ensures forall k, r :: Stands(Step(bound, sys, Commit(s)).0.committed, k, r) <==>
              if Mine(bound, s, r) then Stands(Seen(bound, sys, s).rows, k, r) else Stands(sys.committed, k, r)
  {
    SeenIs(bound, sys, s);
    assert OwnWrites(sys, bound(s), sys.sessions[s].writes);
  }

  // A failed transaction, a rollback and every statement leave the committed rows alone.
  lemma OnlyCommitWrites(bound: Binding, sys: Sys, e: Event)
    requires !e.Commit? || (Live(sys, e.s) && sys.sessions[e.s].failed)
    ensures Step(bound, sys, e).0.committed == sys.committed
  {
  }

  lemma BeginWorks(bound: Binding, sys: Sys, s: SessionId, conn: ConnId)
    requires SysOk(bound, sys) && s in sys.sessions && sys.sessions[s] == Idle
    requires conn in sys.conns && sys.conns[conn].holder.None?
    ensures var begun := Step(bound, sys, Begin(s, conn)).0;
            Working(bound, begun, s) && begun.sessions[s].writes == map[] && begun.committed == sys.committed
  {
    StepKeeps(bound, sys, Begin(s, conn));
  }

  // One UPDATE or DELETE in a transaction of its own: what is committed in the end.
  lemma ModifyCommitted(bound: Binding, sys: Sys, s: SessionId, conn: ConnId, f: Rows -> map<Key, Change>)
    requires SysOk(bound, sys) && s in sys.sessions && sys.sessions[s] == Idle
    requires conn in sys.conns && sys.conns[conn].holder.None?
    ensures var mine := OwnRows(bound, s, sys.committed);
            var end := Run(bound, sys, [Begin(s, conn), Exec(s, Modify(f)), Commit(s)]);
            forall k, r :: Stands(end.committed, k, r) <==>
              if k in mine && !Escapes(bound, s, mine, f(mine)) then Becomes(mine, f(mine), k, r)
              else Stands(sys.committed, k, r)
  {
    var mine := OwnRows(bound, s, sys.committed);
    var begun := Step(bound, sys, Begin(s, conn)).0;
    var done := Step(bound, begun, Exec(s, Modify(f))).0;
    BeginWorks(bound, sys, s, conn);
    FreshSelect(bound, begun, s);
    ModifyShows(bound, begun, s, f);
    OnlyCommitWrites(bound, begun, Exec(s, Modify(f)));
    RunOfThree(bound, sys, Begin(s, conn), Exec(s, Modify(f)), Commit(s));
    if Escapes(bound, s, mine, f(mine)) {
      OnlyCommitWrites(bound, done, Commit(s));
    } else {
      CommitShows(bound, done, s);
    }
  }
}
