// What one transaction on a budget comes to when no other runs beside it.
module BudgetAlone {
  import opened BudgetLedger
  import opened BudgetSums
  import opened Wrappers

  // n steps of transaction t.
  ghost function Alone(sys: Sys, t: Tid, n: nat): Sys {
    if n == 0 then sys else Step(Alone(sys, t, n - 1), Do(t))
  }

  // Nothing is locked, and t is not yet a transaction.
  ghost predicate Quiet(sys: Sys, t: Tid) {
    sys.policyLock.None? && sys.rowLocks == map[] && t !in sys.txs
  }

  ghost function Whole(sys: Sys, t: Tid, op: Op, n: nat): Sys {
    Alone(Step(sys, Begin(t, op)), t, n)
  }

  // Transaction t of the otherwise quiet system, so far.
  ghost function With(sys: Sys, t: Tid, op: Op, phase: Phase, locked: bool, rows: set<HoldId>): Sys {
    sys.(txs := sys.txs[t := Tx(op, phase)], policyLock := if locked then Some(t) else None,
         rowLocks := LocksOf(t, rows))
  }

  function LocksOf(t: Tid, rows: set<HoldId>): map<HoldId, Tid> {
    map id | id in rows :: t
  }

  lemma Begun(sys: Sys, t: Tid, op: Op)
    requires Quiet(sys, t)
    ensures Whole(sys, t, op, 0) == With(sys, t, op, Start, false, {})
  {
    assert LocksOf(t, {}) == map[];
  }

  lemma Ended(sys: Sys, t: Tid, op: Op, phase: Phase, locked: bool, rows: set<HoldId>)
    requires Quiet(sys, t)
    ensures End(With(sys, t, op, phase, locked, rows), t) == sys
  {
    var now := With(sys, t, op, phase, locked, rows);
    assert now.txs - {t} == sys.txs;
    assert (map id | id in now.rowLocks && now.rowLocks[id] != t :: now.rowLocks[id]) == map[];
  }

  lemma Moved(sys: Sys, t: Tid, op: Op, phase: Phase, next: Phase, locked: bool, rows: set<HoldId>)
    ensures At(With(sys, t, op, phase, locked, rows), t, next) == With(sys, t, op, next, locked, rows)
  {
    assert sys.txs[t := Tx(op, phase)][t := Tx(op, next)] == sys.txs[t := Tx(op, next)];
  }

  lemma Locked(sys: Sys, t: Tid, op: Op, phase: Phase, next: Phase, locked: bool, rows: set<HoldId>)
    ensures TakeRows(With(sys, t, op, phase, locked, {}), t, rows, next) == With(sys, t, op, next, locked, rows)
  {
    Moved(sys, t, op, phase, next, locked, {});
    assert LocksOf(t, {}) + (map id | id in rows :: t) == LocksOf(t, rows);
  }

  // A reserve is granted exactly when the cents fit beside what is spent and held.
  lemma ReserveAlone(sys: Sys, t: Tid, id: HoldId, cents: nat)
    requires Quiet(sys, t) && id !in sys.holds
    ensures var op, p := Reserve(id, cents), sys.policy;
            if cents > 0 && p.spent + p.reserved + cents > p.amount then Whole(sys, t, op, 1) == sys
            else Whole(sys, t, op, 2) == sys.(policy := Policy(p.amount, p.spent, p.reserved + cents),
                                              holds := sys.holds[id := Hold(cents, Reserved)])
  {
    var op := Reserve(id, cents);
    Begun(sys, t, op);
    Ended(sys, t, op, Start, false, {});
    Moved(sys, t, op, Start, Ready(map[], {}), false, {});
    Ended(sys, t, op, Ready(map[], {}), cents > 0, {});
    if cents == 0 || sys.policy.spent + sys.policy.reserved + cents <= sys.policy.amount {
      assert Whole(sys, t, op, 1) == With(sys, t, op, Ready(map[], {}), cents > 0, {});
    }
  }

  // A settlement of a live hold takes it off the held cents and books what was
  // spent; of any other hold, it does nothing.
  lemma SettleAlone(sys: Sys, t: Tid, id: HoldId, spend: Option<nat>)
    requires Quiet(sys, t)
    ensures var op, p := Settle(id, spend), sys.policy;
            if id in sys.holds && sys.holds[id].status == Reserved then
              var c := sys.holds[id].cents;
              Whole(sys, t, op, 4) ==
              sys.(policy := Policy(p.amount, p.spent + if spend.Some? then spend.value else 0,
                                    if p.reserved >= c then p.reserved - c else 0),
                   holds := sys.holds[id := if spend.Some? then Hold(spend.value, Committed) else Hold(0, Released)])
            else Whole(sys, t, op, 1) == sys
  {
    var op := Settle(id, spend);
    Begun(sys, t, op);
    if id in Live(sys.holds) {
      SettleCommits(sys, t, id, spend);
    } else {
      Ended(sys, t, op, Start, false, {});
    }
  }

  lemma SettleCommits(sys: Sys, t: Tid, id: HoldId, spend: Option<nat>)
    requires Quiet(sys, t) && id in Live(sys.holds)
    ensures var op, p, c := Settle(id, spend), sys.policy, sys.holds[id].cents;
            Whole(sys, t, op, 4) ==
            sys.(policy := p.(spent := p.spent + if spend.Some? then spend.value else 0,
                              reserved := if p.reserved >= c then p.reserved - c else 0),
                 holds := sys.holds[id := if spend.Some? then Hold(spend.value, Committed) else Hold(0, Released)])
  {
    var op, seen := Settle(id, spend), map[id := sys.holds[id].cents];
    var locked := spend.Some? || Sum(seen) > 0;
    SumOne(id, sys.holds[id].cents);
    Begun(sys, t, op);
    Moved(sys, t, op, Start, Read(seen), false, {});
    assert Whole(sys, t, op, 1) == With(sys, t, op, Read(seen), false, {});
    Locked(sys, t, op, Read(seen), Marked(seen), false, {id});
    assert Whole(sys, t, op, 2) == With(sys, t, op, Marked(seen), false, {id});
    assert seen.Keys == {id};
    Moved(sys, t, op, Marked(seen), Ready(seen, {id}), false, {id});
    assert Whole(sys, t, op, 3) == With(sys, t, op, Ready(seen, {id}), locked, {id});
    Ended(sys, t, op, Ready(seen, {id}), locked, {id});
  }

  function CentsOf(holds: map<HoldId, Hold>, ids: set<HoldId>): Cents
    requires ids <= holds.Keys
  {
    map id | id in ids :: holds[id].cents
  }

  function Freed(holds: map<HoldId, Hold>, ids: set<HoldId>): map<HoldId, Hold> {
    map id | id in holds :: if id in ids then Hold(0, Released) else holds[id]
  }

  // A pass releases every live hold that is due, and takes their cents off.
  lemma ReapAlone(sys: Sys, t: Tid, due: set<HoldId>)
    requires Quiet(sys, t)
    ensures var op, p := Reap(due), sys.policy;
            var gone := set id | id in due && id in sys.holds && sys.holds[id].status == Reserved;
            if gone == {} then Whole(sys, t, op, 1) == sys
            else
              var c := Sum(CentsOf(sys.holds, gone));
              Whole(sys, t, op, 4) ==
              sys.(policy := Policy(p.amount, p.spent, if p.reserved >= c then p.reserved - c else 0),
                   holds := Freed(sys.holds, gone))
  {
    var op := Reap(due);
    var gone := set id | id in due && id in sys.holds && sys.holds[id].status == Reserved;
    var seen := Part(Live(sys.holds), due);
    assert seen.Keys == gone;
    assert seen == CentsOf(sys.holds, gone);
    Begun(sys, t, op);
    if gone == {} {
      Ended(sys, t, op, Start, false, {});
    } else {
      ReapCommits(sys, t, due);
    }
  }

  lemma ReapCommits(sys: Sys, t: Tid, due: set<HoldId>)
    requires Quiet(sys, t) && Part(Live(sys.holds), due) != map[]
    ensures var op, p, seen := Reap(due), sys.policy, Part(Live(sys.holds), due);
            Whole(sys, t, op, 4) ==
            sys.(policy := p.(reserved := Less(p.reserved, Sum(seen))),
                 holds := Freed(sys.holds, seen.Keys))
  {
    var op, seen := Reap(due), Part(Live(sys.holds), due);
    var locked := Sum(seen) > 0;
    Begun(sys, t, op);
    Moved(sys, t, op, Start, Read(seen), false, {});
    assert Whole(sys, t, op, 1) == With(sys, t, op, Read(seen), false, {});
    Moved(sys, t, op, Read(seen), Charged(seen), false, {});
    assert Whole(sys, t, op, 2) == With(sys, t, op, Charged(seen), locked, {});
    Locked(sys, t, op, Charged(seen), Ready(seen, seen.Keys), locked, seen.Keys);
    assert Whole(sys, t, op, 3) == With(sys, t, op, Ready(seen, seen.Keys), locked, seen.Keys);
    Ended(sys, t, op, Ready(seen, seen.Keys), locked, seen.Keys);
  }
}
