// What the interleaved budget transactions rely on, and exactly when the
// counter and the limit hold.
module BudgetBooks {
  import opened BudgetLedger
  import opened BudgetSums
  import opened Wrappers

  /* --- the invariant --- */

  // What a transaction may rely on.
  ghost predicate TxOk(sys: Sys, t: Tid, tx: Tx) {
    match (tx.op, tx.phase)
    case (_, Start) => true
    case (Reserve(id, cents), Ready(seen, rows)) =>
      cents > 0 ==> sys.policyLock == Some(t) && sys.policy.spent + sys.policy.reserved + cents <= sys.policy.amount
    case (Reserve(_, _), _) => false
    case (Settle(id, _), Read(seen)) => seen.Keys == {id} && SeenOk(sys, seen)
    case (Settle(id, _), Marked(seen)) =>
      seen.Keys == {id} && Holds(sys, t, {id}) && seen == Part(Live(sys.holds), {id})
    case (Settle(id, spend), Ready(seen, rows)) =>
      && seen.Keys == {id} && rows == {id} && Holds(sys, t, {id}) && seen == Part(Live(sys.holds), {id})
      && (spend.Some? || Sum(seen) > 0 ==> sys.policyLock == Some(t))
    case (Settle(_, _), Charged(_)) => false
    case (Reap(due), Read(seen)) => SeenOk(sys, seen)
    case (Reap(due), Charged(seen)) => SeenOk(sys, seen) && (Sum(seen) > 0 ==> sys.policyLock == Some(t))
    case (Reap(due), Ready(seen, rows)) =>
      && SeenOk(sys, seen) && Holds(sys, t, rows) && rows <= Live(sys.holds).Keys
      && (Sum(seen) > 0 ==> sys.policyLock == Some(t))
    case (Reap(_), Marked(_)) => false
  }

  // A hold keeps its cents as long as it is live.
  ghost predicate SeenOk(sys: Sys, seen: Cents) {
    forall id <- seen :: id in sys.holds && (id in Live(sys.holds) ==> seen[id] == sys.holds[id].cents)
  }

  ghost predicate Holds(sys: Sys, t: Tid, rows: set<HoldId>) {
    forall id <- rows :: id in sys.rowLocks && sys.rowLocks[id] == t
  }

  ghost predicate SysOk(sys: Sys) {
    forall t <- sys.txs :: TxOk(sys, t, sys.txs[t])
  }

  // The counter is the sum of the live holds.
  ghost predicate Balanced(sys: Sys) {
    sys.policy.reserved == Sum(Live(sys.holds))
  }

  // Nothing that transaction u holds a lock on changes, and no hold becomes
  // live again.
  ghost predicate Respects(sys: Sys, after: Sys, u: Tid) {
    && (sys.policyLock == Some(u) ==> after.policyLock == Some(u) && after.policy == sys.policy)
    && (forall id <- sys.rowLocks :: sys.rowLocks[id] == u ==>
          && id in after.rowLocks && after.rowLocks[id] == u
          && (id in sys.holds ==> id in after.holds && after.holds[id] == sys.holds[id]))
    && (forall id <- sys.holds :: id in after.holds
          && (after.holds[id].status == Reserved ==> after.holds[id] == sys.holds[id]))
  }

  lemma OtherTxOk(sys: Sys, after: Sys, u: Tid, tx: Tx)
    requires TxOk(sys, u, tx) && Respects(sys, after, u)
    ensures TxOk(after, u, tx)
  {
    if tx.op.Settle? && (tx.phase.Marked? || tx.phase.Ready?) {
      assert Part(Live(after.holds), {tx.op.id}) == Part(Live(sys.holds), {tx.op.id});
    }
  }

  lemma EndRespects(sys: Sys, t: Tid, u: Tid)
    requires u != t
    ensures Respects(sys, End(sys, t), u)
  {
  }

  lemma CommitRespects(sys: Sys, t: Tid, u: Tid)
    requires SysOk(sys) && t in sys.txs && sys.txs[t].phase.Ready? && u != t
    ensures Respects(sys, Run(sys, t), u)
  {
    assert TxOk(sys, t, sys.txs[t]);
  }

  lemma TakePolicyRespects(sys: Sys, t: Tid, needed: bool, next: Phase, u: Tid)
    requires t in sys.txs && u != t
    ensures Respects(sys, TakePolicy(sys, t, needed, next), u)
  {
  }

  lemma TakeRowsRespects(sys: Sys, t: Tid, rows: set<HoldId>, next: Phase, u: Tid)
    requires t in sys.txs && u != t
    ensures Respects(sys, TakeRows(sys, t, rows, next), u)
    ensures Respects(sys, At(sys, t, next), u) && Respects(sys, sys, u)
  {
  }

  lemma RunRespects(sys: Sys, t: Tid, u: Tid)
    requires SysOk(sys) && t in sys.txs && u != t
    ensures Respects(sys, Run(sys, t), u)
  {
    var op, live, after := sys.txs[t].op, Live(sys.holds), Run(sys, t);
    EndRespects(sys, t, u);
    TakeRowsRespects(sys, t, {}, if t in after.txs then after.txs[t].phase else Start, u);
    match sys.txs[t].phase {
      case Ready(_, _) => CommitRespects(sys, t, u);
      case Start =>
        if op.Reserve? { TakePolicyRespects(sys, t, op.cents > 0, Ready(map[], {}), u); }
      case Read(seen) =>
        if op.Reap? { TakePolicyRespects(sys, t, Sum(seen) > 0, Charged(seen), u); }
        if op.Settle? { TakeRowsRespects(sys, t, {op.id}, Marked(seen), u); }
      case Marked(seen) =>
        TakePolicyRespects(sys, t, op.Settle? && (op.spend.Some? || Sum(seen) > 0), Ready(seen, seen.Keys), u);
      case Charged(seen) =>
        if op.Reap? { TakeRowsRespects(sys, t, Part(live, op.due).Keys, Ready(seen, Part(live, op.due).Keys), u); }
    }
  }

  // After its own step, a transaction is gone or still in order.
  ghost predicate OwnOk(sys: Sys, after: Sys, t: Tid) {
    && after.txs.Keys <= sys.txs.Keys
    && (forall u <- after.txs :: u != t ==> after.txs[u] == sys.txs[u])
    && (t in after.txs ==> TxOk(after, t, after.txs[t]))
  }

  lemma StartOk(sys: Sys, t: Tid)
    requires t in sys.txs && sys.txs[t].phase.Start?
    ensures OwnOk(sys, Run(sys, t), t)
  {
  }

  lemma SettleOk(sys: Sys, t: Tid)
    requires t in sys.txs && TxOk(sys, t, sys.txs[t]) && sys.txs[t].op.Settle?
    requires sys.txs[t].phase.Read? || sys.txs[t].phase.Marked?
    ensures OwnOk(sys, Run(sys, t), t)
  {
  }

  lemma ReapOk(sys: Sys, t: Tid)
    requires t in sys.txs && TxOk(sys, t, sys.txs[t]) && sys.txs[t].op.Reap?
    requires sys.txs[t].phase.Read? || sys.txs[t].phase.Charged?
    ensures OwnOk(sys, Run(sys, t), t)
  {
  }

  lemma ReadyOk(sys: Sys, t: Tid)
    requires t in sys.txs && TxOk(sys, t, sys.txs[t]) && sys.txs[t].phase.Ready?
    ensures OwnOk(sys, Run(sys, t), t)
  {
  }

  lemma OwnTxOk(sys: Sys, t: Tid)
    requires SysOk(sys) && t in sys.txs
    ensures OwnOk(sys, Run(sys, t), t)
  {
    var tx := sys.txs[t];
    assert TxOk(sys, t, tx);
    if tx.phase.Start? {
      StartOk(sys, t);
    } else if tx.phase.Ready? {
      ReadyOk(sys, t);
    } else if tx.op.Settle? {
      SettleOk(sys, t);
    } else {
      ReapOk(sys, t);
    }
  }

  lemma StepKeeps(sys: Sys, e: Event)
    requires SysOk(sys)
    ensures SysOk(Step(sys, e))
  {
    var after := Step(sys, e);
    if e.Do? && e.t in sys.txs { OwnTxOk(sys, e.t); }
    forall u | u in after.txs ensures TxOk(after, u, after.txs[u]) {
      if u != e.t {
        assert TxOk(sys, u, sys.txs[u]);
        if e.Do? && e.t in sys.txs { RunRespects(sys, e.t, u); }
        OtherTxOk(sys, after, u, sys.txs[u]);
      }
    }
  }

  /* --- the books --- */

  // The commit of a reap pass with these rows.
  ghost predicate Reaps(sys: Sys, e: Event) {
    e.Do? && e.t in sys.txs && sys.txs[e.t].op.Reap? && sys.txs[e.t].phase.Ready?
  }

  // Cents the pass takes off the counter for holds that are no longer live,
  // settled by others since its SELECT.
  ghost function Stale(sys: Sys, t: Tid): nat
    requires Reaps(sys, Do(t))
  {
    Sum(sys.txs[t].phase.seen - sys.txs[t].phase.rows)
  }

  // Cents of holds it releases though its SELECT did not return them.
  ghost function Unseen(sys: Sys, t: Tid): nat
    requires Reaps(sys, Do(t))
  {
    Sum(Part(Live(sys.holds), sys.txs[t].phase.rows) - sys.txs[t].phase.seen.Keys)
  }

  // The counter is off after the pass: what it took off twice was needed for
  // other holds, or what it released was not all taken off.
  ghost predicate Unbalances(sys: Sys, e: Event) {
    Reaps(sys, e) &&
    var others := Sum(Live(sys.holds) - sys.txs[e.t].phase.rows);
    Stale(sys, e.t) < Unseen(sys, e.t) || (Stale(sys, e.t) > Unseen(sys, e.t) && others > 0)
  }

  lemma ReapSums(sys: Sys, t: Tid)
    requires SysOk(sys) && Reaps(sys, Do(t))
    ensures var seen, rows, live := sys.txs[t].phase.seen, sys.txs[t].phase.rows, Live(sys.holds);
            && Sum(live) == Sum(Part(live, rows)) + Sum(live - rows)
            && Sum(seen) + Unseen(sys, t) == Sum(Part(live, rows)) + Stale(sys, t)
  {
    var seen, rows, live := sys.txs[t].phase.seen, sys.txs[t].phase.rows, Live(sys.holds);
    assert TxOk(sys, t, sys.txs[t]);
    SumSplits(live, rows);
    SumSplits(seen, rows);
    SumSplits(Part(live, rows), seen.Keys);
    assert Part(Part(live, rows), seen.Keys) == Part(seen, rows);
  }

  lemma ReapBalance(sys: Sys, t: Tid)
    requires SysOk(sys) && Balanced(sys) && Reaps(sys, Do(t))
    ensures Balanced(Run(sys, t)) <==> !Unbalances(sys, Do(t))
  {
    ReapSums(sys, t);
    assert Live(Run(sys, t).holds) == Live(sys.holds) - sys.txs[t].phase.rows;
  }

  lemma SettleBalance(sys: Sys, t: Tid)
    requires SysOk(sys) && Balanced(sys) && t in sys.txs && sys.txs[t].op.Settle? && sys.txs[t].phase.Ready?
    ensures Balanced(Run(sys, t)) && Sum(sys.txs[t].phase.seen) <= sys.policy.reserved
  {
    var id, live := sys.txs[t].op.id, Live(sys.holds);
    assert TxOk(sys, t, sys.txs[t]);
    assert id in Part(live, {id}) && Part(live, {id}) == map[id := live[id]];
    SumSplits(live, {id});
    assert Live(Run(sys, t).holds) == live - {id};
  }

  lemma ReserveBalance(sys: Sys, t: Tid)
    requires SysOk(sys) && Balanced(sys) && t in sys.txs && sys.txs[t].op.Reserve? && sys.txs[t].phase.Ready?
    ensures Balanced(Run(sys, t))
  {
    var id, live := sys.txs[t].op.id, Live(sys.holds);
    if id !in sys.holds {
      SumAdd(live, id, sys.txs[t].op.cents);
      assert Live(Run(sys, t).holds) == live[id := sys.txs[t].op.cents];
    }
  }

  // Only a commit changes the tables.
  lemma TablesStay(sys: Sys, e: Event)
    requires !(e.Do? && e.t in sys.txs && sys.txs[e.t].phase.Ready?)
    ensures Step(sys, e).policy == sys.policy && Step(sys, e).holds == sys.holds
  {
  }

  ghost predicate WithinBudget(sys: Sys) {
    sys.policy.spent + sys.policy.reserved <= sys.policy.amount
  }

  // A call is settled for more than its hold and everything left besides.
  ghost predicate Overruns(sys: Sys, e: Event) {
    && e.Do? && e.t in sys.txs && sys.txs[e.t].phase.Ready? && sys.txs[e.t].op.Settle? && sys.txs[e.t].op.spend.Some?
    && sys.policy.spent + sys.policy.reserved + sys.txs[e.t].op.spend.value
       > sys.policy.amount + Sum(sys.txs[e.t].phase.seen)
  }

  ghost predicate Sound(sys: Sys) {
    SysOk(sys) && Balanced(sys) && WithinBudget(sys)
  }

  lemma ReserveWithin(sys: Sys, t: Tid)
    requires SysOk(sys) && WithinBudget(sys) && t in sys.txs && sys.txs[t].op.Reserve? && sys.txs[t].phase.Ready?
    ensures WithinBudget(Run(sys, t))
  {
    assert TxOk(sys, t, sys.txs[t]);
  }

  // One step keeps the books exactly when it is neither of the two.
  lemma StepSound(sys: Sys, e: Event)
    requires Sound(sys)
    ensures Sound(Step(sys, e)) <==> !Unbalances(sys, e) && !Overruns(sys, e)
  {
    StepKeeps(sys, e);
    if e.Do? && e.t in sys.txs && sys.txs[e.t].phase.Ready? {
      match sys.txs[e.t].op {
        case Reserve(_, _) =>
          ReserveBalance(sys, e.t);
          ReserveWithin(sys, e.t);
        case Settle(_, _) => SettleBalance(sys, e.t);
        case Reap(_) => ReapBalance(sys, e.t);
      }
    } else {
      TablesStay(sys, e);
    }
  }

  ghost predicate StepFits(sys: Sys, e: Event) {
    !Unbalances(sys, e) && !Overruns(sys, e)
  }

  ghost predicate AllFit(sys: Sys, events: seq<Event>) {
    forall k :: 0 <= k < |events| ==> StepFits(RunAll(sys, events[..k]), events[k])
  }

  ghost predicate AlwaysSound(sys: Sys, events: seq<Event>) {
    forall n :: 0 <= n <= |events| ==> Sound(RunAll(sys, events[..n]))
  }

  lemma AllFitNext(sys: Sys, init: seq<Event>, e: Event)
    ensures AllFit(sys, init + [e]) <==> AllFit(sys, init) && StepFits(RunAll(sys, init), e)
  {
    var events := init + [e];
    assert events[..|init|] == init && events[|init|] == e;
    assert forall k :: 0 <= k < |init| ==> events[..k] == init[..k] && events[k] == init[k];
    if AllFit(sys, events) {
      forall k | 0 <= k < |init| ensures StepFits(RunAll(sys, init[..k]), init[k]) {
        assert StepFits(RunAll(sys, events[..k]), events[k]);
      }
    }
  }

  lemma AlwaysSoundNext(sys: Sys, init: seq<Event>, e: Event)
    ensures AlwaysSound(sys, init + [e]) <==> AlwaysSound(sys, init) && Sound(RunAll(sys, init + [e]))
  {
    var events := init + [e];
    assert events[..|events|] == events;
    assert forall n :: 0 <= n <= |init| ==> events[..n] == init[..n];
    if AlwaysSound(sys, events) {
      forall n | 0 <= n <= |init| ensures Sound(RunAll(sys, init[..n])) {
        assert Sound(RunAll(sys, events[..n]));
      }
    }
  }

  // In every interleaving, at every moment: reserved_cents is the sum of the
  // live holds and spent plus reserved within the amount, exactly when no reap
  // pass is late for its holds and no call overruns.
  lemma {:induction false} BooksKeptIff(sys: Sys, events: seq<Event>)
    requires Sound(sys)
    ensures AlwaysSound(sys, events) <==> AllFit(sys, events)
  {
    if events == [] {
      assert events[..0] == [];
    } else {
      var init, e := events[..|events| - 1], events[|events| - 1];
      assert events == init + [e];
      BooksKeptIff(sys, init);
      AllFitNext(sys, init, e);
      AlwaysSoundNext(sys, init, e);
      LastSound(sys, init);
      NextSound(sys, init, e);
    }
  }

  lemma LastSound(sys: Sys, events: seq<Event>)
    ensures AlwaysSound(sys, events) ==> Sound(RunAll(sys, events))
  {
    assert events[..|events|] == events;
  }

  lemma NextSound(sys: Sys, events: seq<Event>, e: Event)
    ensures Sound(RunAll(sys, events)) ==> (Sound(RunAll(sys, events + [e])) <==> StepFits(RunAll(sys, events), e))
  {
    RunNext(sys, events, e);
    if Sound(RunAll(sys, events)) { StepSound(RunAll(sys, events), e); }
  }

  // A policy nobody has used yet.
  function Unused(amount: nat): Sys {
    Sys(Policy(amount, 0, 0), map[], None, map[], map[])
  }

  lemma UnusedIsSound(amount: nat)
    ensures Sound(Unused(amount))
  {
    assert Live(Unused(amount).holds) == map[];
  }

  // Then what is held and spent never exceeds the amount.
  lemma NeverOverbooked(sys: Sys, events: seq<Event>)
    requires Sound(sys) && AllFit(sys, events)
    ensures var end := RunAll(sys, events); end.policy.spent + Sum(Live(end.holds)) <= end.policy.amount
  {
    BooksKeptIff(sys, events);
    LastSound(sys, events);
  }

  /* --- two passes for one hold --- */

  lemma RunNext(sys: Sys, events: seq<Event>, e: Event)
    ensures RunAll(sys, events + [e]) == Step(RunAll(sys, events), e)
  {
    assert (events + [e])[..|events|] == events;
  }

  lemma Next(sys: Sys, events: seq<Event>, e: Event) returns (more: seq<Event>)
    ensures more == events + [e] && RunAll(sys, more) == Step(RunAll(sys, events), e)
  {
    more := events + [e];
    RunNext(sys, events, e);
  }

  // A new pass t selects hold h.
  lemma PassReads(sys: Sys, events: seq<Event>, t: Tid, h: HoldId) returns (more: seq<Event>)
    requires var now := RunAll(sys, events); t !in now.txs && h in Live(now.holds)
    ensures var now := RunAll(sys, events);
            RunAll(sys, more) == now.(txs := now.txs[t := Tx(Reap({h}), Read(map[h := now.holds[h].cents]))])
  {
    var now := RunAll(sys, events);
    more := Next(sys, events, Begin(t, Reap({h})));
    var seen := map[h := now.holds[h].cents];
    assert Part(Live(now.holds), {h}) == seen && h in seen;
    more := Next(sys, more, Do(t));
    var started, read := Tx(Reap({h}), Start), Tx(Reap({h}), Read(seen));
    assert now.txs[t := started][t := read] == now.txs[t := read];
  }

  // A pass that has selected h, with c cents, runs to its commit.
  lemma PassCommits(sys: Sys, events: seq<Event>, t: Tid, h: HoldId, c: nat) returns (more: seq<Event>)
    requires c > 0
    requires var now := RunAll(sys, events);
             && t in now.txs && now.txs[t] == Tx(Reap({h}), Read(map[h := c]))
             && now.policyLock.None? && now.rowLocks == map[]
    ensures var now, after := RunAll(sys, events), RunAll(sys, more);
            && after.txs == now.txs - {t} && after.policyLock.None? && after.rowLocks == map[]
            && after.policy == now.policy.(reserved := Less(now.policy.reserved, c))
            && Live(after.holds) == Live(now.holds) - {h}
  {
    var now := RunAll(sys, events);
    var rows := Part(Live(now.holds), {h}).Keys;
    SumOne(h, c);
    more := Next(sys, events, Do(t));
    var charged := At(now, t, Charged(map[h := c])).(policyLock := Some(t));
    assert RunAll(sys, more) == charged;
    more := Next(sys, more, Do(t));
    assert RunAll(sys, more) == TakeRows(charged, t, rows, Ready(map[h := c], rows));
    more := PassEnds(sys, more, t, h, c, rows);
    assert now.txs[t := Tx(Reap({h}), Ready(map[h := c], rows))] - {t} == now.txs - {t};
  }

  lemma PassEnds(sys: Sys, events: seq<Event>, t: Tid, h: HoldId, c: nat, rows: set<HoldId>) returns (more: seq<Event>)
    requires var now := RunAll(sys, events);
             && t in now.txs && now.txs[t] == Tx(Reap({h}), Ready(map[h := c], rows))
             && now.policyLock == Some(t) && (forall id <- now.rowLocks :: now.rowLocks[id] == t)
             && rows == Part(Live(now.holds), {h}).Keys
    ensures var now, after := RunAll(sys, events), RunAll(sys, more);
            && after.txs == now.txs - {t} && after.policyLock.None? && after.rowLocks == map[]
            && after.policy == now.policy.(reserved := Less(now.policy.reserved, c))
            && Live(after.holds) == Live(now.holds) - {h}
  {
    SumOne(h, c);
    more := Next(sys, events, Do(t));
  }

  // From any quiet state in which hold h is due, two passes that both select
  // it before either commits take its cents off the counter twice: it is then
  // too low by as much as the other holds can give.
  lemma PassesOverlap(sys: Sys, events: seq<Event>, h: HoldId, t: Tid, u: Tid) returns (more: seq<Event>)
    requires var now := RunAll(sys, events);
             && Sound(now) && now.policyLock.None? && now.rowLocks == map[] && t !in now.txs && u !in now.txs && t != u
             && h in Live(now.holds) && now.holds[h].cents > 0
    ensures var now, after := RunAll(sys, events), RunAll(sys, more);
            && Live(after.holds) == Live(now.holds) - {h}
            && after.policy.reserved == Less(Sum(Live(after.holds)), now.holds[h].cents)
            && (Balanced(after) <==> Sum(Live(now.holds) - {h}) == 0)
  {
    var now := RunAll(sys, events);
    var c := now.holds[h].cents;
    SumRemove(Live(now.holds), h);
    more := PassReads(sys, events, t, h);
    more := PassReads(sys, more, u, h);
    more := PassCommits(sys, more, t, h, c);
    more := PassCommits(sys, more, u, h, c);
    assert Live(now.holds) - {h} - {h} == Live(now.holds) - {h};
  }
}
