// The holds of one budget policy in src/nexus/services/budget_service.py:
// reserve, commit_reservation, release_reservation and
// reap_expired_reservations as transactions whose statements interleave.
// SELECT sees what is committed; an UPDATE waits for the row's lock, checks its
// WHERE clause on the committed row, and keeps the lock until the commit.
module BudgetLedger {
  import opened BudgetSums
  import opened Wrappers

  type Tid = nat

  datatype Status = Reserved | Committed | Released

  datatype Hold = Hold(cents: nat, status: Status)

  datatype Policy = Policy(amount: nat, spent: nat, reserved: nat)

  datatype Op =
    | Reserve(id: HoldId, cents: nat)
    | Settle(id: HoldId, spend: Option<nat>)  // None: release_reservation
    | Reap(due: set<HoldId>)                  // the ids that expire by the `now` of the pass

  // How far a transaction is; seen: what its SELECT returned.
  datatype Phase =
    | Start
    | Read(seen: Cents)
    | Marked(seen: Cents)                     // settle: status updated
    | Charged(seen: Cents)                    // reap: policy updated
    | Ready(seen: Cents, rows: set<HoldId>)   // all updated; rows: the holds it takes out

  datatype Tx = Tx(op: Op, phase: Phase)

  // policy and holds are the committed rows; uncommitted changes follow from
  // the transaction that holds the lock.
  datatype Sys = Sys(policy: Policy, holds: map<HoldId, Hold>, policyLock: Option<Tid>, rowLocks: map<HoldId, Tid>,
                     txs: map<Tid, Tx>)

  datatype Event = Begin(t: Tid, op: Op) | Do(t: Tid) | Abort(t: Tid)

  /* --- the steps --- */

  // The holds that count: id -> cents.
  function Live(holds: map<HoldId, Hold>): Cents {
    map id | id in holds && holds[id].status == Reserved :: holds[id].cents
  }

  function End(sys: Sys, t: Tid): Sys {
    sys.(txs := sys.txs - {t},
         policyLock := if sys.policyLock == Some(t) then None else sys.policyLock,
         rowLocks := map id | id in sys.rowLocks && sys.rowLocks[id] != t :: sys.rowLocks[id])
  }

  function At(sys: Sys, t: Tid, phase: Phase): Sys
    requires t in sys.txs
  {
    sys.(txs := sys.txs[t := sys.txs[t].(phase := phase)])
  }

  // UPDATE budget_policies, unless there is nothing to change.
  ghost function TakePolicy(sys: Sys, t: Tid, needed: bool, next: Phase): Sys
    requires t in sys.txs
  {
    if !needed then At(sys, t, next)
    else if sys.policyLock.Some? then sys
    else At(sys, t, next).(policyLock := Some(t))
  }

  // UPDATE cost_events on these rows.
  function TakeRows(sys: Sys, t: Tid, rows: set<HoldId>, next: Phase): Sys
    requires t in sys.txs
  {
    if exists id :: id in rows && id in sys.rowLocks then sys
    else At(sys, t, next).(rowLocks := sys.rowLocks + map id | id in rows :: t)
  }

  ghost function Step(sys: Sys, e: Event): Sys {
    match e
    case Begin(t, op) => if t in sys.txs then sys else sys.(txs := sys.txs[t := Tx(op, Start)])
    case Abort(t) => End(sys, t)
    case Do(t) => if t in sys.txs then Run(sys, t) else sys
  }

  ghost function Run(sys: Sys, t: Tid): Sys
    requires t in sys.txs
  {
    var op, live := sys.txs[t].op, Live(sys.holds);
    match sys.txs[t].phase
    case Start => (
      match op
      case Reserve(id, cents) =>
        if cents > 0 && sys.policyLock.None? && sys.policy.spent + sys.policy.reserved + cents > sys.policy.amount
        then End(sys, t)  // denied
        else TakePolicy(sys, t, cents > 0, Ready(map[], {}))
      case Settle(id, _) => if id in live then At(sys, t, Read(map[id := live[id]])) else End(sys, t)
      case Reap(due) => if Part(live, due) == map[] then End(sys, t) else At(sys, t, Read(Part(live, due))))
    case Read(seen) => (
      match op
      case Reserve(_, _) => sys
      case Settle(id, _) =>
        if id in sys.rowLocks then sys
        else if id !in live then End(sys, t)  // rowcount 0
        else TakeRows(sys, t, {id}, Marked(seen))
      case Reap(_) => TakePolicy(sys, t, Sum(seen) > 0, Charged(seen)))
    case Marked(seen) => TakePolicy(sys, t, op.Settle? && (op.spend.Some? || Sum(seen) > 0), Ready(seen, seen.Keys))
    case Charged(seen) =>
      if op.Reap? then TakeRows(sys, t, Part(live, op.due).Keys, Ready(seen, Part(live, op.due).Keys)) else sys
    case Ready(seen, rows) => Commit(sys, t, op, seen, rows)
  }

  // What the transaction leaves in the two tables.
  ghost function Commit(sys: Sys, t: Tid, op: Op, seen: Cents, rows: set<HoldId>): Sys {
    match op
    case Reserve(id, cents) =>
      if id in sys.holds then sys
      else End(sys, t).(policy := sys.policy.(reserved := sys.policy.reserved + cents),
                        holds := sys.holds[id := Hold(cents, Reserved)])
    case Settle(id, spend) =>
      var settled := if spend.Some? then Hold(spend.value, Committed) else Hold(0, Released);
      End(sys, t).(policy := sys.policy.(reserved := Less(sys.policy.reserved, Sum(seen)),
                                         spent := sys.policy.spent + if spend.Some? then spend.value else 0),
                   holds := sys.holds[id := settled])
    case Reap(_) =>
      End(sys, t).(policy := sys.policy.(reserved := Less(sys.policy.reserved, Sum(seen))),
                   holds := map id | id in sys.holds :: if id in rows then Hold(0, Released) else sys.holds[id])
  }

  ghost function RunAll(sys: Sys, events: seq<Event>): Sys {
    if events == [] then sys else Step(RunAll(sys, events[..|events| - 1]), events[|events| - 1])
  }
}
