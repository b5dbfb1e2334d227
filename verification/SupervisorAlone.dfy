// What a request to the backend controller comes to when no other thread gets a
// turn before it is done: from any run, whatever the other threads are doing
// outside the lock.
module SupervisorAlone {
  import opened Supervisor
  import opened Wrappers

  // n steps of thread t, with probes that are healthy or not and terminates that work or not.
  function Alone(sys: Sys, t: Tid, healthy: bool, dies: bool, n: nat): Sys
    decreases n
  {
    if n == 0 then sys else Alone(Step(sys, Do(t, healthy, dies)), t, healthy, dies, n - 1)
  }

  lemma {:induction false} AloneTwice(sys: Sys, t: Tid, healthy: bool, dies: bool, n: nat, m: nat)
    ensures Alone(sys, t, healthy, dies, n + m) == Alone(Alone(sys, t, healthy, dies, n), t, healthy, dies, m)
    decreases n
  {
    if n == 0 {
    } else {
      AloneTwice(Step(sys, Do(t, healthy, dies)), t, healthy, dies, n - 1, m);
    }
  }

  // One step to `next`, from where n more lead to `end`.
  lemma Via(base: Sys, t: Tid, pc: PC, next: PC, healthy: bool, dies: bool, n: nat, end: Sys)
    requires Step(At(base, t, pc), Do(t, healthy, dies)) == At(At(base, t, pc), t, next)
    requires Alone(At(base, t, next), t, healthy, dies, n) == end
    ensures Alone(At(base, t, pc), t, healthy, dies, n + 1) == end
  {
    assert At(At(base, t, pc), t, next) == At(base, t, next);
  }

  lemma Last(sys: Sys, t: Tid, healthy: bool, dies: bool)
    ensures Alone(sys, t, healthy, dies, 1) == Step(sys, Do(t, healthy, dies))
  {
    assert Alone(Step(sys, Do(t, healthy, dies)), t, healthy, dies, 0) == Step(sys, Do(t, healthy, dies));
  }

  /* --- status --- */

  lemma ReturnFrom(base: Sys, t: Tid, pc: PC, how: How)
    ensures Return(At(base, t, pc), t, how) == Return(base, t, how)
  {
    assert base.threads[t := pc][t := Idle] == base.threads[t := Idle];
    assert base.threads[t := pc][t := RestartSleep] == base.threads[t := RestartSleep];
  }

  lemma UptimeEnds(base: Sys, t: Tid, how: How, alive: bool, healthy: bool, dies: bool) returns (n: nat)
    ensures Alone(At(base, t, UptimeRead(how, alive)), t, healthy, dies, n) == Return(base, t, how)
  {
    ReturnFrom(base, t, UptimeRead(how, alive), how);
    ReturnFrom(base, t, UptimeDeref(how), how);
    Last(At(base, t, UptimeRead(how, alive)), t, healthy, dies);
    Last(At(base, t, UptimeDeref(how)), t, healthy, dies);
    if base.stamped && alive {
      Via(base, t, UptimeRead(how, alive), UptimeDeref(how), healthy, dies, 1, Return(base, t, how));
      n := 2;
    } else {
      n := 1;
    }
  }

  lemma PidDerefEnds(base: Sys, t: Tid, how: How, alive: bool, healthy: bool, dies: bool) returns (n: nat)
    requires base.proc.Some?
    ensures Alone(At(base, t, PidDeref(how, alive)), t, healthy, dies, n) == Return(base, t, how)
  {
    n := UptimeEnds(base, t, how, alive, healthy, dies);
    Via(base, t, PidDeref(how, alive), UptimeRead(how, alive), healthy, dies, n, Return(base, t, how));
    n := n + 1;
  }

  lemma PidEnds(base: Sys, t: Tid, how: How, alive: bool, healthy: bool, dies: bool) returns (n: nat)
    ensures Alone(At(base, t, PidRead(how, alive)), t, healthy, dies, n) == Return(base, t, how)
  {
    if base.proc.Some? {
      n := PidDerefEnds(base, t, how, alive, healthy, dies);
      Via(base, t, PidRead(how, alive), PidDeref(how, alive), healthy, dies, n, Return(base, t, how));
    } else {
      n := UptimeEnds(base, t, how, alive, healthy, dies);
      Via(base, t, PidRead(how, alive), UptimeRead(how, alive), healthy, dies, n, Return(base, t, how));
    }
    n := n + 1;
  }

  // A status on its own changes nothing and does not fail.
  lemma StatusEnds(base: Sys, t: Tid, how: How, healthy: bool, dies: bool) returns (n: nat)
    ensures Alone(At(base, t, StatusRead(how)), t, healthy, dies, n) == Return(base, t, how)
  {
    var alive, end := Alive(base, base.proc), Return(base, t, how);
    n := PidEnds(base, t, how, alive, healthy, dies);
    if base.proc.Some? {
      Via(base, t, StatusDeref(how), PidRead(how, alive), healthy, dies, n, end);
      Via(base, t, StatusRead(how), StatusDeref(how), healthy, dies, n + 1, end);
      n := n + 2;
    } else {
      Via(base, t, StatusRead(how), PidRead(how, alive), healthy, dies, n, end);
      n := n + 1;
    }
  }

  /* --- start --- */

  // The wait for a healthy backend ends, however long the probes fail.
  lemma {:induction false} PollEnds(base: Sys, t: Tid, k: nat, healthy: bool, dies: bool) returns (n: nat)
    requires k <= POLLS && base.proc.Some?
    ensures Alone(At(base, t, Poll(k)), t, healthy, dies, n) == At(base, t, Idle)
    decreases POLLS - k
  {
    var end := At(base, t, Idle);
    if k == POLLS || healthy {
      n := StatusEnds(base, t, Free, healthy, dies);
      Via(base, t, Poll(k), StatusRead(Free), healthy, dies, n, end);
      n := n + 1;
    } else {
      if Alive(base, base.proc) {
        n := PollEnds(base, t, k + 1, healthy, dies);
      } else {
        n := StatusEnds(base, t, Free, healthy, dies);
      }
      PollTurn(base, t, k, dies, n);
      Via(base, t, Poll(k), PollRead(k), false, dies, n + 2, end);
      n := n + 3;
    }
  }

  // One turn of the wait after a failed probe.
  lemma PollTurn(base: Sys, t: Tid, k: nat, dies: bool, n: nat)
    requires k < POLLS && base.proc.Some?
    requires Alone(At(base, t, if Alive(base, base.proc) then Poll(k + 1) else StatusRead(Free)), t, false, dies, n) ==
             At(base, t, Idle)
    ensures Alone(At(base, t, PollRead(k)), t, false, dies, n + 2) == At(base, t, Idle)
  {
    var next := if Alive(base, base.proc) then Poll(k + 1) else StatusRead(Free);
    Via(base, t, PollDeref(k), next, false, dies, n, At(base, t, Idle));
    Via(base, t, PollRead(k), PollDeref(k), false, dies, n + 1, At(base, t, Idle));
  }

  // One child more: alive, stamped and the one _proc refers to. The request is done.
  function Started(sys: Sys, t: Tid): Sys {
    sys.(proc := Some(sys.spawned), stamped := true, alive := sys.alive + {sys.spawned}, spawned := sys.spawned + 1,
         lock := None, threads := sys.threads[t := Idle])
  }

  lemma SpawnEnds(base: Sys, t: Tid, dies: bool) returns (n: nat)
    ensures Alone(At(base, t, StartSpawn), t, false, dies, n) == Started(base, t)
  {
    var go := Do(t, false, dies);
    var spawned := Started(base, t);
    n := PollEnds(spawned, t, 0, false, dies);
    var first := Step(At(base, t, StartSpawn), go);
    assert Step(first, go) == At(spawned, t, Poll(0)) by {
      assert first.threads[t] == StartStamp;
      assert first.threads[t := Poll(0)] == spawned.threads[t := Poll(0)];
    }
    assert At(spawned, t, Idle) == spawned by {
      assert spawned.threads[t := Idle] == spawned.threads;
    }
    assert Alone(first, t, false, dies, n + 1) == Alone(Step(first, go), t, false, dies, n);
    assert Alone(At(base, t, StartSpawn), t, false, dies, n + 2) == Alone(first, t, false, dies, n + 1);
    n := n + 2;
  }

  lemma HealthEnds(base: Sys, t: Tid, healthy: bool, dies: bool) returns (n: nat)
    requires base.lock.None?
    ensures Alone(At(base.(lock := Some(t)), t, StartHealth), t, healthy, dies, n) ==
            if healthy then At(base, t, Idle) else Started(base, t)
  {
    var locked := base.(lock := Some(t));
    if healthy {
      n := StatusEnds(locked, t, Locked(false), healthy, dies);
      Via(locked, t, StartHealth, StatusRead(Locked(false)), healthy, dies, n, At(base, t, Idle));
    } else {
      n := SpawnEnds(locked, t, dies);
      Via(locked, t, StartHealth, StartSpawn, healthy, dies, n, Started(base, t));
    }
    n := n + 1;
  }

  lemma DerefEnds(base: Sys, t: Tid, healthy: bool, dies: bool) returns (n: nat)
    requires base.lock.None? && base.proc.Some?
    ensures Alone(At(base.(lock := Some(t)), t, StartDeref), t, healthy, dies, n) ==
            if Alive(base, base.proc) || healthy then At(base, t, Idle) else Started(base, t)
  {
    var locked := base.(lock := Some(t));
    if Alive(base, base.proc) {
      n := StatusEnds(locked, t, Locked(false), healthy, dies);
      Via(locked, t, StartDeref, StatusRead(Locked(false)), healthy, dies, n, At(base, t, Idle));
    } else {
      var end := if healthy then At(base, t, Idle) else Started(base, t);
      n := HealthEnds(base, t, healthy, dies);
      Via(locked, t, StartDeref, StartHealth, healthy, dies, n, end);
    }
    n := n + 1;
  }

  // From the first read of _proc under the lock.
  lemma ReadEnds(base: Sys, t: Tid, healthy: bool, dies: bool) returns (n: nat)
    requires base.lock.None?
    ensures Alone(At(base.(lock := Some(t)), t, StartRead), t, healthy, dies, n) ==
            if Alive(base, base.proc) || healthy then At(base, t, Idle) else Started(base, t)
  {
    var locked := base.(lock := Some(t));
    var end := if Alive(base, base.proc) || healthy then At(base, t, Idle) else Started(base, t);
    if base.proc.Some? {
      n := DerefEnds(base, t, healthy, dies);
      Via(locked, t, StartRead, StartDeref, healthy, dies, n, end);
    } else {
      n := HealthEnds(base, t, healthy, dies);
      Via(locked, t, StartRead, StartHealth, healthy, dies, n, end);
    }
    n := n + 1;
  }

  // A start with a live child, or with a healthy probe, spawns none. Any other
  // spawns one, be there no child or a dead one.
  lemma StartEnds(base: Sys, t: Tid, healthy: bool, dies: bool) returns (n: nat)
    requires base.lock.None?
    ensures Alone(At(base, t, StartLock), t, healthy, dies, n) ==
            if Alive(base, base.proc) || healthy then At(base, t, Idle) else Started(base, t)
  {
    n := ReadEnds(base, t, healthy, dies);
    Locks(base, t, StartLock, StartRead, healthy, dies);
    n := n + 1;
  }

  lemma Locks(base: Sys, t: Tid, pc: PC, next: PC, healthy: bool, dies: bool)
    requires base.lock.None?
    requires (pc == StartLock && next == StartRead) || (pc.StopLock? && next == StopRead(pc.again))
    ensures Step(At(base, t, pc), Do(t, healthy, dies)) == At(base.(lock := Some(t)), t, next)
  {
    assert base.threads[t := pc][t := next] == base.threads[t := next];
  }

  /* --- stop --- */

  // The child, if it is alive, is terminated; _proc and the stamp are cleared.
  function Stopped(sys: Sys, t: Tid, dies: bool, pc: PC): Sys {
    var victims := if Alive(sys, sys.proc) then {sys.proc.value} else {};
    sys.(proc := None, stamped := false, lock := None, threads := sys.threads[t := pc],
         alive := if dies then sys.alive - victims else sys.alive,
         survivors := if dies then sys.survivors else sys.survivors + victims)
  }

  lemma ClearEnds(base: Sys, t: Tid, again: bool, healthy: bool, dies: bool) returns (n: nat)
    ensures Alone(At(base, t, StopClear(again)), t, healthy, dies, n) ==
            Return(base.(proc := None, stamped := false), t, Locked(again))
  {
    var go, cleared := Do(t, healthy, dies), base.(proc := None, stamped := false);
    n := StatusEnds(cleared, t, Locked(again), healthy, dies);
    var first := Step(At(base, t, StopClear(again)), go);
    assert Step(first, go) == At(cleared, t, StatusRead(Locked(again))) by {
      assert first.threads[t] == StopStamp(again);
      assert first.threads[t := StatusRead(Locked(again))] == base.threads[t := StatusRead(Locked(again))];
    }
    assert Alone(first, t, healthy, dies, n + 1) == Return(cleared, t, Locked(again));
    n := n + 2;
  }

  // What the terminate leaves.
  function Terminated(sys: Sys, dies: bool): Sys {
    var victims := if Alive(sys, sys.proc) then {sys.proc.value} else {};
    sys.(alive := if dies then sys.alive - victims else sys.alive,
         survivors := if dies then sys.survivors else sys.survivors + victims)
  }

  lemma Kills(base: Sys, t: Tid, again: bool, healthy: bool, dies: bool)
    ensures var kill := if Alive(base, base.proc) then StopTerminate(again, base.proc.value) else StopKillPort(again);
            Step(At(base, t, kill), Do(t, healthy, dies)) == At(Terminated(base, dies), t, StopClear(again))
  {
    var kill := if Alive(base, base.proc) then StopTerminate(again, base.proc.value) else StopKillPort(again);
    assert base.threads[t := kill][t := StopClear(again)] == base.threads[t := StopClear(again)];
    assert base.alive - {} == base.alive && base.survivors + {} == base.survivors;
  }

  lemma KillEnds(base: Sys, t: Tid, again: bool, healthy: bool, dies: bool) returns (n: nat)
    ensures var kill := if Alive(base, base.proc) then StopTerminate(again, base.proc.value) else StopKillPort(again);
            Alone(At(base, t, kill), t, healthy, dies, n) ==
            Return(Terminated(base, dies).(proc := None, stamped := false), t, Locked(again))
  {
    n := ClearEnds(Terminated(base, dies), t, again, healthy, dies);
    Kills(base, t, again, healthy, dies);
    n := n + 1;
  }

  lemma StopReadEnds(base: Sys, t: Tid, again: bool, healthy: bool, dies: bool) returns (n: nat)
    ensures Alone(At(base, t, StopRead(again)), t, healthy, dies, n) ==
            Return(Terminated(base, dies).(proc := None, stamped := false), t, Locked(again))
  {
    var end := Return(Terminated(base, dies).(proc := None, stamped := false), t, Locked(again));
    var kill := if Alive(base, base.proc) then StopTerminate(again, base.proc.value) else StopKillPort(again);
    n := KillEnds(base, t, again, healthy, dies);
    Via(base, t, StopPoll(again, base.proc), kill, healthy, dies, n, end);
    Via(base, t, StopRead(again), StopPoll(again, base.proc), healthy, dies, n + 1, end);
    n := n + 2;
  }

  lemma StopEnds(base: Sys, t: Tid, again: bool, healthy: bool, dies: bool) returns (n: nat)
    requires base.lock.None?
    ensures Alone(At(base, t, StopLock(again)), t, healthy, dies, n) ==
            Stopped(base, t, dies, if again then RestartSleep else Idle)
  {
    n := StopReadEnds(base.(lock := Some(t)), t, again, healthy, dies);
    Locks(base, t, StopLock(again), StopRead(again), healthy, dies);
    n := n + 1;
  }

  // A restart is the stop, then the start.
  lemma RestartEnds(base: Sys, t: Tid) returns (n: nat)
    requires base.lock.None?
    ensures Alone(At(base, t, StopLock(true)), t, false, true, n) ==
            Started(Stopped(base, t, true, RestartSleep), t)
  {
    var stopped := Stopped(base, t, true, RestartSleep);
    var m := StopEnds(base, t, true, false, true);
    n := StartEnds(stopped, t, false, true);
    assert stopped == At(stopped, t, RestartSleep) by {
      assert stopped.threads == stopped.threads[t := RestartSleep];
    }
    Via(stopped, t, RestartSleep, StartLock, false, true, n, Started(stopped, t));
    AloneTwice(At(base, t, StopLock(true)), t, false, true, m, n + 1);
    n := m + (n + 1);
  }

  /* --- whole requests, from any run --- */

  function Steps(t: Tid, healthy: bool, dies: bool, n: nat): seq<Event> {
    seq(n, i => Do(t, healthy, dies))
  }

  lemma {:induction false} RunThen(events: seq<Event>, t: Tid, healthy: bool, dies: bool, n: nat)
    ensures RunAll(events + Steps(t, healthy, dies, n)) == Alone(RunAll(events), t, healthy, dies, n)
    decreases n
  {
    if n == 0 {
      assert events + Steps(t, healthy, dies, 0) == events;
    } else {
      var go := Do(t, healthy, dies);
      RunThen(events + [go], t, healthy, dies, n - 1);
      RunNext(events, go);
      assert events + [go] + Steps(t, healthy, dies, n - 1) == events + Steps(t, healthy, dies, n);
    }
  }

  // The lock is free and the thread can take a request.
  predicate CanCall(events: seq<Event>, t: Tid) {
    RunAll(events).lock.None? && (t in RunAll(events).threads ==> RunAll(events).threads[t] == Idle)
  }

  // A restart on its own, with failing probes and a terminate that works: one
  // new child, which is the only one unless others had outlived their terminates.
  lemma RestartSpawns(events: seq<Event>, t: Tid) returns (n: nat)
    requires CanCall(events, t)
    ensures var sys, after := RunAll(events), RunAll(events + [CallRestart(t)] + Steps(t, false, true, n));
            && sys.spawned !in sys.alive && after.spawned == sys.spawned + 1
            && after.proc == Some(sys.spawned) && after.stamped && after.lock.None?
            && after.alive == (if sys.proc.Some? then sys.alive - {sys.proc.value} else sys.alive) + {sys.spawned}
            && (TerminateWorks(events) ==> after.alive == {sys.spawned})
            && after.threads == sys.threads[t := Idle]
  {
    var sys := RunAll(events);
    n := RestartEnds(sys, t);
    RunOk(events);
    RunNext(events, CallRestart(t));
    RunThen(events + [CallRestart(t)], t, false, true, n);
    assert sys.threads[t := RestartSleep][t := Idle] == sys.threads[t := Idle];
    if TerminateWorks(events) {
      AtMostOneBackend(events);
    }
  }

  // A start on its own.
  lemma StartSpawnsIffNeeded(events: seq<Event>, t: Tid, healthy: bool, dies: bool) returns (n: nat)
    requires CanCall(events, t)
    ensures var sys, after := RunAll(events), RunAll(events + [CallStart(t)] + Steps(t, healthy, dies, n));
            if healthy || (sys.proc.Some? && sys.proc.value in sys.alive) then
              after == sys.(threads := sys.threads[t := Idle])
            else
              && sys.spawned !in sys.alive && after.spawned == sys.spawned + 1
              && after.proc == Some(sys.spawned) && after.stamped && after.lock.None?
              && after.alive == sys.alive + {sys.spawned} && after.threads == sys.threads[t := Idle]
  {
    RunOk(events);
    n := StartEnds(RunAll(events), t, healthy, dies);
    RunNext(events, CallStart(t));
    RunThen(events + [CallStart(t)], t, healthy, dies, n);
  }

  // A stop on its own leaves nothing behind if its terminate works.
  lemma StopStops(events: seq<Event>, t: Tid, healthy: bool) returns (n: nat)
    requires CanCall(events, t)
    ensures var sys, after := RunAll(events), RunAll(events + [CallStop(t)] + Steps(t, healthy, true, n));
            && after.proc.None? && !after.stamped && after.lock.None? && after.spawned == sys.spawned
            && after.alive == (if sys.proc.Some? then sys.alive - {sys.proc.value} else sys.alive)
            && after.threads == sys.threads[t := Idle]
  {
    n := StopEnds(RunAll(events), t, false, healthy, true);
    RunNext(events, CallStop(t));
    RunThen(events + [CallStop(t)], t, healthy, true, n);
  }

  // A status on its own changes nothing.
  lemma StatusOnlyReads(events: seq<Event>, t: Tid, healthy: bool, dies: bool) returns (n: nat)
    requires CanCall(events, t)
    ensures RunAll(events + [CallStatus(t)] + Steps(t, healthy, dies, n)) ==
            RunAll(events).(threads := RunAll(events).threads[t := Idle])
  {
    n := StatusEnds(RunAll(events), t, Free, healthy, dies);
    RunNext(events, CallStatus(t));
    RunThen(events + [CallStatus(t)], t, healthy, dies, n);
  }
}
