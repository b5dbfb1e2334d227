// BackendController of src/nexus/supervisor.py: request threads that start,
// stop and restart one backend child process, as interleaved steps. Children
// may die at any time.
module Supervisor {
  import opened Wrappers

  type Tid = nat
  type Pid = nat

  const POLLS: nat := 40

  // Where a request thread stands. `again` marks a stop made by restart.
  datatype PC =
    | Idle
    // start
    | StartLock            // at `with self._lock`
    | StartRead            // _proc_alive under the lock: is _proc None?
    | StartDeref           // ... self._proc.poll()
    | StartHealth          // _health_ok under the lock
    | StartSpawn           // self._proc = Popen(...)
    | StartStamp           // self._started_at = time.time(), lock released
    | Poll(n: nat)         // n-th turn of the wait loop: _health_ok
    | PollRead(n: nat)     // _proc_alive without the lock: is _proc None?
    | PollDeref(n: nat)    // ... self._proc.poll()
    // stop
    | StopLock(again: bool)
    | StopRead(again: bool)                     // proc = self._proc
    | StopPoll(again: bool, proc: Option<Pid>)  // proc is None or proc.poll() is not None
    | StopKillPort(again: bool)
    | StopTerminate(again: bool, victim: Pid)
    | StopClear(again: bool)                    // self._proc = None
    | StopStamp(again: bool)                    // self._started_at = None
    | RestartSleep
    // status, inside the lock or not
    | StatusRead(how: How)                // alive = _proc_alive: is _proc None?
    | StatusDeref(how: How)               // ... self._proc.poll()
    | PidRead(how: How, alive: bool)      // if self._proc
    | PidDeref(how: How, alive: bool)     // ... self._proc.pid
    | UptimeRead(how: How, alive: bool)   // if self._started_at and alive
    | UptimeDeref(how: How)               // ... time.time() - self._started_at
    | Failed(error: Error)

  // How status is called: on its own, or by start or stop inside the lock.
  datatype How = Free | Locked(again: bool)

  // 'NoneType' object has no attribute ..., float - NoneType
  datatype Error = AttributeError | TypeError

  // spawned: number of children so far; their pids are 0, 1, ...
  // survivors: children that were still alive when _terminate_tree returned.
  datatype Sys = Sys(proc: Option<Pid>, stamped: bool, lock: Option<Tid>, alive: set<Pid>, spawned: nat,
                     survivors: set<Pid>, threads: map<Tid, PC>)

  datatype Event =
    | CallStart(t: Tid)
    | CallStop(t: Tid)
    | CallRestart(t: Tid)
    | CallStatus(t: Tid)
    | Do(t: Tid, healthy: bool, dies: bool)  // one step of t; what a health probe or a terminate in it would do
    | Die(pid: Pid)                          // a child exits, or is killed from outside

  predicate Holding(pc: PC) {
    match pc
    case StartRead | StartDeref | StartHealth | StartSpawn | StartStamp => true
    case StopRead(_) | StopPoll(_, _) | StopKillPort(_) | StopTerminate(_, _) | StopClear(_) | StopStamp(_) => true
    case StatusRead(how) => how.Locked?
    case StatusDeref(how) => how.Locked?
    case PidRead(how, _) => how.Locked?
    case PidDeref(how, _) => how.Locked?
    case UptimeRead(how, _) => how.Locked?
    case UptimeDeref(how) => how.Locked?
    case _ => false
  }

  predicate Alive(sys: Sys, p: Option<Pid>) {
    p.Some? && p.value in sys.alive
  }

  function At(sys: Sys, t: Tid, pc: PC): Sys {
    sys.(threads := sys.threads[t := pc])
  }

  function Call(sys: Sys, t: Tid, pc: PC): Sys {
    if t in sys.threads && sys.threads[t] != Idle then sys else At(sys, t, pc)
  }

  // status returns to its caller, who leaves the lock.
  function Return(sys: Sys, t: Tid, how: How): Sys {
    match how
    case Free => At(sys, t, Idle)
    case Locked(again) => At(sys, t, if again then RestartSleep else Idle).(lock := None)
  }

  // The exception leaves the lock too, if it was held.
  function Fail(sys: Sys, t: Tid, error: Error): Sys {
    At(sys, t, Failed(error)).(lock := if sys.lock == Some(t) then None else sys.lock)
  }

  function Step(sys: Sys, e: Event): Sys {
    match e
    case CallStart(t) => Call(sys, t, StartLock)
    case CallStop(t) => Call(sys, t, StopLock(false))
    case CallRestart(t) => Call(sys, t, StopLock(true))
    case CallStatus(t) => Call(sys, t, StatusRead(Free))
    case Die(p) => sys.(alive := sys.alive - {p})
    case Do(t, healthy, dies) => if t in sys.threads then Run(sys, t, healthy, dies) else sys
  }

  function Run(sys: Sys, t: Tid, healthy: bool, dies: bool): Sys
    requires t in sys.threads
  {
    match sys.threads[t]
    case Idle => sys
    case Failed(_) => sys
    case StartLock => if sys.lock.Some? then sys else At(sys, t, StartRead).(lock := Some(t))
    case StartRead => At(sys, t, if sys.proc.None? then StartHealth else StartDeref)
    case StartDeref =>
      if sys.proc.None? then Fail(sys, t, AttributeError)
      else At(sys, t, if Alive(sys, sys.proc) then StatusRead(Locked(false)) else StartHealth)
    case StartHealth => At(sys, t, if healthy then StatusRead(Locked(false)) else StartSpawn)
    case StartSpawn =>
      At(sys, t, StartStamp).(proc := Some(sys.spawned), alive := sys.alive + {sys.spawned}, spawned := sys.spawned + 1)
    case StartStamp => At(sys, t, Poll(0)).(stamped := true, lock := None)
    case Poll(n) => At(sys, t, if n >= POLLS || healthy then StatusRead(Free) else PollRead(n))
    case PollRead(n) => At(sys, t, if sys.proc.None? then StatusRead(Free) else PollDeref(n))
    case PollDeref(n) =>
      if sys.proc.None? then Fail(sys, t, AttributeError)
      else At(sys, t, if Alive(sys, sys.proc) then Poll(n + 1) else StatusRead(Free))
    case StopLock(again) => if sys.lock.Some? then sys else At(sys, t, StopRead(again)).(lock := Some(t))
    case StopRead(again) => At(sys, t, StopPoll(again, sys.proc))
    case StopPoll(again, p) => At(sys, t, if Alive(sys, p) then StopTerminate(again, p.value) else StopKillPort(again))
    case StopKillPort(again) => At(sys, t, StopClear(again))
    case StopTerminate(again, p) =>
      if dies then At(sys, t, StopClear(again)).(alive := sys.alive - {p})
      else At(sys, t, StopClear(again)).(survivors := sys.survivors + if p in sys.alive then {p} else {})
    case StopClear(again) => At(sys, t, StopStamp(again)).(proc := None)
    case StopStamp(again) => At(sys, t, StatusRead(Locked(again))).(stamped := false)
    case RestartSleep => At(sys, t, StartLock)
    case StatusRead(how) => At(sys, t, if sys.proc.None? then PidRead(how, false) else StatusDeref(how))
    case StatusDeref(how) =>
      if sys.proc.None? then Fail(sys, t, AttributeError) else At(sys, t, PidRead(how, Alive(sys, sys.proc)))
    case PidRead(how, alive) => At(sys, t, if sys.proc.None? then UptimeRead(how, alive) else PidDeref(how, alive))
    case PidDeref(how, alive) =>
      if sys.proc.None? then Fail(sys, t, AttributeError) else At(sys, t, UptimeRead(how, alive))
    case UptimeRead(how, alive) => if sys.stamped && alive then At(sys, t, UptimeDeref(how)) else Return(sys, t, how)
    case UptimeDeref(how) => if sys.stamped then Return(sys, t, how) else Fail(sys, t, TypeError)
  }

  const INITIAL := Sys(None, false, None, {}, 0, {}, map[])

  function RunAll(events: seq<Event>): Sys {
    if events == [] then INITIAL else Step(RunAll(events[..|events| - 1]), events[|events| - 1])
  }

  /* --- the invariant --- */

  // What a thread inside the lock knows about _proc.
  ghost predicate Knows(sys: Sys, pc: PC) {
    match pc
    case StartDeref => sys.proc.Some?
    case StartHealth | StartSpawn => !Alive(sys, sys.proc)
    case StartStamp => sys.proc.Some?
    case StopPoll(_, p) => p == sys.proc
    case StopTerminate(_, p) => sys.proc == Some(p)
    case StopKillPort(_) => !Alive(sys, sys.proc)
    case StopClear(_) => Alive(sys, sys.proc) ==> sys.proc.value in sys.survivors
    case StopStamp(_) => sys.proc.None?
    case StatusDeref(_) => sys.proc.Some?
    case PidDeref(_, _) => sys.proc.Some?
    case UptimeDeref(_) => sys.stamped
    case _ => true
  }

  // _proc and _started_at are set together, except between the two writes.
  ghost predicate StampOk(sys: Sys) {
    (sys.stamped <==> sys.proc.Some?)
        || (sys.lock.Some? && sys.lock.value in sys.threads && MidWrite(sys.threads[sys.lock.value]))
  }

  predicate MidWrite(pc: PC) {
    pc.StartStamp? || pc.StopStamp?
  }

  ghost predicate SysOk(sys: Sys) {
    && (forall t <- sys.threads :: Holding(sys.threads[t]) <==> sys.lock == Some(t))
    && (sys.lock.Some? ==> sys.lock.value in sys.threads)
    && (forall t <- sys.threads :: Holding(sys.threads[t]) ==> Knows(sys, sys.threads[t]))
    && (forall p <- sys.alive :: p < sys.spawned && (sys.proc == Some(p) || p in sys.survivors))
    && (sys.proc.Some? ==> sys.proc.value < sys.spawned)
    && StampOk(sys)
  }

  // A step of t that takes or leaves no lock and writes neither _proc nor the stamp.
  lemma QuietKeeps(sys: Sys, t: Tid, pc: PC)
    requires SysOk(sys) && t in sys.threads && !MidWrite(sys.threads[t]) && !MidWrite(pc)
    requires Holding(pc) <==> Holding(sys.threads[t])
    requires Holding(pc) ==> Knows(sys, pc)
    ensures SysOk(At(sys, t, pc))
  {
  }

  lemma LockKeeps(sys: Sys, t: Tid, pc: PC)
    requires SysOk(sys) && t in sys.threads && sys.lock.None?
    requires Holding(pc) && Knows(sys, pc) && !MidWrite(pc)
    ensures SysOk(At(sys, t, pc).(lock := Some(t)))
  {
  }

  lemma ReturnKeeps(sys: Sys, t: Tid, how: How)
    requires SysOk(sys) && t in sys.threads && !MidWrite(sys.threads[t])
    requires Holding(sys.threads[t]) <==> how.Locked?
    ensures SysOk(Return(sys, t, how))
  {
  }

  lemma OnlyHolder(sys: Sys, t: Tid)
    requires SysOk(sys) && t in sys.threads && Holding(sys.threads[t])
    ensures forall u <- sys.threads :: u != t ==> !Holding(sys.threads[u])
  {
  }

  lemma StartKeeps(sys: Sys, t: Tid, healthy: bool, dies: bool)
    requires SysOk(sys) && t in sys.threads
    requires var pc := sys.threads[t];
             pc.StartRead? || pc.StartDeref? || pc.StartHealth? || pc.StartSpawn? || pc.StartStamp?
    ensures SysOk(Run(sys, t, healthy, dies))
  {
    OnlyHolder(sys, t);
    match sys.threads[t] {
      case StartRead => QuietKeeps(sys, t, if sys.proc.None? then StartHealth else StartDeref);
      case StartDeref => QuietKeeps(sys, t, if Alive(sys, sys.proc) then StatusRead(Locked(false)) else StartHealth);
      case StartHealth => QuietKeeps(sys, t, if healthy then StatusRead(Locked(false)) else StartSpawn);
      case _ =>
    }
  }

  lemma StopKeeps(sys: Sys, t: Tid, healthy: bool, dies: bool)
    requires SysOk(sys) && t in sys.threads
    requires var pc := sys.threads[t];
             pc.StopRead? || pc.StopPoll? || pc.StopKillPort? || pc.StopTerminate? || pc.StopClear? || pc.StopStamp?
    ensures SysOk(Run(sys, t, healthy, dies))
  {
    OnlyHolder(sys, t);
    match sys.threads[t] {
      case StopRead(again) => QuietKeeps(sys, t, StopPoll(again, sys.proc));
      case StopPoll(again, p) =>
          QuietKeeps(sys, t, if Alive(sys, p) then StopTerminate(again, p.value) else StopKillPort(again));
      case StopKillPort(again) => QuietKeeps(sys, t, StopClear(again));
      case _ =>
    }
  }

  predicate StatusPC(pc: PC) {
    ProcReads(pc) || pc.UptimeRead? || pc.UptimeDeref?
  }

  predicate ProcReads(pc: PC) {
    pc.StatusRead? || pc.StatusDeref? || pc.PidRead? || pc.PidDeref?
  }

  lemma ProcReadKeeps(sys: Sys, t: Tid, healthy: bool, dies: bool)
    requires SysOk(sys) && t in sys.threads && ProcReads(sys.threads[t])
    ensures SysOk(Run(sys, t, healthy, dies))
  {
    var pc := sys.threads[t];
    assert Holding(pc) ==> Knows(sys, pc);
    if sys.proc.None? && (pc.StatusDeref? || pc.PidDeref?) {
      FailKeeps(sys, t, AttributeError);
    } else {
      QuietKeeps(sys, t, Run(sys, t, healthy, dies).threads[t]);
    }
  }

  lemma UptimeKeeps(sys: Sys, t: Tid, healthy: bool, dies: bool)
    requires SysOk(sys) && t in sys.threads && (sys.threads[t].UptimeRead? || sys.threads[t].UptimeDeref?)
    ensures SysOk(Run(sys, t, healthy, dies))
  {
    var pc := sys.threads[t];
    assert Holding(pc) ==> Knows(sys, pc);
    if pc.UptimeRead? && sys.stamped && pc.alive {
      QuietKeeps(sys, t, UptimeDeref(pc.how));
    } else if pc.UptimeDeref? && !sys.stamped {
      FailKeeps(sys, t, TypeError);
    } else {
      ReturnKeeps(sys, t, pc.how);
    }
  }

  lemma FailKeeps(sys: Sys, t: Tid, error: Error)
    requires SysOk(sys) && t in sys.threads && !Holding(sys.threads[t])
    ensures SysOk(Fail(sys, t, error))
  {
  }

  lemma OtherKeeps(sys: Sys, t: Tid, healthy: bool, dies: bool)
    requires SysOk(sys) && t in sys.threads && !Holding(sys.threads[t]) && !StatusPC(sys.threads[t])
    ensures SysOk(Run(sys, t, healthy, dies))
  {
    var pc := sys.threads[t];
    if pc.StartLock? {
      if sys.lock.None? { LockKeeps(sys, t, StartRead); }
    } else if pc.StopLock? {
      if sys.lock.None? { LockKeeps(sys, t, StopRead(pc.again)); }
    } else {
      var after := Run(sys, t, healthy, dies);
      FreeStep(sys, t, healthy, dies);
      QuietKeeps(sys, t, after.threads[t]);
    }
  }

  // A step outside the lock, and not up to it, moves only the thread.
  lemma FreeStep(sys: Sys, t: Tid, healthy: bool, dies: bool)
    requires SysOk(sys) && t in sys.threads && !Holding(sys.threads[t]) && !StatusPC(sys.threads[t])
    requires !sys.threads[t].StartLock? && !sys.threads[t].StopLock?
    ensures var after := Run(sys, t, healthy, dies);
            && t in after.threads && after == At(sys, t, after.threads[t])
            && !Holding(after.threads[t]) && !MidWrite(after.threads[t])
  {
    assert At(sys, t, sys.threads[t]).threads == sys.threads;
  }

  lemma StepKeeps(sys: Sys, e: Event)
    requires SysOk(sys)
    ensures SysOk(Step(sys, e))
  {
    match e {
      case CallStart(t) =>
      case CallStop(t) =>
      case CallRestart(t) =>
      case CallStatus(t) =>
      case Die(p) =>
      case Do(t, healthy, dies) =>
        if t in sys.threads {
          var pc := sys.threads[t];
          if pc.StartRead? || pc.StartDeref? || pc.StartHealth? || pc.StartSpawn? || pc.StartStamp? {
            StartKeeps(sys, t, healthy, dies);
          } else if pc.StopRead? || pc.StopPoll? || pc.StopKillPort? || pc.StopTerminate? || pc.StopClear?
              || pc.StopStamp? {
            StopKeeps(sys, t, healthy, dies);
          } else if ProcReads(pc) {
            ProcReadKeeps(sys, t, healthy, dies);
          } else if StatusPC(pc) {
            UptimeKeeps(sys, t, healthy, dies);
          } else {
            OtherKeeps(sys, t, healthy, dies);
          }
        }
    }
  }

  lemma {:induction false} RunOk(events: seq<Event>)
    ensures SysOk(RunAll(events))
  {
    if events == [] {
    } else {
      RunOk(events[..|events| - 1]);
      StepKeeps(RunAll(events[..|events| - 1]), events[|events| - 1]);
    }
  }

  /* --- at most one backend --- */

  // Every live child is the one _proc refers to, or one that outlived its
  // _terminate_tree.
  lemma LiveChildIsProc(events: seq<Event>)
    ensures var sys := RunAll(events); forall p <- sys.alive :: sys.proc == Some(p) || p in sys.survivors
  {
    RunOk(events);
  }

  // Every terminate leaves its process dead.
  ghost predicate TerminateWorks(events: seq<Event>) {
    forall e <- events :: e.Do? ==> e.dies
  }

  lemma {:induction false} NoSurvivors(events: seq<Event>)
    requires TerminateWorks(events)
    ensures RunAll(events).survivors == {}
  {
    if events == [] {
    } else {
      assert events[|events| - 1] in events;
      NoSurvivors(events[..|events| - 1]);
    }
  }

  // Then at most one child is alive, in every interleaving.
  lemma AtMostOneBackend(events: seq<Event>)
    requires TerminateWorks(events)
    ensures var sys := RunAll(events); |sys.alive| <= 1 && forall p <- sys.alive :: sys.proc == Some(p)
  {
    LiveChildIsProc(events);
    NoSurvivors(events);
    var sys := RunAll(events);
    if sys.proc.Some? {
      assert sys.alive <= {sys.proc.value};
      if sys.proc.value in sys.alive { assert sys.alive == {sys.proc.value}; } else { assert sys.alive == {}; }
    } else {
      assert sys.alive == {};
    }
  }

  // Whenever nobody is inside the lock, _proc and _started_at are both set or
  // both unset; and two threads are never inside it.
  lemma LockProtects(events: seq<Event>, t: Tid, u: Tid)
    ensures var sys := RunAll(events);
            && (sys.lock.None? ==> (sys.stamped <==> sys.proc.Some?))
            && (t in sys.threads && u in sys.threads && Holding(sys.threads[t]) && Holding(sys.threads[u]) ==> t == u)
  {
    RunOk(events);
  }

  // Exactly when every live child that outlived its terminate is still the one
  // _proc refers to, every live child is.
  lemma LiveIsProcIffNoStray(events: seq<Event>)
    ensures var sys := RunAll(events);
            (forall p <- sys.alive :: sys.proc == Some(p)) <==>
                (forall p <- sys.alive * sys.survivors :: sys.proc == Some(p))
  {
    LiveChildIsProc(events);
    var sys := RunAll(events);
    if forall p <- sys.alive * sys.survivors :: sys.proc == Some(p) {
      forall p | p in sys.alive ensures sys.proc == Some(p) {
        assert p in sys.survivors ==> p in sys.alive * sys.survivors;
      }
    }
  }

  /* --- reading _proc and _started_at twice without the lock --- */

  predicate SecondProcRead(pc: PC) {
    match pc
    case PollDeref(_) => true
    case StatusDeref(how) => how.Free?
    case PidDeref(how, _) => how.Free?
    case _ => false
  }

  // Inside the lock, a second read never finds None. A request can only fail
  // between two unlocked reads of the same field, when it has been cleared.
  lemma FailsOnlyUnlocked(sys: Sys, e: Event, t: Tid)
    requires SysOk(sys) && t in sys.threads && !sys.threads[t].Failed?
    ensures t in Step(sys, e).threads
    ensures Step(sys, e).threads[t] == Failed(AttributeError) <==>
            e.Do? && e.t == t && SecondProcRead(sys.threads[t]) && sys.proc.None?
    ensures Step(sys, e).threads[t] == Failed(TypeError) <==>
            e.Do? && e.t == t && sys.threads[t] == UptimeDeref(Free) && !sys.stamped
  {
    if e.Do? && e.t in sys.threads {
      OthersWait(sys, e.t, e.healthy, e.dies);
      if e.t == t { OwnFailure(sys, t, e.healthy, e.dies); }
    }
  }

  lemma OwnFailure(sys: Sys, t: Tid, healthy: bool, dies: bool)
    requires SysOk(sys) && t in sys.threads && !sys.threads[t].Failed?
    ensures t in Run(sys, t, healthy, dies).threads
    ensures Run(sys, t, healthy, dies).threads[t] == Failed(AttributeError) <==>
            SecondProcRead(sys.threads[t]) && sys.proc.None?
    ensures Run(sys, t, healthy, dies).threads[t] == Failed(TypeError) <==>
            sys.threads[t] == UptimeDeref(Free) && !sys.stamped
  {
    assert Holding(sys.threads[t]) ==> Knows(sys, sys.threads[t]);
  }

  lemma OthersWait(sys: Sys, t: Tid, healthy: bool, dies: bool)
    requires t in sys.threads
    ensures var after := Run(sys, t, healthy, dies);
            && t in after.threads && after.threads.Keys == sys.threads.Keys
            && forall u <- sys.threads :: u != t ==> after.threads[u] == sys.threads[u]
  {
    var after := Run(sys, t, healthy, dies);
    if StatusPC(sys.threads[t]) {
      MovesOne(sys, t, healthy, dies);
    }
  }

  lemma MovesOne(sys: Sys, t: Tid, healthy: bool, dies: bool)
    requires t in sys.threads && StatusPC(sys.threads[t])
    ensures var after := Run(sys, t, healthy, dies);
            t in after.threads && after.threads == sys.threads[t := after.threads[t]]
  {
  }

  predicate NoStops(events: seq<Event>) {
    forall e <- events :: !e.CallStop? && !e.CallRestart?
  }

  predicate StopPC(pc: PC) {
    match pc
    case StopLock(_) | StopRead(_) | StopPoll(_, _) | StopKillPort(_) => true
    case StopTerminate(_, _) | StopClear(_) | StopStamp(_) => true
    case _ => false
  }

  // No thread is stopping, and a second read will find what the first one did.
  ghost predicate Calm(sys: Sys) {
    forall t <- sys.threads :: CalmPC(sys, sys.threads[t])
  }

  predicate CalmPC(sys: Sys, pc: PC) {
    && !pc.Failed? && !StopPC(pc)
    && (SecondProcRead(pc) ==> sys.proc.Some?)
    && (pc == UptimeDeref(Free) ==> sys.stamped)
  }

  lemma StepKeepsCalm(sys: Sys, e: Event)
    requires SysOk(sys) && Calm(sys) && !e.CallStop? && !e.CallRestart?
    ensures Calm(Step(sys, e))
  {
    if e.Do? && e.t in sys.threads {
      NothingCleared(sys, e.t, e.healthy, e.dies);
      OwnStepCalm(sys, e.t, e.healthy, e.dies);
      OthersWait(sys, e.t, e.healthy, e.dies);
      var after := Step(sys, e);
      forall u | u in after.threads ensures CalmPC(after, after.threads[u]) {
        assert u != e.t ==> after.threads[u] == sys.threads[u] && CalmPC(sys, sys.threads[u]);
      }
    }
  }

  lemma OwnStepCalm(sys: Sys, t: Tid, healthy: bool, dies: bool)
    requires SysOk(sys) && Calm(sys) && t in sys.threads
    ensures var after := Run(sys, t, healthy, dies); t in after.threads && CalmPC(after, after.threads[t])
  {
    assert CalmPC(sys, sys.threads[t]);
    assert Holding(sys.threads[t]) ==> Knows(sys, sys.threads[t]);
  }

  lemma NothingCleared(sys: Sys, t: Tid, healthy: bool, dies: bool)
    requires Calm(sys) && t in sys.threads
    ensures sys.proc.Some? ==> Run(sys, t, healthy, dies).proc.Some?
    ensures sys.stamped ==> Run(sys, t, healthy, dies).stamped
  {
    assert CalmPC(sys, sys.threads[t]);
  }

  // Without a stop or restart no request ever fails.
  lemma {:induction false} NoStopNoFailure(events: seq<Event>)
    requires NoStops(events)
    ensures Calm(RunAll(events))
  {
    if events == [] {
    } else {
      assert events[|events| - 1] in events;
      NoStopNoFailure(events[..|events| - 1]);
      RunOk(events[..|events| - 1]);
      StepKeepsCalm(RunAll(events[..|events| - 1]), events[|events| - 1]);
    }
  }

  /* --- schedules --- */

  lemma RunNext(events: seq<Event>, e: Event)
    ensures RunAll(events + [e]) == Step(RunAll(events), e)
  {
    assert (events + [e])[..|events|] == events;
  }

  lemma Next(events: seq<Event>, e: Event) returns (more: seq<Event>)
    ensures more == events + [e] && RunAll(more) == Step(RunAll(events), e)
  {
    more := events + [e];
    RunNext(events, e);
  }

  // A step that only moves thread t.
  lemma Hop(events: seq<Event>, base: Sys, t: Tid, pc: PC, next: PC, go: Event) returns (more: seq<Event>)
    requires RunAll(events) == At(base, t, pc)
    requires Step(At(base, t, pc), go) == At(At(base, t, pc), t, next)
    ensures more == events + [go] && RunAll(more) == At(base, t, next)
  {
    more := Next(events, go);
    assert At(At(base, t, pc), t, next) == At(base, t, next);
  }

  // Thread u, new, gets as far as StopPoll in the lock.
  lemma StopBegins(events: seq<Event>, u: Tid, dies: bool) returns (more: seq<Event>)
    requires var sys := RunAll(events); sys.lock.None? && u !in sys.threads
    ensures RunAll(more) == At(RunAll(events), u, StopPoll(false, RunAll(events).proc)).(lock := Some(u))
    ensures dies && TerminateWorks(events) ==> TerminateWorks(more)
  {
    var sys := RunAll(events);
    more := Next(events, CallStop(u));
    more := Next(more, Do(u, false, dies));
    assert RunAll(more).threads[u] == StopRead(false);
    more := Next(more, Do(u, false, dies));
    assert RunAll(more).threads == sys.threads[u := StopPoll(false, sys.proc)];
  }

  // A stop on its own, up to the point where it has cleared _proc.
  lemma StopRuns(events: seq<Event>, u: Tid, dies: bool) returns (more: seq<Event>)
    requires var sys := RunAll(events); Alive(sys, sys.proc) && sys.lock.None? && u !in sys.threads
    ensures var sys, after := RunAll(events), RunAll(more);
            && after.proc == None && after.lock == Some(u) && after.spawned == sys.spawned
            && after.alive == (if dies then sys.alive - {sys.proc.value} else sys.alive)
            && after.threads == sys.threads[u := StopStamp(false)]
    ensures dies && TerminateWorks(events) ==> TerminateWorks(more)
  {
    more := StopBegins(events, u, dies);
    more := Next(more, Do(u, false, dies));
    more := StopEnds(more, u, dies);
    assert RunAll(more).threads == RunAll(events).threads[u := StopStamp(false)];
  }

  lemma StopEnds(events: seq<Event>, u: Tid, dies: bool) returns (more: seq<Event>)
    requires var sys := RunAll(events);
             u in sys.threads && Alive(sys, sys.proc) && sys.threads[u] == StopTerminate(false, sys.proc.value)
    ensures var sys, after := RunAll(events), RunAll(more);
            && after.proc == None && after.lock == sys.lock && after.spawned == sys.spawned
            && after.alive == (if dies then sys.alive - {sys.proc.value} else sys.alive)
            && after.threads == sys.threads[u := StopStamp(false)]
    ensures dies && TerminateWorks(events) ==> TerminateWorks(more)
  {
    more := Next(events, Do(u, false, dies));
    assert RunAll(more).threads[u] == StopClear(false);
    more := Next(more, Do(u, false, dies));
    assert RunAll(more).threads == RunAll(events).threads[u := StopStamp(false)];
  }

  // With a stop it can fail: a status request that has seen a child reads
  // _proc again after the stop has cleared it.
  lemma StopCanFailAStatus(events: seq<Event>, t: Tid, u: Tid) returns (more: seq<Event>)
    requires t != u && TerminateWorks(events)
    requires var sys := RunAll(events); Alive(sys, sys.proc) && sys.lock.None? && t !in sys.threads && u !in sys.threads
    ensures TerminateWorks(more) && t in RunAll(more).threads && RunAll(more).threads[t] == Failed(AttributeError)
  {
    more := Next(events, CallStatus(t));
    more := Next(more, Do(t, false, true));
    assert RunAll(more).threads[t] == StatusDeref(Free);
    more := StopRuns(more, u, true);
    more := Next(more, Do(t, false, true));
  }

  // Likewise _started_at.
  lemma StopCanFailTheUptime(events: seq<Event>, t: Tid, u: Tid) returns (more: seq<Event>)
    requires t != u && TerminateWorks(events)
    requires var sys := RunAll(events); Alive(sys, sys.proc) && sys.lock.None? && t !in sys.threads && u !in sys.threads
    ensures TerminateWorks(more) && t in RunAll(more).threads && RunAll(more).threads[t] == Failed(TypeError)
  {
    LockProtects(events, t, u);
    more := StatusRuns(events, t);
    more := StopRuns(more, u, true);
    assert RunAll(more).threads[t] == UptimeDeref(Free);
    more := Next(more, Do(u, false, true));
    more := Next(more, Do(t, false, true));
  }

  // A status request on its own, up to its second read of _started_at.
  lemma StatusRuns(events: seq<Event>, t: Tid) returns (more: seq<Event>)
    requires TerminateWorks(events)
    requires var sys := RunAll(events); Alive(sys, sys.proc) && sys.stamped && t !in sys.threads
    ensures TerminateWorks(more) && RunAll(more) == At(RunAll(events), t, UptimeDeref(Free))
  {
    var sys, go := RunAll(events), Do(t, false, true);
    more := SeesAlive(events, t);
    more := Hop(more, sys, t, PidRead(Free, true), PidDeref(Free, true), go);
    more := Hop(more, sys, t, PidDeref(Free, true), UptimeRead(Free, true), go);
    more := Hop(more, sys, t, UptimeRead(Free, true), UptimeDeref(Free), go);
  }

  lemma SeesAlive(events: seq<Event>, t: Tid) returns (more: seq<Event>)
    requires TerminateWorks(events)
    requires var sys := RunAll(events); Alive(sys, sys.proc) && t !in sys.threads
    ensures TerminateWorks(more) && RunAll(more) == At(RunAll(events), t, PidRead(Free, true))
  {
    var sys, go := RunAll(events), Do(t, false, true);
    more := Next(events, CallStatus(t));
    more := Hop(more, sys, t, StatusRead(Free), StatusDeref(Free), go);
    more := Hop(more, sys, t, StatusDeref(Free), PidRead(Free, true), go);
  }

  // A start on its own, up to its first poll.
  lemma StartRuns(events: seq<Event>, t: Tid) returns (more: seq<Event>)
    requires var sys := RunAll(events); sys.proc.None? && sys.lock.None? && t !in sys.threads
    ensures events <= more
    ensures var sys, after := RunAll(events), RunAll(more);
            && after.proc == Some(sys.spawned) && after.lock == None && after.spawned == sys.spawned + 1
            && after.alive == sys.alive + {sys.spawned} && after.threads == sys.threads[t := Poll(0)]
  {
    var sys, go := RunAll(events), Do(t, false, false);
    var locked := sys.(lock := Some(t));
    more := Next(events, CallStart(t));
    more := Next(more, go);
    assert RunAll(more) == At(locked, t, StartRead);
    more := Hop(more, locked, t, StartRead, StartHealth, go);
    more := Hop(more, locked, t, StartHealth, StartSpawn, go);
    more := SpawnRuns(more, t);
    assert RunAll(more).threads == sys.threads[t := Poll(0)];
  }

  lemma SpawnRuns(events: seq<Event>, t: Tid) returns (more: seq<Event>)
    requires var sys := RunAll(events); t in sys.threads && sys.threads[t] == StartSpawn
    ensures events <= more
    ensures var sys, after := RunAll(events), RunAll(more);
            && after.proc == Some(sys.spawned) && after.lock == None && after.spawned == sys.spawned + 1
            && after.alive == sys.alive + {sys.spawned} && after.threads == sys.threads[t := Poll(0)]
  {
    var sys, go := RunAll(events), Do(t, false, false);
    more := Next(events, go);
    assert RunAll(more).threads == sys.threads[t := StartStamp];
    more := Next(more, go);
    assert RunAll(more).threads == sys.threads[t := Poll(0)];
  }

  // In any run, once _proc is cleared while a child is still alive, a start
  // makes one more live child.
  lemma SurvivorMakesTwo(events: seq<Event>, t: Tid) returns (more: seq<Event>)
    requires var sys := RunAll(events); sys.proc.None? && sys.lock.None? && t !in sys.threads && sys.alive != {}
    ensures events <= more
    ensures RunAll(events).alive < RunAll(more).alive && |RunAll(more).alive| >= 2
    ensures exists p :: p in RunAll(more).alive && RunAll(more).proc != Some(p)
  {
    var sys := RunAll(events);
    RunOk(events);
    more := StartRuns(events, t);
    assert sys.spawned !in sys.alive;
    var p :| p in sys.alive;
    assert |sys.alive| >= 1 by { assert |sys.alive - {p}| == |sys.alive| - 1; }
  }

  // And a terminate that leaves its process alive gets there.
  lemma SurvivorReached() returns (events: seq<Event>)
    ensures var sys := RunAll(events); sys.proc.None? && sys.lock.None? && sys.alive == {0} && 2 !in sys.threads
  {
    events := StartRuns([], 0);
    assert RunAll(events).alive == {0};
    events := StopRuns(events, 1, false);
    events := StopReturns(events, 1);
  }

  lemma StopReturns(events: seq<Event>, u: Tid) returns (more: seq<Event>)
    requires var sys := RunAll(events); u in sys.threads && sys.threads[u] == StopStamp(false) && sys.proc.None?
    ensures RunAll(more) == At(RunAll(events), u, Idle).(lock := None, stamped := false)
  {
    var sys, go := RunAll(events), Do(u, false, false);
    var base := sys.(stamped := false);
    more := Next(events, go);
    more := Hop(more, base, u, StatusRead(Locked(false)), PidRead(Locked(false), false), go);
    more := Hop(more, base, u, PidRead(Locked(false), false), UptimeRead(Locked(false), false), go);
    more := Next(more, go);
    assert RunAll(more).threads == sys.threads[u := Idle];
  }
}
