// scripts/run_pytest_chunks.py as a protocol: one run of execute_plan as a
// sequence of small steps, and whole campaigns of runs over one manifest, each
// run cut off at any step by a kill or by a signal.
module ChunkRunner {
  import opened Wrappers
  import opened Ordering

  datatype Status = Pending | Completed | Interrupted | NotRun | NotSelected | Other(text: string)

  type Counts = Option<map<string, int>>

  datatype ChunkResult = ChunkResult(exitCode: Option<int>, duration: real, counts: Counts,
                                     signal: Option<nat>, error: Option<string>)

  datatype Rec = Rec(index: nat, files: seq<string>, status: Status, exitCode: Option<int>, duration: Option<real>,
                     counts: Counts, signal: Option<nat>, error: Option<string>, rerun: bool)

  // What the manifest pins down: every run of a campaign has the same.
  datatype Plan = Plan(chunks: seq<seq<string>>, selected: Option<seq<nat>>)

  // What may differ from run to run.
  datatype Options = Options(stopOnFailure: bool, failOnNewDirty: bool, rerunFailed: bool, resuming: bool)

  // plan.selected or list(range(1, total + 1))
  predicate Selected(plan: Plan, index: nat) {
    if plan.selected.None? || plan.selected.value == [] then 1 <= index <= |plan.chunks|
    else index in plan.selected.value
  }

  // (code or 0) == 0
  predicate ZeroOrNone(code: Option<int>) {
    code.None? || code.value == 0
  }

  predicate Passed(r: Rec) {
    r.status == Completed && ZeroOrNone(r.exitCode)
  }

  function FreshRecords(plan: Plan): seq<Rec> {
    seq(|plan.chunks|, i requires 0 <= i < |plan.chunks| =>
      Rec(i + 1, plan.chunks[i], Pending, None, None, None, None, None, false))
  }

  /* --- one run --- */

  datatype Action = Skip | MarkNotSelected | MarkNotRun | Launch

  function Decide(plan: Plan, opts: Options, r: Rec, stopped: bool): Action {
    if !Selected(plan, r.index) then
      if r.status == Pending then MarkNotSelected else Skip
    else if opts.resuming && Passed(r) then Skip
    else if opts.resuming && r.status == Completed && !opts.rerunFailed then Skip
    else if opts.resuming && r.status == NotSelected then Skip
    else if stopped then MarkNotRun
    else Launch
  }

  // record.rerun = True for a failed chunk that a resumed run takes up again
  function Taken(opts: Options, r: Rec): Rec {
    if opts.resuming && r.status == Completed then r.(rerun := true) else r
  }

  // Where in the loop body the run stands; between any two phases it may be cut off.
  datatype Phase =
    | AtRecord                                    // top of the loop
    | Launching                                   // the child may be running
    | Returned(res: ChunkResult)                  // nothing assigned yet
    | ExitAssigned(res: ChunkResult)              // record.exit_code assigned
    | Assigned(res: ChunkResult)                  // duration, counts and error too
    | Compared(res: ChunkResult, newly: seq<string>)  // dirty snapshot taken
    | Unsaved(next: AfterSave)                    // record final, manifest not yet replaced
    | Over                                        // execute_plan has returned

  datatype AfterSave = GoOn | CheckStop(res: ChunkResult, newly: seq<string>) | Return

  datatype RunState = RunState(
    opts: Options, records: seq<Rec>, pos: nat, phase: Phase, stopped: bool,
    dirtyBefore: seq<string>, dirtySeen: set<string>, newDirty: seq<string>,
    interrupted: Option<nat>, stoppedAt: Option<nat>,
    snapshots: seq<seq<string>>)  // history: what every post-launch snapshot returned

  // One runner machine: the manifest on disk, the live run if any, and the
  // history of launches and of what the launches returned.
  datatype Sys = Sys(disk: Option<seq<Rec>>, run: Option<RunState>, launched: seq<nat>,
                     finished: seq<(nat, ChunkResult)>)

  // What the outside supplies to a step: nothing, a launch result, a snapshot.
  datatype Input = Nothing | Outcome(res: ChunkResult) | Snapshot(paths: seq<string>)

  function NotSeen(paths: seq<string>, seen: set<string>): seq<string> {
    if paths == [] then []
    else (if paths[0] in seen then [] else [paths[0]]) + NotSeen(paths[1..], seen)
  }

  function Begin(opts: Options, records: seq<Rec>, dirty: seq<string>): RunState {
    RunState(opts, records, 0, AtRecord, false, dirty, Elements(dirty), [], None, None, [])
  }

  function SetRecord(run: RunState, r: Rec): RunState
    requires run.pos < |run.records|
  {
    run.(records := run.records[run.pos := r])
  }

  // One step of execute_plan. An input of the wrong kind changes nothing.
  function Tick(plan: Plan, sys: Sys, input: Input): Sys {
    if sys.run.None? || sys.run.value.pos > |sys.run.value.records| then sys else
    var run := sys.run.value;
    if run.pos == |run.records| then
      if run.phase == AtRecord then sys.(run := Some(run.(phase := Over))) else sys
    else
      var r := run.records[run.pos];
      match (run.phase, input)
      case (AtRecord, Nothing) => TickAtRecord(plan, sys, run, r)
      case (Launching, Outcome(res)) =>
        sys.(run := Some(run.(phase := Returned(res))), finished := sys.finished + [(r.index, res)])
      case (Returned(res), Nothing) =>
        sys.(run := Some(SetRecord(run, r.(exitCode := res.exitCode)).(phase := ExitAssigned(res))))
      case (ExitAssigned(res), Nothing) =>
        var r' := r.(duration := Some(res.duration), counts := res.counts, error := res.error);
        sys.(run := Some(SetRecord(run, r').(phase := Assigned(res))))
      case (Assigned(res), Snapshot(paths)) =>
        var newly := NotSeen(paths, run.dirtySeen);
        sys.(run := Some(run.(phase := Compared(res, newly), dirtySeen := run.dirtySeen + Elements(newly),
                              newDirty := run.newDirty + newly, snapshots := run.snapshots + [paths])))
      case (Compared(res, newly), Nothing) => sys.(run := Some(Judge(run, r, res, newly)))
      case (Unsaved(next), Nothing) =>
        sys.(disk := Some(run.records), run := Some(AfterTouch(run, r, next)))
      case _ => sys
  }

  ghost function Ticks(plan: Plan, sys: Sys, inputs: seq<Input>): Sys {
    if inputs == [] then sys
    else Tick(plan, Ticks(plan, sys, inputs[..|inputs| - 1]), inputs[|inputs| - 1])
  }

  lemma TicksNext(plan: Plan, sys: Sys, inputs: seq<Input>, input: Input)
    ensures Ticks(plan, sys, inputs + [input]) == Tick(plan, Ticks(plan, sys, inputs), input)
  {
    assert (inputs + [input])[..|inputs|] == inputs;
  }

  function TickAtRecord(plan: Plan, sys: Sys, run: RunState, r: Rec): Sys
    requires run.pos < |run.records|
  {
    match Decide(plan, run.opts, r, run.stopped)
    case Skip => sys.(run := Some(run.(pos := run.pos + 1)))
    case MarkNotSelected => sys.(run := Some(SetRecord(run, r.(status := NotSelected)).(phase := Unsaved(GoOn))))
    case MarkNotRun => sys.(run := Some(SetRecord(run, Taken(run.opts, r).(status := NotRun)).(phase := Unsaved(GoOn))))
    case Launch =>
      sys.(run := Some(SetRecord(run, Taken(run.opts, r)).(phase := Launching)), launched := sys.launched + [r.index])
  }

  // The status a finished chunk gets.
  function Judge(run: RunState, r: Rec, res: ChunkResult, newly: seq<string>): RunState
    requires run.pos < |run.records|
  {
    if res.signal.Some? then
      var run' := SetRecord(run, r.(status := Interrupted, signal := res.signal));
      run'.(interrupted := res.signal, phase := Unsaved(Return))
    else
      SetRecord(run, r.(status := Completed)).(phase := Unsaved(CheckStop(res, newly)))
  }

  // The run launches nothing more after this chunk.
  predicate Stops(opts: Options, res: ChunkResult, newly: seq<string>) {
    (!ZeroOrNone(res.exitCode) && opts.stopOnFailure) || (opts.failOnNewDirty && newly != [])
  }

  // What follows the manifest write.
  function AfterTouch(run: RunState, r: Rec, next: AfterSave): RunState {
    match next
    case Return => run.(phase := Over)
    case GoOn => run.(phase := AtRecord, pos := run.pos + 1)
    case CheckStop(res, newly) =>
      var run' := run.(phase := AtRecord, pos := run.pos + 1);
      if Stops(run.opts, res, newly) then run'.(stopped := true, stoppedAt := Some(r.index)) else run'
  }

  /* --- exit code --- */

  // [code for code in codes if code] over the completed records
  function NonzeroCodes(records: seq<Rec>): seq<int> {
    if records == [] then []
    else
      var failed := records[0].status == Completed && !ZeroOrNone(records[0].exitCode);
      (if failed then [records[0].exitCode.value] else [])
         + NonzeroCodes(records[1..])
  }

  function Max(codes: seq<int>): (m: int)
    requires codes != []
    ensures m in codes && forall c <- codes :: c <= m
  {
    if |codes| == 1 then codes[0]
    else
      var m := Max(codes[1..]);
      assert codes == [codes[0]] + codes[1..];
      if codes[0] >= m then codes[0] else m
  }

  function FinalExitCode(run: RunState): int {
    if run.interrupted.Some? then 128 + run.interrupted.value
    else if NonzeroCodes(run.records) != [] then Max(NonzeroCodes(run.records))
    else if run.stoppedAt.Some? then 1
    else 0
  }

  /* --- campaigns --- */

  datatype Event =
    | StartFresh(opts: Options, dirty: seq<string>)  // refused when a manifest exists
    | Resume(opts: Options, dirty: seq<string>)      // refused when none exists
    | Do(input: Input)                               // one step of execute_plan
    | Signal(signum: nat)                            // raised out of execute_plan, caught in main
    | Finish                                         // main's last manifest write, after execute_plan
    | Kill                                           // the process is gone, the disk stays

  function Step(plan: Plan, sys: Sys, e: Event): Sys {
    match e
    case StartFresh(opts, dirty) =>
      if sys.run.Some? || sys.disk.Some? then sys
      else
        var records := FreshRecords(plan);
        sys.(disk := Some(records), run := Some(Begin(opts.(resuming := false), records, dirty)))
    case Resume(opts, dirty) =>
      if sys.run.Some? || sys.disk.None? then sys
      else sys.(run := Some(Begin(opts.(resuming := true), sys.disk.value, dirty)))
    case Do(input) => Tick(plan, sys, input)
    case Signal(n) =>
      if sys.run.None? || sys.run.value.phase == Over then sys
      else sys.(run := Some(sys.run.value.(phase := Over, interrupted := Some(n), stoppedAt := None, newDirty := [])))
    case Finish =>
      if sys.run.None? || sys.run.value.phase != Over then sys
      else sys.(disk := Some(sys.run.value.records), run := None)
    case Kill => sys.(run := None)
  }

  function Campaign(plan: Plan, events: seq<Event>): Sys {
    if events == [] then Sys(None, None, [], [])
    else Step(plan, Campaign(plan, events[..|events| - 1]), events[|events| - 1])
  }

  /* --- the invariant --- */

  // The chunk was launched and the launch returned exit code 0 (or none).
  ghost predicate Backed(finished: seq<(nat, ChunkResult)>, index: nat) {
    exists f :: f in finished && f.0 == index && ZeroOrNone(f.1.exitCode)
  }

  ghost predicate RecordOk(plan: Plan, r: Rec, i: nat)
    requires i < |plan.chunks|
  {
    && r.index == i + 1
    && r.files == plan.chunks[i]
    && !r.status.Other?
    && (if Selected(plan, i + 1) then r.status != NotSelected else r.status == Pending || r.status == NotSelected)
  }

  ghost predicate RecordsOk(plan: Plan, records: seq<Rec>, finished: seq<(nat, ChunkResult)>) {
    && |records| == |plan.chunks|
    && (forall i :: 0 <= i < |records| ==> RecordOk(plan, records[i], i))
    && (forall i :: 0 <= i < |records| && Passed(records[i]) ==> Backed(finished, i + 1))
  }

  // The result a phase holds comes from a launch of the current record.
  ghost predicate PhaseOk(plan: Plan, sys: Sys, run: RunState)
    requires run.pos < |run.records|
  {
    var r := run.records[run.pos];
    match run.phase
    case AtRecord => true
    case Launching => Selected(plan, r.index)
    case Returned(res) => Selected(plan, r.index) && (r.index, res) in sys.finished
    case ExitAssigned(res) => Selected(plan, r.index) && (r.index, res) in sys.finished && r.exitCode == res.exitCode
    case Assigned(res) => Selected(plan, r.index) && (r.index, res) in sys.finished && r.exitCode == res.exitCode
    case Compared(res, _) => Selected(plan, r.index) && (r.index, res) in sys.finished && r.exitCode == res.exitCode
    case Unsaved(GoOn) => r.status == NotSelected || (r.status == NotRun && run.stopped)
    case Unsaved(CheckStop(_, _)) => r.status == Completed
    case Unsaved(Return) => r.status == Interrupted && run.interrupted.Some?
    case Over => run.interrupted.Some?
  }

  ghost predicate Untouched(records: seq<Rec>, i: nat) {
    i < |records| && records[i].status == Pending
  }

  // A selected record the loop is done with, in a run no signal ended.
  ghost predicate Settled(r: Rec, stopped: bool) {
    r.status == Completed || (r.status == NotRun && stopped)
  }

  // What holds whatever the phase.
  ghost predicate Consistent(plan: Plan, sys: Sys, run: RunState) {
    && sys.disk.Some?
    && RecordsOk(plan, sys.disk.value, sys.finished)
    && RecordsOk(plan, run.records, sys.finished)
    && run.pos <= |run.records|
    && (forall i :: 0 <= i < |run.records| && Passed(sys.disk.value[i]) ==> run.records[i] == sys.disk.value[i])
    && (!run.opts.resuming ==> forall i :: run.pos < i < |run.records| ==>
          Untouched(sys.disk.value, i) && Untouched(run.records, i))
    && (run.interrupted.None? ==> (run.stopped <==> run.stoppedAt.Some?))
    && (run.interrupted.None? ==> forall i :: 0 <= i < run.pos && Selected(plan, i + 1) ==>
          Settled(run.records[i], run.stopped))
  }

  ghost predicate RunOk(plan: Plan, sys: Sys, run: RunState) {
    && Consistent(plan, sys, run)
    && (run.interrupted.Some? ==> run.phase == Over || run.phase == Unsaved(Return))
    && if run.pos == |run.records| then run.phase == AtRecord || run.phase == Over
       else
         && PhaseOk(plan, sys, run)
         && (run.phase == AtRecord && !run.opts.resuming ==>
               Untouched(sys.disk.value, run.pos) && Untouched(run.records, run.pos))
         && (run.phase == AtRecord || run.phase == Over || !Passed(sys.disk.value[run.pos]))
  }

  ghost predicate SysOk(plan: Plan, sys: Sys) {
    && (sys.disk.Some? ==> RecordsOk(plan, sys.disk.value, sys.finished))
    && (sys.run.Some? ==> RunOk(plan, sys, sys.run.value))
  }

  lemma MoreFinished(plan: Plan, records: seq<Rec>, finished: seq<(nat, ChunkResult)>, f: (nat, ChunkResult))
    requires RecordsOk(plan, records, finished)
    ensures RecordsOk(plan, records, finished + [f])
  {
    forall i | 0 <= i < |records| && Passed(records[i]) ensures Backed(finished + [f], i + 1) {
      assert Backed(finished, i + 1);
      var g :| g in finished && g.0 == i + 1 && ZeroOrNone(g.1.exitCode);
      assert g in finished + [f];
    }
  }

  // A step that rewrites the current record, which the manifest does not have as passed.
  lemma RewriteKeeps(plan: Plan, sys: Sys, run: RunState, r': Rec, phase: Phase, interrupted: Option<nat>)
    requires Consistent(plan, sys, run) && run.interrupted.None? && run.pos < |run.records|
    requires !Passed(sys.disk.value[run.pos])
    requires RecordOk(plan, r', run.pos)
    requires Passed(r') ==> Backed(sys.finished, run.pos + 1)
    requires phase != AtRecord && phase != Over && (interrupted.Some? ==> phase == Unsaved(Return))
    requires PhaseOk(plan, sys, SetRecord(run, r').(phase := phase, interrupted := interrupted))
    ensures RunOk(plan, sys, SetRecord(run, r').(phase := phase, interrupted := interrupted))
  {
    var run' := SetRecord(run, r').(phase := phase, interrupted := interrupted);
    assert run'.pos == run.pos && run'.opts == run.opts && |run'.records| == |run.records|;
    RecordsOkUpdate(plan, run.records, sys.finished, run.pos, r');
    forall i | run.pos < i < |run.records| && !run.opts.resuming
      ensures Untouched(sys.disk.value, i) && Untouched(run'.records, i)
    {
      assert Untouched(run.records, i);
    }
  }

  lemma RecordsOkUpdate(plan: Plan, records: seq<Rec>, finished: seq<(nat, ChunkResult)>, k: nat, r': Rec)
    requires RecordsOk(plan, records, finished) && k < |records|
    requires RecordOk(plan, r', k) && (Passed(r') ==> Backed(finished, k + 1))
    ensures RecordsOk(plan, records[k := r'], finished)
  {
  }

  // Moving on to the next record.
  lemma AdvanceKeeps(plan: Plan, sys: Sys, run: RunState, run': RunState)
    requires Consistent(plan, sys, run) && run.interrupted.None? && run.pos < |run.records|
    requires Selected(plan, run.pos + 1) ==> Settled(run.records[run.pos], run'.stopped)
    requires run' == run.(pos := run.pos + 1, phase := AtRecord, stopped := run'.stopped, stoppedAt := run'.stoppedAt)
    requires run.stopped ==> run'.stopped
    requires run'.stopped <==> run'.stoppedAt.Some?
    ensures RunOk(plan, sys, run')
  {
    assert run'.opts == run.opts && run'.records == run.records && run'.pos == run.pos + 1;
    forall i | run.pos < i < |run.records| && !run.opts.resuming
      ensures Untouched(sys.disk.value, i) && Untouched(run.records, i)
    {
    }
  }

  lemma AtRecordKeeps(plan: Plan, sys: Sys)
    requires SysOk(plan, sys) && sys.run.Some? && sys.run.value.phase == AtRecord
    requires sys.run.value.pos < |sys.run.value.records|
    ensures SysOk(plan, Tick(plan, sys, Nothing))
  {
    var run := sys.run.value;
    var r := run.records[run.pos];
    assert RecordOk(plan, r, run.pos);
    match Decide(plan, run.opts, r, run.stopped) {
      case Skip =>
        AdvanceKeeps(plan, sys, run, run.(pos := run.pos + 1));
      case MarkNotSelected =>
        RewriteKeeps(plan, sys, run, r.(status := NotSelected), Unsaved(GoOn), None);
      case MarkNotRun =>
        RewriteKeeps(plan, sys, run, Taken(run.opts, r).(status := NotRun), Unsaved(GoOn), None);
      case Launch =>
        RewriteKeeps(plan, sys, run, Taken(run.opts, r), Launching, None);
    }
  }

  lemma ReturnKeeps(plan: Plan, sys: Sys, res: ChunkResult)
    requires SysOk(plan, sys) && sys.run.Some? && sys.run.value.phase == Launching
    requires sys.run.value.pos < |sys.run.value.records|
    ensures SysOk(plan, Tick(plan, sys, Outcome(res)))
  {
    var run := sys.run.value;
    var f := (run.records[run.pos].index, res);
    MoreFinished(plan, run.records, sys.finished, f);
    MoreFinished(plan, sys.disk.value, sys.finished, f);
    assert f in sys.finished + [f];
  }

  lemma AssignKeeps(plan: Plan, sys: Sys)
    requires SysOk(plan, sys) && sys.run.Some?
    requires sys.run.value.phase.Returned? || sys.run.value.phase.ExitAssigned?
    requires sys.run.value.pos < |sys.run.value.records|
    ensures SysOk(plan, Tick(plan, sys, Nothing))
  {
    var run := sys.run.value;
    var r, res := run.records[run.pos], run.phase.res;
    assert ZeroOrNone(res.exitCode) ==> Backed(sys.finished, run.pos + 1);
    if run.phase.Returned? {
      RewriteKeeps(plan, sys, run, r.(exitCode := res.exitCode), ExitAssigned(res), None);
    } else {
      RewriteKeeps(plan, sys, run, r.(duration := Some(res.duration), counts := res.counts, error := res.error),
          Assigned(res), None);
    }
  }

  lemma JudgeKeeps(plan: Plan, sys: Sys)
    requires SysOk(plan, sys) && sys.run.Some? && sys.run.value.phase.Compared?
    requires sys.run.value.pos < |sys.run.value.records|
    ensures SysOk(plan, Tick(plan, sys, Nothing))
  {
    var run := sys.run.value;
    var r, res := run.records[run.pos], run.phase.res;
    if res.signal.Some? {
      RewriteKeeps(plan, sys, run, r.(status := Interrupted, signal := res.signal), Unsaved(Return), res.signal);
    } else {
      assert ZeroOrNone(res.exitCode) ==> Backed(sys.finished, run.pos + 1);
      RewriteKeeps(plan, sys, run, r.(status := Completed), Unsaved(CheckStop(res, run.phase.newly)), None);
    }
  }

  // The manifest now holds the records in memory.
  lemma SaveKeeps(plan: Plan, sys: Sys)
    requires SysOk(plan, sys) && sys.run.Some? && sys.run.value.phase.Unsaved?
    requires sys.run.value.pos < |sys.run.value.records|
    ensures SysOk(plan, Tick(plan, sys, Nothing))
  {
    var run := sys.run.value;
    var saved := sys.(disk := Some(run.records));
    assert RecordOk(plan, run.records[run.pos], run.pos);
    assert Consistent(plan, saved, run);
    if run.phase.next != Return {
      AdvanceKeeps(plan, saved, run, AfterTouch(run, run.records[run.pos], run.phase.next));
    }
  }

  lemma TickKeeps(plan: Plan, sys: Sys, input: Input)
    requires SysOk(plan, sys)
    ensures SysOk(plan, Tick(plan, sys, input))
  {
    if sys.run.Some? && sys.run.value.pos < |sys.run.value.records| {
      match (sys.run.value.phase, input) {
        case (AtRecord, Nothing) => AtRecordKeeps(plan, sys);
        case (Launching, Outcome(res)) => ReturnKeeps(plan, sys, res);
        case (Returned(_), Nothing) => AssignKeeps(plan, sys);
        case (ExitAssigned(_), Nothing) => AssignKeeps(plan, sys);
        case (Assigned(res), Snapshot(paths)) =>
        case (Compared(_, _), Nothing) => JudgeKeeps(plan, sys);
        case (Unsaved(_), Nothing) => SaveKeeps(plan, sys);
        case _ =>
      }
    }
  }

  lemma StepKeeps(plan: Plan, sys: Sys, e: Event)
    requires SysOk(plan, sys)
    ensures SysOk(plan, Step(plan, sys, e))
  {
    match e {
      case Do(input) => TickKeeps(plan, sys, input);
      case _ =>
    }
  }
}
