// execute_plan in its own, imperative form, proved to take exactly the steps
// of the protocol.
module ExecutePlan {
  import opened Wrappers
  import opened Ordering
  import opened ChunkDirty
  import opened ChunkOutcome
  import opened ChunkRunner

  class ChunkRecord {
    const index: nat
    const files: seq<string>
    var status: Status
    var exitCode: Option<int>
    var duration: Option<real>
    var counts: Counts
    var signal: Option<nat>
    var error: Option<string>
    var rerun: bool

    constructor (r: Rec)
      ensures Val() == r
    {
      index, files, status, exitCode := r.index, r.files, r.status, r.exitCode;
      duration, counts, signal, error, rerun := r.duration, r.counts, r.signal, r.error, r.rerun;
    }

    // to_json
    function Val(): Rec
      reads this
    {
      Rec(index, files, status, exitCode, duration, counts, signal, error, rerun)
    }
  }

  function Vals(records: seq<ChunkRecord>): (v: seq<Rec>)
    reads records
    ensures |v| == |records| && forall i :: 0 <= i < |records| ==> v[i] == records[i].Val()
  {
    seq(|records|, i requires 0 <= i < |records| reads records => records[i].Val())
  }

  class Manifest {
    var chunks: Option<seq<Rec>>
    constructor ()
      ensures chunks == None
    {
      chunks := None;
    }
  }

  class RunOutcome {
    var interrupted: Option<nat>
    var stoppedAt: Option<nat>
    var newDirty: seq<string>
    var dirtyBefore: seq<string>
    var dirtyAfter: seq<string>

    constructor (dirtyBefore: seq<string>)
      ensures this.dirtyBefore == dirtyBefore && dirtyAfter == [] && newDirty == []
      ensures interrupted == None && stoppedAt == None
    {
      this.dirtyBefore, dirtyAfter, newDirty, interrupted, stoppedAt := dirtyBefore, [], [], None, None;
    }
  }

  // f names the n-th due record, with what the n-th launch returned for its files.
  ghost predicate OfLaunch(job: Job, launch: (nat, seq<string>) -> ChunkResult, n: nat, f: (nat, ChunkResult)) {
    exists j :: 0 <= j < |job.first| && Due(job, j) && DueBefore(job, j) == n
                && f == (job.first[j].index, launch(n, job.first[j].files))
  }

  // The results `more` adds to `before` are those of the launches, in order.
  ghost predicate Launched(job: Job, launch: (nat, seq<string>) -> ChunkResult, before: seq<(nat, ChunkResult)>,
                           more: seq<(nat, ChunkResult)>) {
    && |before| <= |more|
    && before == more[..|before|]
    && forall n :: |before| <= n < |more| ==> OfLaunch(job, launch, n - |before|, more[n])
  }

  // The snapshots compared so far are those after the first one.
  ghost predicate AllFromSnapshot(snapshot: nat -> seq<string>, seen: seq<seq<string>>) {
    forall n :: 0 <= n < |seen| ==> seen[n] == snapshot(n + 1)
  }

  // sorted(paths)
  method SortPaths(paths: set<string>) returns (sorted: seq<string>)
    ensures IsSortedSet(sorted, paths, LexLeq)
  {
    LexIsTotalOrder();
    sorted := SortSet(paths, LexLeq);
  }

  // A run that launched what was due and left what its options ask for, in the
  // records and, if the manifest began as the records did, on disk.
  ghost predicate RunsAsPlanned(job: Job, launch: (nat, seq<string>) -> ChunkResult, snapshot: nat -> seq<string>,
                                start: Sys, end: Sys) {
    && end.run.Some? && end.run.value.phase == Over && Launched(job, launch, start.finished, end.finished)
    && var run, results := end.run.value, Results(end.finished, |start.finished|);
    && AllFromSnapshot(snapshot, run.snapshots) && DirtyOk(run)
    && AsPlanned(job, results, run.snapshots, run.records)
    && Signals(job, results, run.snapshots, run.interrupted, run.stoppedAt)
    && (start.disk == Some(job.first) ==> end.disk == Some(run.records))
  }

  // The job of a run that begins at `start`.
  ghost function JobOf(plan: Plan, opts: Options, start: Sys, snapshot: nat -> seq<string>): Job
    requires start.run.Some?
  {
    Job(plan, opts, start.run.value.records, snapshot(0))
  }

  // The records, the manifest and the outcome are as the run ended.
  ghost predicate Reports(records: seq<ChunkRecord>, manifest: Manifest, outcome: RunOutcome, end: Sys)
    requires end.run.Some?
    reads records, manifest, outcome
  {
    var run := end.run.value;
    && Vals(records) == run.records && manifest.chunks == end.disk
    && outcome.interrupted == run.interrupted && outcome.stoppedAt == run.stoppedAt
    && outcome.newDirty == run.newDirty && outcome.dirtyBefore == run.dirtyBefore
    && if run.interrupted.Some? then outcome.dirtyAfter == []
       else IsSortedSet(outcome.dirtyAfter, Elements(run.dirtyBefore) + Union(run.snapshots), LexLeq)
  }

  // The variables of execute_plan that live in one object here, so that the
  // loop body can be a method; `sys` is the protocol state they stand for.
  class Execution {
    const plan: Plan
    const opts: Options
    const records: seq<ChunkRecord>
    const manifest: Manifest
    const outcome: RunOutcome
    const launch: (nat, seq<string>) -> ChunkResult  // the n-th launch, of these files
    const snapshot: nat -> seq<string>               // the n-th dirty snapshot
    var stopped: bool
    var dirtySeen: set<string>
    var launches: nat
    var snapshots: nat
    ghost const start: Sys
    ghost const job: Job
    ghost var inputs: seq<Input>
    ghost var heard: seq<(nat, ChunkResult)>
    ghost var looked: seq<seq<string>>
    ghost var sys: Sys

    constructor (plan: Plan, opts: Options, records: seq<ChunkRecord>, manifest: Manifest,
                 launch: (nat, seq<string>) -> ChunkResult, snapshot: nat -> seq<string>, ghost start: Sys)
      requires Distinct(records) && |records| == |plan.chunks|
      requires start.run == Some(Begin(opts, Vals(records), snapshot(0))) && start.disk == manifest.chunks
      ensures fresh(outcome) && this.plan == plan && this.opts == opts && this.records == records
              && this.manifest == manifest
      ensures this.start == start && this.launch == launch && this.snapshot == snapshot
      ensures job == Job(plan, opts, Vals(records), snapshot(0))
      ensures At(0, AtRecord) && Faithful()
    {
      this.plan, this.opts, this.records, this.manifest := plan, opts, records, manifest;
      this.launch, this.snapshot, this.start := launch, snapshot, start;
      job := Job(plan, opts, Vals(records), snapshot(0));
      stopped, launches, snapshots, inputs, sys := false, 0, 1, [], start;
      dirtySeen, heard, looked := Elements(snapshot(0)), start.finished, [];
      outcome := new RunOutcome(snapshot(0));
    }

    // sys is where the protocol gets from `start` with the inputs so far.
    ghost predicate Traced()
      reads this
    {
      sys == Ticks(plan, start, inputs)
    }

    // The objects stand at record pos and phase of the protocol run.
    ghost predicate At(pos: nat, phase: Phase)
      reads this, records, manifest, outcome
    {
      && Distinct(records)
      && Traced()
      && sys.run.Some?
      && var run := sys.run.value;
      && run.pos == pos <= |records| && run.phase == phase && run.opts == opts
      && run.records == Vals(records)
      && sys.disk == manifest.chunks
      && run.stopped == stopped && run.dirtySeen == dirtySeen && run.newDirty == outcome.newDirty
      && run.interrupted == outcome.interrupted && run.stoppedAt == outcome.stoppedAt
      && run.dirtyBefore == outcome.dirtyBefore == snapshot(0) && outcome.dirtyAfter == []
      && sys.finished == heard && run.snapshots == looked
    }

    // heard and looked are what launch and snapshot have returned.
    ghost predicate Faithful()
      reads this`heard, this`launches, this`looked, this`snapshots
    {
      && job.plan == plan && start.run == Some(Begin(opts, job.first, job.dirty)) && job.opts == opts
      && Launched(job, launch, start.finished, heard) && |heard| == |start.finished| + launches
      && snapshots == |looked| + 1 && AllFromSnapshot(snapshot, looked)
    }

    // on_progress: the manifest on disk now has the records as they are.
    method Touch()
      modifies manifest
      ensures manifest.chunks == Some(Vals(records))
    {
      manifest.chunks := Some(Vals(records));
    }

    // The loop body for one record up to the launch; true when a launch is due.
    method Consider(k: nat) returns (launchDue: bool)
      requires k < |records| && At(k, AtRecord)
      modifies this`inputs, this`sys, records[k], manifest
      ensures launchDue ==> At(k, Launching)
      ensures !launchDue ==> At(k + 1, AtRecord)
    {
      var record := records[k];
      launchDue := false;
      if !Selected(plan, record.index) {
        if record.status == Pending {
          MarkNotSelected(k);
        } else {
          Pass(k);
        }
      } else if opts.resuming && record.status == Completed && ZeroOrNone(record.exitCode) {
        Pass(k);  // resume never repeats a passing chunk
      } else if opts.resuming && record.status == Completed && !ZeroOrNone(record.exitCode) && !opts.rerunFailed {
        Pass(k);
      } else if opts.resuming && record.status == NotSelected {
        Pass(k);
      } else if stopped {
        MarkNotRun(k);
      } else {
        TakeUp(k);
        launchDue := true;
      }
    }

    // continue
    method Pass(k: nat)
      requires k < |records| && At(k, AtRecord)
      requires Decide(plan, opts, records[k].Val(), stopped) == Skip
      modifies this`inputs, this`sys
      ensures At(k + 1, AtRecord)
    {
      Note(Nothing);
    }

    method MarkNotSelected(k: nat)
      requires k < |records| && At(k, AtRecord)
      requires Decide(plan, opts, records[k].Val(), stopped) == Action.MarkNotSelected
      modifies this`inputs, this`sys, records[k], manifest
      ensures At(k + 1, AtRecord)
    {
      ghost var before := Vals(records);
      records[k].status := NotSelected;
      assert Vals(records) == before[k := records[k].Val()];
      Note(Nothing);
      Save(k);
    }

    // A record a stopped run no longer launches; a resumed one still marks it as a rerun.
    method MarkNotRun(k: nat)
      requires k < |records| && At(k, AtRecord)
      requires Decide(plan, opts, records[k].Val(), stopped) == Action.MarkNotRun
      modifies this`inputs, this`sys, records[k], manifest
      ensures At(k + 1, AtRecord)
    {
      ghost var before := Vals(records);
      if opts.resuming && records[k].status == Completed {
        records[k].rerun := true;
      }
      records[k].status := NotRun;
      assert Vals(records) == before[k := records[k].Val()];
      Note(Nothing);
      Save(k);
    }

    method TakeUp(k: nat)
      requires k < |records| && At(k, AtRecord)
      requires Decide(plan, opts, records[k].Val(), stopped) == Launch
      modifies this`inputs, this`sys, records[k]
      ensures At(k, Launching)
    {
      ghost var before := Vals(records);
      if opts.resuming && records[k].status == Completed {
        records[k].rerun := true;
      }
      assert Vals(records) == before[k := records[k].Val()];
      Note(Nothing);
    }

    // touch(record) and moving on.
    method Save(k: nat)
      requires k < |records| && At(k, Unsaved(GoOn))
      modifies this`inputs, this`sys, manifest
      ensures At(k + 1, AtRecord)
    {
      Touch();
      Note(Nothing);
    }

    // result = launch(...) and the four assignments.
    method RunChild(k: nat) returns (result: ChunkResult)
      requires k < |records| && At(k, Launching) && Faithful()
      modifies this`inputs, this`sys, this`launches, this`heard, records[k]
      ensures At(k, Assigned(result)) && Faithful()
    {
      result := RunOne(k);
      AssignExit(k, result);
      AssignRest(k, result);
    }

    method RunOne(k: nat) returns (result: ChunkResult)
      requires k < |records| && At(k, Launching) && Faithful()
      modifies this`inputs, this`sys, this`launches, this`heard
      ensures At(k, Returned(result)) && Faithful()
    {
      var record := records[k];
      result := launch(launches, record.files);
      AtDue(k);
      heard := heard + [(record.index, result)];
      launches := launches + 1;
      Note(Outcome(result));
    }

    // A launch is that of the record due next.
    lemma AtDue(k: nat)
      requires k < |records| && At(k, Launching) && Faithful()
      ensures OfLaunch(job, launch, launches, (records[k].index, launch(launches, records[k].files)))
    {
      OnPlanFromStart(plan, opts, job.dirty, start, inputs);
      assert Due(job, k) && DueBefore(job, k) == launches;
      assert sys.run.value.records[k] == Again(opts, job.first[k]);
    }

    method AssignExit(k: nat, result: ChunkResult)
      requires k < |records| && At(k, Returned(result))
      modifies this`inputs, this`sys, records[k]
      ensures At(k, ExitAssigned(result))
    {
      ghost var before := Vals(records);
      records[k].exitCode := result.exitCode;
      assert Vals(records) == before[k := records[k].Val()];
      Note(Nothing);
    }

    method AssignRest(k: nat, result: ChunkResult)
      requires k < |records| && At(k, ExitAssigned(result))
      modifies this`inputs, this`sys, records[k]
      ensures At(k, Assigned(result))
    {
      ghost var before := Vals(records);
      records[k].duration := Some(result.duration);
      records[k].counts := result.counts;
      records[k].error := result.error;
      assert Vals(records) == before[k := records[k].Val()];
      Note(Nothing);
    }

    ghost method Note(input: Input)
      requires Traced()
      modifies this`inputs, this`sys
      ensures Traced() && sys == Tick(plan, old(sys), input)
    {
      var more, next := inputs + [input], Tick(plan, sys, input);
      assert next == Ticks(plan, start, more) by {
        TicksNext(plan, start, inputs, input);
      }
      inputs, sys := more, next;
    }

    // The dirty snapshot after a chunk, and what is new in it.
    method CompareDirty(k: nat, ghost result: ChunkResult) returns (newlyDirty: seq<string>)
      requires k < |records| && At(k, Assigned(result)) && Faithful()
      modifies this`inputs, this`sys, this`snapshots, this`looked, this`dirtySeen, outcome`newDirty
      ensures At(k, Compared(result, newlyDirty)) && Faithful()
    {
      var paths := Look();
      newlyDirty := AddSeen(paths);
      Note(Snapshot(paths));
    }

    // dirty_seen.update(...) and outcome.new_dirty_paths.extend(...)
    method AddSeen(paths: seq<string>) returns (newlyDirty: seq<string>)
      modifies this`dirtySeen, outcome`newDirty
      ensures newlyDirty == NotSeen(paths, old(dirtySeen)) && dirtySeen == old(dirtySeen) + Elements(newlyDirty)
      ensures outcome.newDirty == old(outcome.newDirty) + newlyDirty
    {
      newlyDirty := NotSeen(paths, dirtySeen);
      dirtySeen := dirtySeen + Elements(newlyDirty);
      if newlyDirty != [] {
        outcome.newDirty := outcome.newDirty + newlyDirty;
      }
      assert newlyDirty == [] ==> outcome.newDirty + [] == outcome.newDirty;
    }

    // dirty_snapshot()
    method Look() returns (paths: seq<string>)
      requires Faithful()
      modifies this`snapshots, this`looked
      ensures Faithful() && looked == old(looked) + [paths]
    {
      paths := snapshot(snapshots);
      snapshots := snapshots + 1;
      looked := looked + [paths];
    }

    // The interrupted branch: status, manifest write, return.
    method ConcludeInterrupted(k: nat, result: ChunkResult, newlyDirty: seq<string>)
      requires k < |records| && At(k, Compared(result, newlyDirty)) && result.signal.Some?
      modifies this`inputs, this`sys, records[k], manifest, outcome`interrupted
      ensures At(k, Over)
    {
      MarkInterrupted(k, result, newlyDirty);
      SaveAndReturn(k);
    }

    method SaveAndReturn(k: nat)
      requires k < |records| && At(k, Unsaved(Return))
      modifies this`inputs, this`sys, manifest
      ensures At(k, Over)
    {
      Touch();
      Note(Nothing);
    }

    method MarkInterrupted(k: nat, result: ChunkResult, ghost newlyDirty: seq<string>)
      requires k < |records| && At(k, Compared(result, newlyDirty)) && result.signal.Some?
      modifies this`inputs, this`sys, records[k], outcome`interrupted
      ensures At(k, Unsaved(Return))
    {
      ghost var before := Vals(records);
      records[k].status := Interrupted;
      records[k].signal := result.signal;
      outcome.interrupted := result.signal;
      assert Vals(records) == before[k := records[k].Val()];
      Note(Nothing);
    }

    method Complete(k: nat, result: ChunkResult, newlyDirty: seq<string>)
      requires k < |records| && At(k, Compared(result, newlyDirty)) && result.signal.None?
      modifies this`inputs, this`sys, records[k]
      ensures At(k, Unsaved(CheckStop(result, newlyDirty)))
    {
      ghost var before := Vals(records);
      records[k].status := Completed;
      assert Vals(records) == before[k := records[k].Val()];
      Note(Nothing);
    }

    // The manifest write and the stop flags after a completed chunk.
    method CheckStops(k: nat, result: ChunkResult, newlyDirty: seq<string>)
      requires k < |records| && At(k, Unsaved(CheckStop(result, newlyDirty)))
      modifies this`inputs, this`sys, this`stopped, manifest, outcome`stoppedAt
      ensures At(k + 1, AtRecord)
    {
      Touch();
      SetStops(k, result, newlyDirty);
      Note(Nothing);
    }

    method SetStops(k: nat, result: ChunkResult, newlyDirty: seq<string>)
      requires k < |records|
      modifies this`stopped, outcome`stoppedAt
      ensures if Stops(opts, result, newlyDirty)
              then stopped && outcome.stoppedAt == Some(records[k].index)
              else stopped == old(stopped) && outcome.stoppedAt == old(outcome.stoppedAt)
    {
      if !ZeroOrNone(result.exitCode) && opts.stopOnFailure {
        outcome.stoppedAt := Some(records[k].index);
        stopped := true;
      } else if opts.failOnNewDirty && newlyDirty != [] {
        outcome.stoppedAt := Some(records[k].index);
        stopped := true;
      }
    }

    // What follows the snapshot; true when the run ends here.
    method Judge(k: nat, result: ChunkResult, newlyDirty: seq<string>) returns (interrupted: bool)
      requires k < |records| && At(k, Compared(result, newlyDirty))
      modifies this`inputs, this`sys, this`stopped, records[k], manifest, outcome
      ensures if interrupted then At(k, Over) else At(k + 1, AtRecord)
    {
      interrupted := result.signal.Some?;
      if interrupted {
        ConcludeInterrupted(k, result, newlyDirty);
      } else {
        Complete(k, result, newlyDirty);
        CheckStops(k, result, newlyDirty);
      }
    }

    // The loop body from the launch on; true when the run ends here.
    method RunRecord(k: nat) returns (interrupted: bool)
      requires k < |records| && At(k, Launching) && Faithful()
      modifies this, records[k], manifest, outcome
      ensures Faithful()
      ensures if interrupted then At(k, Over) else At(k + 1, AtRecord)
    {
      var result := RunChild(k);
      var newlyDirty := CompareDirty(k, result);
      interrupted := Judge(k, result, newlyDirty);
    }

    // What the loop leaves.
    lemma Concludes()
      requires Faithful() && Traced()
      requires sys.run.Some? && sys.finished == heard && sys.run.value.snapshots == looked
      requires sys.run.value.phase == Over
      ensures RunsAsPlanned(job, launch, snapshot, start, sys)
    {
      TicksKeepDirty(plan, start, inputs);
      RunAsPlanned(plan, opts, job.dirty, start, inputs);
      if start.disk == Some(job.first) {
        RunSaves(job, start, inputs);
      }
    }

    // The end of execute_plan: dirty_after, unless the run was interrupted.
    method Conclude()
      requires sys.run.Some? && At(sys.run.value.pos, Over) && Faithful()
      modifies outcome`dirtyAfter
      ensures RunsAsPlanned(job, launch, snapshot, start, sys)
      ensures Reports(records, manifest, outcome, sys)
    {
      Concludes();
      if outcome.interrupted.None? {
        outcome.dirtyAfter := SortPaths(dirtySeen);
      }
    }

    // The loop body; true when the run ends here.
    method RunOnce(k: nat) returns (interrupted: bool)
      requires k < |records| && At(k, AtRecord) && Faithful()
      modifies this, records[k], manifest, outcome
      ensures Faithful()
      ensures if interrupted then At(k, Over) else At(k + 1, AtRecord)
    {
      interrupted := false;
      var launchDue := Consider(k);
      if launchDue {
        interrupted := RunRecord(k);
      }
    }

    // for record in records: ...
    method RunAll()
      requires At(0, AtRecord) && Faithful()
      modifies this, records, manifest, outcome
      ensures sys.run.Some? && At(sys.run.value.pos, Over) && Faithful()
    {
      var k := 0;
      while k < |records|
        invariant k <= |records| && At(k, AtRecord) && Faithful()
      {
        var interrupted := RunOnce(k);
        if interrupted {
          return;
        }
        k := k + 1;
      }
      Note(Nothing);
    }
  }

  // execute_plan does what its plan and options ask for, in the records, the
  // manifest and the outcome. It is the run of the protocol from `start` with
  // the results and snapshots it was given.
  method ExecutePlan(plan: Plan, opts: Options, records: seq<ChunkRecord>, manifest: Manifest,
                     launch: (nat, seq<string>) -> ChunkResult, snapshot: nat -> seq<string>, ghost start: Sys)
    returns (outcome: RunOutcome, ghost inputs: seq<Input>)
    requires Distinct(records) && |records| == |plan.chunks|
    requires start.run == Some(Begin(opts, Vals(records), snapshot(0))) && start.disk == manifest.chunks
    modifies records, manifest
    ensures var end := Ticks(plan, start, inputs);
            && RunsAsPlanned(JobOf(plan, opts, start, snapshot), launch, snapshot, start, end)
            && Reports(records, manifest, outcome, end)
  {
    var execution := new Execution(plan, opts, records, manifest, launch, snapshot, start);
    execution.RunAll();
    execution.Conclude();
    outcome := execution.outcome;
    inputs := execution.inputs;
  }
}
