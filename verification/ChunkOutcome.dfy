// What execute_plan leaves in every record, said outright: which chunks are
// launched, in which order, where the launches stop, and what becomes of the rest.
module ChunkOutcome {
  import opened Wrappers
  import opened Ordering
  import opened ChunkDirty
  import opened ChunkRunner

  // One run: the records it starts from, and what is dirty before it.
  datatype Job = Job(plan: Plan, opts: Options, first: seq<Rec>, dirty: seq<string>)

  predicate Failing(code: Option<int>) {
    code.Some? && code.value != 0
  }

  predicate Chosen(plan: Plan, r: Rec) {
    if plan.selected.Some? && plan.selected.value != [] then r.index in plan.selected.value
    else 1 <= r.index <= |plan.chunks|
  }

  // A resumed run leaves it as it is.
  predicate LeftAlone(opts: Options, r: Rec) {
    opts.resuming && (r.status == NotSelected || (r.status == Completed && (opts.rerunFailed ==> !Failing(r.exitCode))))
  }

  predicate Due(job: Job, j: nat)
    requires j < |job.first|
  {
    Chosen(job.plan, job.first[j]) && !LeftAlone(job.opts, job.first[j])
  }

  // How many records before the j-th are due.
  function DueBefore(job: Job, j: nat): nat
    requires j <= |job.first|
  {
    if j == 0 then 0 else DueBefore(job, j - 1) + if Due(job, j - 1) then 1 else 0
  }

  lemma {:induction false} DueBeforeRises(job: Job, i: nat, j: nat)
    requires i <= j <= |job.first|
    ensures DueBefore(job, i) <= DueBefore(job, j)
    ensures i < j && Due(job, i) ==> DueBefore(job, i) < DueBefore(job, j)
  {
    if i == j {
    } else {
      DueBeforeRises(job, i, j - 1);
    }
  }

  // The snapshot after the n-th launch has a path no earlier one had.
  ghost predicate NewlyDirty(job: Job, snapshots: seq<seq<string>>, n: nat)
    requires n < |snapshots|
  {
    exists p :: p in snapshots[n] && p !in job.dirty && forall m :: 0 <= m < n ==> p !in snapshots[m]
  }

  // Nothing is launched after the n-th launch.
  ghost predicate Last(job: Job, results: seq<ChunkResult>, snapshots: seq<seq<string>>, n: nat)
    requires n < |results| && n < |snapshots|
  {
    || results[n].signal.Some?
    || (job.opts.stopOnFailure && Failing(results[n].exitCode))
    || (job.opts.failOnNewDirty && NewlyDirty(job, snapshots, n))
  }

  // A completed record taken up again, or no longer launched, is a rerun.
  function Again(opts: Options, r: Rec): Rec {
    if opts.resuming && r.status == Completed then r.(rerun := true) else r
  }

  function Concluded(opts: Options, r: Rec, res: ChunkResult): Rec {
    var r' := Again(opts, r).(exitCode := res.exitCode, duration := Some(res.duration), counts := res.counts,
                              error := res.error, status := Completed);
    if res.signal.Some? then r'.(status := Interrupted, signal := res.signal) else r'
  }

  // What becomes of the j-th record; cut: the last launch was interrupted.
  ghost predicate EndsAs(job: Job, results: seq<ChunkResult>, cut: bool, j: nat, r: Rec)
    requires j < |job.first|
  {
    var was, n := job.first[j], DueBefore(job, j);
    if cut && n >= |results| then r == was
    else if !Chosen(job.plan, was) then r == if was.status == Pending then was.(status := NotSelected) else was
    else if LeftAlone(job.opts, was) then r == was
    else if n < |results| then r == Concluded(job.opts, was, results[n])
    else r == Again(job.opts, was).(status := NotRun)
  }

  ghost predicate Cut(results: seq<ChunkResult>) {
    results != [] && results[|results| - 1].signal.Some?
  }

  // The n-th launch is that of the n-th due record. None follows an interrupted
  // one, one that failed under --stop-on-failure, or new dirty paths under
  // --fail-on-new-dirty; without these, every due record is launched.
  ghost predicate AsPlanned(job: Job, results: seq<ChunkResult>, snapshots: seq<seq<string>>, last: seq<Rec>) {
    && |snapshots| == |results| <= DueBefore(job, |job.first|) && |last| == |job.first|
    && (forall n :: 0 <= n < |results| - 1 ==> !Last(job, results, snapshots, n))
    && (|results| < DueBefore(job, |job.first|) ==> results != [] && Last(job, results, snapshots, |results| - 1))
    && (forall j :: 0 <= j < |last| ==> EndsAs(job, results, Cut(results), j, last[j]))
  }

  // interrupted_signum and stopped_on_failure_at.
  ghost predicate Signals(job: Job, results: seq<ChunkResult>, snapshots: seq<seq<string>>, interrupted: Option<nat>,
                          stoppedAt: Option<nat>)
    requires |results| == |snapshots|
  {
    if Cut(results) then interrupted == results[|results| - 1].signal && stoppedAt.None?
    else
      && interrupted.None?
      && if results != [] && Last(job, results, snapshots, |results| - 1) then StoppedAt(job, results, stoppedAt)
         else stoppedAt.None?
  }

  // The launches stopped at the record with this index, the last one launched.
  ghost predicate StoppedAt(job: Job, results: seq<ChunkResult>, index: Option<nat>) {
    exists j :: 0 <= j < |job.first| && Due(job, j) && DueBefore(job, j) == |results| - 1
                && index == Some(job.first[j].index)
  }

  /* --- every step of a run --- */

  function Results(finished: seq<(nat, ChunkResult)>, since: nat): seq<ChunkResult>
    requires since <= |finished|
  {
    seq(|finished| - since, n requires 0 <= n < |finished| - since => finished[since + n].1)
  }

  // The records behind the current one are done, those after it untouched.
  ghost predicate Around(job: Job, results: seq<ChunkResult>, run: RunState) {
    && run.opts == job.opts && |run.records| == |job.first| && run.pos <= |run.records|
    && (forall j :: 0 <= j < run.pos ==> EndsAs(job, results, false, j, run.records[j]))
    && (forall j :: run.pos < j < |run.records| ==> run.records[j] == job.first[j])
    && (!run.stopped ==> run.stoppedAt.None?)
  }

  ghost predicate NoneLast(job: Job, results: seq<ChunkResult>, snapshots: seq<seq<string>>, k: nat) {
    k <= |results| && k <= |snapshots| && forall n :: 0 <= n < k ==> !Last(job, results, snapshots, n)
  }

  // Between two records.
  ghost predicate Between(job: Job, results: seq<ChunkResult>, run: RunState)
    requires run.pos <= |job.first|
  {
    && |run.snapshots| == |results| && run.interrupted.None? && !Cut(results)
    && (if run.stopped
        then results != [] && NoneLast(job, results, run.snapshots, |results| - 1)
             && Last(job, results, run.snapshots, |results| - 1) && |results| <= DueBefore(job, run.pos)
             && StoppedAt(job, results, run.stoppedAt)
        else NoneLast(job, results, run.snapshots, |results|) && |results| == DueBefore(job, run.pos))
  }

  // A launch of the current record; k results were in before it.
  ghost predicate Within(job: Job, results: seq<ChunkResult>, run: RunState, k: nat)
    requires |run.records| == |job.first|
  {
    && run.pos < |job.first| && Due(job, run.pos) && !run.stopped && k == DueBefore(job, run.pos)
    && k <= |run.snapshots| && NoneLast(job, results, run.snapshots, k)
  }

  ghost predicate HasResult(job: Job, results: seq<ChunkResult>, run: RunState, res: ChunkResult)
    requires |run.records| == |job.first|
  {
    results != [] && results[|results| - 1] == res && Within(job, results, run, |results| - 1)
  }

  ghost predicate OnPlan(job: Job, results: seq<ChunkResult>, run: RunState) {
    && Around(job, results, run)
    && run.dirtyBefore == job.dirty && run.dirtySeen == Elements(job.dirty) + Union(run.snapshots)
    && match run.phase
       case AtRecord =>
         && Between(job, results, run)
         && (run.pos < |job.first| ==> run.records[run.pos] == job.first[run.pos])
       case Launching =>
         && Within(job, results, run, |results|) && |run.snapshots| == |results| && run.interrupted.None?
         && run.records[run.pos] == Again(job.opts, job.first[run.pos])
       case Returned(res) =>
         && HasResult(job, results, run, res) && |run.snapshots| == |results| - 1 && run.interrupted.None?
         && run.records[run.pos] == Again(job.opts, job.first[run.pos])
       case ExitAssigned(res) =>
         && HasResult(job, results, run, res) && |run.snapshots| == |results| - 1 && run.interrupted.None?
         && run.records[run.pos] == Again(job.opts, job.first[run.pos]).(exitCode := res.exitCode)
       case Assigned(res) =>
         && HasResult(job, results, run, res) && |run.snapshots| == |results| - 1 && run.interrupted.None?
         && run.records[run.pos].(status := Completed) == Concluded(job.opts, job.first[run.pos], res.(signal := None))
         && run.records[run.pos].status == job.first[run.pos].status
       case Compared(res, newly) =>
         && HasResult(job, results, run, res) && |run.snapshots| == |results| && run.interrupted.None?
         && run.records[run.pos].(status := Completed) == Concluded(job.opts, job.first[run.pos], res.(signal := None))
         && (newly != [] <==> NewlyDirty(job, run.snapshots, |results| - 1))
       case Unsaved(GoOn) =>
         && run.pos < |job.first| && Between(job, results, run) && (Due(job, run.pos) ==> run.stopped)
         && EndsAs(job, results, false, run.pos, run.records[run.pos])
       case Unsaved(CheckStop(res, newly)) =>
         && HasResult(job, results, run, res) && |run.snapshots| == |results|
         && run.interrupted.None? && res.signal.None?
         && run.records[run.pos] == Concluded(job.opts, job.first[run.pos], res)
         && (newly != [] <==> NewlyDirty(job, run.snapshots, |results| - 1))
       case Unsaved(Return) => CutAt(job, results, run)
       case Over => if run.pos == |job.first| then Between(job, results, run) else CutAt(job, results, run)
  }

  ghost predicate CutAt(job: Job, results: seq<ChunkResult>, run: RunState)
    requires |run.records| == |job.first|
  {
    && results != [] && HasResult(job, results, run, results[|results| - 1]) && |run.snapshots| == |results|
    && Cut(results) && run.interrupted == results[|results| - 1].signal
    && run.records[run.pos] == Concluded(job.opts, job.first[run.pos], results[|results| - 1])
  }

  lemma NewlyDirtySame(job: Job, snapshots: seq<seq<string>>, more: seq<seq<string>>, n: nat)
    requires n < |snapshots| && snapshots <= more
    ensures NewlyDirty(job, snapshots, n) <==> NewlyDirty(job, more, n)
  {
    assert more[..|snapshots|] == snapshots;
    assert forall m :: 0 <= m <= n ==> more[m] == snapshots[m];
  }

  // Later results and snapshots do not change what was decided before.
  lemma NoneLastStays(job: Job, results: seq<ChunkResult>, results': seq<ChunkResult>, snapshots: seq<seq<string>>,
                      snapshots': seq<seq<string>>, k: nat)
    requires NoneLast(job, results, snapshots, k) && results <= results' && snapshots <= snapshots'
    ensures NoneLast(job, results', snapshots', k)
  {
    forall n | 0 <= n < k ensures !Last(job, results', snapshots', n) {
      assert !Last(job, results, snapshots, n);
      NewlyDirtySame(job, snapshots, snapshots', n);
    }
  }

  lemma {:induction false} UnionMembers(snapshots: seq<seq<string>>, p: string)
    ensures p in Union(snapshots) <==> exists m :: 0 <= m < |snapshots| && p in snapshots[m]
  {
    if snapshots == [] {
    } else {
      UnionMembers(snapshots[..|snapshots| - 1], p);
    }
  }

  lemma NotSeenFinds(paths: seq<string>, seen: set<string>)
    ensures NotSeen(paths, seen) != [] <==> exists p :: p in paths && p !in seen
  {
    var newly := NotSeen(paths, seen);
    NotSeenMembers(paths, seen);
    if newly != [] {
      assert newly[0] in Elements(newly);
    } else {
      assert forall p <- paths :: p in Elements(paths);
    }
  }

  // The comparison with the paths seen so far finds what no earlier snapshot had.
  lemma NewlyDirtyFound(job: Job, snapshots: seq<seq<string>>, paths: seq<string>)
    ensures NotSeen(paths, Elements(job.dirty) + Union(snapshots)) != []
            <==> NewlyDirty(job, snapshots + [paths], |snapshots|)
  {
    var more := snapshots + [paths];
    NotSeenFinds(paths, Elements(job.dirty) + Union(snapshots));
    forall p | p in paths
      ensures p !in Union(snapshots) <==> forall m :: 0 <= m < |snapshots| ==> p !in more[m]
    {
      UnionMembers(snapshots, p);
      assert forall m :: 0 <= m < |snapshots| ==> more[m] == snapshots[m];
    }
  }

  // The branches of the loop body, by what the record was before the run.
  lemma DecideMeans(job: Job, j: nat, stopped: bool)
    requires j < |job.first|
    ensures var r := job.first[j];
            Decide(job.plan, job.opts, r, stopped)
            == if Due(job, j) then (if stopped then MarkNotRun else Launch)
               else if !Chosen(job.plan, r) && r.status == Pending then MarkNotSelected
               else Skip
  {
  }

  lemma DecideOnPlan(job: Job, results: seq<ChunkResult>, sys: Sys)
    requires sys.run.Some? && OnPlan(job, results, sys.run.value)
    requires sys.run.value.phase == AtRecord && sys.run.value.pos < |job.first|
    ensures var after := Tick(job.plan, sys, Nothing);
            after.run.Some? && after.finished == sys.finished && OnPlan(job, results, after.run.value)
  {
    var run := sys.run.value;
    DecideMeans(job, run.pos, run.stopped);
    DueBeforeRises(job, run.pos, run.pos + 1);
  }

  lemma ReturnOnPlan(job: Job, since: nat, sys: Sys, res: ChunkResult)
    requires since <= |sys.finished| && sys.run.Some? && OnPlan(job, Results(sys.finished, since), sys.run.value)
    requires sys.run.value.phase == Launching && sys.run.value.pos < |job.first|
    ensures var after := Tick(job.plan, sys, Outcome(res));
            && since <= |after.finished| && after.run.Some?
            && OnPlan(job, Results(after.finished, since), after.run.value)
  {
    var run, results := sys.run.value, Results(sys.finished, since);
    var more := results + [res];
    forall j | 0 <= j < run.pos ensures EndsAs(job, more, false, j, run.records[j]) {
      DueBeforeRises(job, j, run.pos);
      assert EndsAs(job, results, false, j, run.records[j]);
    }
    NoneLastStays(job, results, more, run.snapshots, run.snapshots, |results|);
    assert Results(Tick(job.plan, sys, Outcome(res)).finished, since) == more;
  }

  // The assignments, the status and the manifest writes before an early return.
  lemma RecordOnPlan(job: Job, results: seq<ChunkResult>, sys: Sys)
    requires sys.run.Some? && OnPlan(job, results, sys.run.value) && sys.run.value.pos < |job.first|
    requires var phase := sys.run.value.phase;
             || phase.Returned? || phase.ExitAssigned? || phase.Compared?
             || phase == Unsaved(GoOn) || phase == Unsaved(Return)
    ensures var after := Tick(job.plan, sys, Nothing);
            after.run.Some? && after.finished == sys.finished && OnPlan(job, results, after.run.value)
  {
    DueBeforeRises(job, sys.run.value.pos, sys.run.value.pos + 1);
  }

  lemma SnapshotOnPlan(job: Job, results: seq<ChunkResult>, sys: Sys, paths: seq<string>)
    requires sys.run.Some? && OnPlan(job, results, sys.run.value) && sys.run.value.pos < |job.first|
    requires sys.run.value.phase.Assigned?
    ensures var after := Tick(job.plan, sys, Snapshot(paths));
            after.run.Some? && after.finished == sys.finished && OnPlan(job, results, after.run.value)
  {
    var run := sys.run.value;
    var more := run.snapshots + [paths];
    NoneLastStays(job, results, results, run.snapshots, more, |results| - 1);
    NewlyDirtyFound(job, run.snapshots, paths);
    NotSeenMembers(paths, run.dirtySeen);
    UnionNext(run.snapshots, paths);
  }

  lemma StopOnPlan(job: Job, results: seq<ChunkResult>, sys: Sys)
    requires sys.run.Some? && OnPlan(job, results, sys.run.value) && sys.run.value.pos < |job.first|
    requires sys.run.value.phase.Unsaved? && sys.run.value.phase.next.CheckStop?
    ensures var after := Tick(job.plan, sys, Nothing);
            after.run.Some? && after.finished == sys.finished && OnPlan(job, results, after.run.value)
  {
    var run := sys.run.value;
    DueBeforeRises(job, run.pos, run.pos + 1);
  }

  lemma NothingOnPlan(job: Job, results: seq<ChunkResult>, sys: Sys)
    requires sys.run.Some? && OnPlan(job, results, sys.run.value)
    ensures var after := Tick(job.plan, sys, Nothing);
            after.run.Some? && after.finished == sys.finished && OnPlan(job, results, after.run.value)
  {
    var run := sys.run.value;
    if run.pos < |job.first| {
      match run.phase
      case AtRecord => DecideOnPlan(job, results, sys);
      case Unsaved(CheckStop(_, _)) => StopOnPlan(job, results, sys);
      case Launching =>
      case Assigned(_) =>
      case Over =>
      case _ => RecordOnPlan(job, results, sys);
    }
  }

  lemma TickOnPlan(job: Job, since: nat, sys: Sys, input: Input)
    requires since <= |sys.finished| && sys.run.Some? && OnPlan(job, Results(sys.finished, since), sys.run.value)
    ensures var after := Tick(job.plan, sys, input);
            && since <= |after.finished| && after.run.Some?
            && OnPlan(job, Results(after.finished, since), after.run.value)
  {
    var run, results := sys.run.value, Results(sys.finished, since);
    if input.Nothing? {
      NothingOnPlan(job, results, sys);
    } else if run.pos < |job.first| && run.phase == Launching && input.Outcome? {
      ReturnOnPlan(job, since, sys, input.res);
    } else if run.pos < |job.first| && run.phase.Assigned? && input.Snapshot? {
      SnapshotOnPlan(job, results, sys, input.paths);
    }
  }

  lemma {:induction false} TicksOnPlan(job: Job, since: nat, sys: Sys, inputs: seq<Input>)
    requires since <= |sys.finished| && sys.run.Some? && OnPlan(job, Results(sys.finished, since), sys.run.value)
    ensures var after := Ticks(job.plan, sys, inputs);
            && since <= |after.finished| && after.run.Some?
            && OnPlan(job, Results(after.finished, since), after.run.value)
  {
    if inputs == [] {
    } else {
      var most := inputs[..|inputs| - 1];
      TicksOnPlan(job, since, sys, most);
      TickOnPlan(job, since, Ticks(job.plan, sys, most), inputs[|inputs| - 1]);
    }
  }

  lemma OverAsPlanned(job: Job, results: seq<ChunkResult>, run: RunState)
    requires OnPlan(job, results, run) && run.phase == Over
    ensures AsPlanned(job, results, run.snapshots, run.records)
  {
    if run.pos < |job.first| {
      var k := |results| - 1;
      DueBeforeRises(job, run.pos, run.pos + 1);
      DueBeforeRises(job, run.pos + 1, |job.first|);
      forall j | 0 <= j < |job.first| ensures EndsAs(job, results, true, j, run.records[j]) {
        if j < run.pos {
          DueBeforeRises(job, j, run.pos);
          assert EndsAs(job, results, false, j, run.records[j]);
        } else if j > run.pos {
          DueBeforeRises(job, run.pos + 1, j);
        }
      }
    }
  }

  lemma OnPlanFromStart(plan: Plan, opts: Options, dirty: seq<string>, sys: Sys, inputs: seq<Input>)
    requires sys.run.Some? && sys.run == Some(Begin(opts, sys.run.value.records, dirty))
    ensures var job, after := Job(plan, opts, sys.run.value.records, dirty), Ticks(plan, sys, inputs);
            && |sys.finished| <= |after.finished| && after.run.Some?
            && OnPlan(job, Results(after.finished, |sys.finished|), after.run.value)
  {
    assert Results(sys.finished, |sys.finished|) == [];
    TicksOnPlan(Job(plan, opts, sys.run.value.records, dirty), |sys.finished|, sys, inputs);
  }

  // A run of the protocol that has returned has done what its options asked for.
  lemma RunAsPlanned(plan: Plan, opts: Options, dirty: seq<string>, sys: Sys, inputs: seq<Input>)
    requires sys.run.Some? && sys.run == Some(Begin(opts, sys.run.value.records, dirty))
    requires var end := Ticks(plan, sys, inputs).run; end.Some? && end.value.phase == Over
    ensures var job, end := Job(plan, opts, sys.run.value.records, dirty), Ticks(plan, sys, inputs);
            var run := end.run.value;
            && |sys.finished| <= |end.finished|
            && var results := Results(end.finished, |sys.finished|);
            && AsPlanned(job, results, run.snapshots, run.records)
            && Signals(job, results, run.snapshots, run.interrupted, run.stoppedAt)
  {
    var job, end := Job(plan, opts, sys.run.value.records, dirty), Ticks(plan, sys, inputs);
    OnPlanFromStart(plan, opts, dirty, sys, inputs);
    OverAsPlanned(job, Results(end.finished, |sys.finished|), end.run.value);
  }

  // The manifest on disk is the records, but for the one being worked on.
  ghost predicate Saved(job: Job, sys: Sys) {
    && sys.run.Some? && |sys.run.value.records| == |job.first|
    && var run := sys.run.value;
    if run.phase == AtRecord || run.phase == Over then sys.disk == Some(run.records)
    else run.pos < |job.first| && sys.disk == Some(run.records[run.pos := job.first[run.pos]])
  }

  lemma TickSaves(job: Job, results: seq<ChunkResult>, sys: Sys, input: Input)
    requires Saved(job, sys) && OnPlan(job, results, sys.run.value)
    ensures Saved(job, Tick(job.plan, sys, input))
  {
    var run, after := sys.run.value, Tick(job.plan, sys, input).run.value;
    if run.pos < |job.first| {
      assert after.records[run.pos := job.first[run.pos]] == run.records[run.pos := job.first[run.pos]];
      assert run.phase == AtRecord ==> run.records == run.records[run.pos := job.first[run.pos]];
    }
  }

  lemma {:induction false} RunSaves(job: Job, sys: Sys, inputs: seq<Input>)
    requires sys.run == Some(Begin(job.opts, job.first, job.dirty)) && sys.disk == Some(job.first)
    ensures Saved(job, Ticks(job.plan, sys, inputs))
  {
    if inputs == [] {
    } else {
      var most := inputs[..|inputs| - 1];
      RunSaves(job, sys, most);
      OnPlanFromStart(job.plan, job.opts, job.dirty, sys, most);
      var before := Ticks(job.plan, sys, most);
      TickSaves(job, Results(before.finished, |sys.finished|), before, inputs[|inputs| - 1]);
    }
  }

  /* --- the stop --- */

  // What follows from AsPlanned for a reader of the options.
  lemma StopMeans(job: Job, results: seq<ChunkResult>, snapshots: seq<seq<string>>, last: seq<Rec>, j: nat)
    requires AsPlanned(job, results, snapshots, last) && j < |last| && Due(job, j) && !Cut(results)
    ensures last[j].status == NotRun <==> |results| <= DueBefore(job, j)
    ensures last[j].status == NotRun ==>
              && results != []
              && var n := |results| - 1;
              || (job.opts.stopOnFailure && Failing(results[n].exitCode))
              || (job.opts.failOnNewDirty && NewlyDirty(job, snapshots, n))
  {
    DueBeforeRises(job, j, |last|);
    assert EndsAs(job, results, false, j, last[j]);
  }

  // No launch follows a failure, new dirty paths or an interruption.
  lemma NoLaunchAfter(job: Job, results: seq<ChunkResult>, snapshots: seq<seq<string>>, last: seq<Rec>, n: nat)
    requires AsPlanned(job, results, snapshots, last) && n < |results|
    ensures job.opts.stopOnFailure && Failing(results[n].exitCode) ==> n == |results| - 1
    ensures job.opts.failOnNewDirty && NewlyDirty(job, snapshots, n) ==> n == |results| - 1
    ensures results[n].signal.Some? ==> n == |results| - 1
  {
    assert n < |results| - 1 ==> !Last(job, results, snapshots, n);
  }
}
