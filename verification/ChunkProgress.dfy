// One undisturbed run whose launches all succeed finishes the plan.
module ChunkProgress {
  import opened Wrappers
  import opened Ordering
  import opened ChunkRunner
  import opened ChunkCampaign

  // A failed chunk that the run leaves as it is.
  predicate Kept(opts: Options, r: Rec) {
    opts.resuming && !opts.rerunFailed && r.status == Completed && !ZeroOrNone(r.exitCode)
  }

  predicate Succeeded(res: ChunkResult) {
    ZeroOrNone(res.exitCode) && res.signal.None?
  }

  // first: the records the run started from.
  predicate Done(opts: Options, first: Rec, r: Rec) {
    if Kept(opts, first) then r == first else Passed(r)
  }

  // Every selected chunk the run went over is done.
  ghost predicate OnCourse(plan: Plan, run: RunState, first: seq<Rec>) {
    && !run.opts.failOnNewDirty && run.interrupted.None? && run.stoppedAt.None? && !run.stopped
    && |first| == |run.records| && run.pos <= |run.records|
    && (forall i :: 0 <= i < run.pos && Selected(plan, i + 1) ==> Done(run.opts, first[i], run.records[i]))
    && (forall i :: run.pos < i < |run.records| ==> run.records[i] == first[i])
    && (run.pos < |run.records| ==> PhaseOnCourse(plan, run, first))
    && (run.phase == Over ==> run.pos == |run.records|)
  }

  ghost predicate PhaseOnCourse(plan: Plan, run: RunState, first: seq<Rec>)
    requires run.pos < |run.records| == |first|
  {
    match run.phase
    case AtRecord => run.records[run.pos] == first[run.pos]
    case Launching => !Kept(run.opts, first[run.pos])
    case Returned(res) => !Kept(run.opts, first[run.pos]) && Succeeded(res)
    case ExitAssigned(res) => !Kept(run.opts, first[run.pos]) && Succeeded(res)
    case Assigned(res) => !Kept(run.opts, first[run.pos]) && Succeeded(res)
    case Compared(res, _) => !Kept(run.opts, first[run.pos]) && Succeeded(res)
    case Unsaved(GoOn) => !Selected(plan, run.pos + 1)
    case Unsaved(CheckStop(res, _)) =>
      !Kept(run.opts, first[run.pos]) && Succeeded(res) && Passed(run.records[run.pos])
    case Unsaved(Return) => false
    case Over => false
  }

  ghost predicate AllSucceeded(finished: seq<(nat, ChunkResult)>, since: nat) {
    forall n :: since <= n < |finished| ==> Succeeded(finished[n].1)
  }

  lemma FinishedGrows(plan: Plan, sys: Sys, input: Input)
    ensures sys.finished <= Tick(plan, sys, input).finished
  {
  }

  lemma DecideOnCourse(plan: Plan, sys: Sys, first: seq<Rec>)
    requires SysOk(plan, sys) && sys.run.Some? && OnCourse(plan, sys.run.value, first)
    requires sys.run.value.phase == AtRecord && sys.run.value.pos < |sys.run.value.records|
    ensures var after := Tick(plan, sys, Nothing); after.run.Some? && OnCourse(plan, after.run.value, first)
  {
    var run := sys.run.value;
    assert RecordOk(plan, run.records[run.pos], run.pos);
  }

  lemma TickOnCourse(plan: Plan, sys: Sys, input: Input, first: seq<Rec>)
    requires SysOk(plan, sys) && sys.run.Some? && OnCourse(plan, sys.run.value, first)
    requires AllSucceeded(Tick(plan, sys, input).finished, |sys.finished|)
    ensures var after := Tick(plan, sys, input); after.run.Some? && OnCourse(plan, after.run.value, first)
  {
    var run := sys.run.value;
    if run.pos < |run.records| {
      if run.phase == AtRecord && input == Nothing {
        DecideOnCourse(plan, sys, first);
      } else if run.phase == Launching && input.Outcome? {
        assert Tick(plan, sys, input).finished[|sys.finished|].1 == input.res;
      }
    }
  }

  lemma {:induction false} TicksOnCourse(plan: Plan, sys: Sys, inputs: seq<Input>, first: seq<Rec>)
    requires SysOk(plan, sys) && sys.run.Some? && OnCourse(plan, sys.run.value, first)
    requires AllSucceeded(Ticks(plan, sys, inputs).finished, |sys.finished|)
    ensures sys.finished <= Ticks(plan, sys, inputs).finished
    ensures var end := Ticks(plan, sys, inputs);
            SysOk(plan, end) && end.run.Some? && OnCourse(plan, end.run.value, first)
    ensures Ticks(plan, sys, inputs).run.value.opts == sys.run.value.opts
  {
    if inputs == [] {
    } else {
      var before := Ticks(plan, sys, inputs[..|inputs| - 1]);
      var end := Ticks(plan, sys, inputs);
      FinishedGrows(plan, before, inputs[|inputs| - 1]);
      forall n | |sys.finished| <= n < |before.finished| ensures Succeeded(before.finished[n].1) {
        assert before.finished[n] == end.finished[n];
      }
      TicksOnCourse(plan, sys, inputs[..|inputs| - 1], first);
      TickKeeps(plan, before, inputs[|inputs| - 1]);
      TickOnCourse(plan, before, inputs[|inputs| - 1], first);
      TickKeepsOptions(plan, before, inputs[|inputs| - 1]);
    }
  }

  lemma TickKeepsOptions(plan: Plan, sys: Sys, input: Input)
    requires sys.run.Some?
    ensures Tick(plan, sys, input).run.Some? && Tick(plan, sys, input).run.value.opts == sys.run.value.opts
  {
  }

  ghost predicate SomeKept(plan: Plan, opts: Options, records: seq<Rec>) {
    exists i :: 0 <= i < |records| && Selected(plan, i + 1) && Kept(opts, records[i])
  }

  // A run without --fail-on-new-dirty, fresh or resumed, that no signal ends
  // and whose launches all succeed, ends with exit code 0 exactly when it kept
  // no failed chunk; then every selected chunk has passed and nothing is left to do.
  lemma SuccessfulRunFinishes(plan: Plan, sys: Sys, opts: Options, dirty: seq<string>, inputs: seq<Input>)
    requires SysOk(plan, sys) && !opts.failOnNewDirty
    requires sys.run.Some? && sys.run.value == Begin(opts, sys.run.value.records, dirty)
    requires var end := Ticks(plan, sys, inputs);
             end.run.Some? && end.run.value.phase == Over && AllSucceeded(end.finished, |sys.finished|)
    ensures var end := Ticks(plan, sys, inputs);
            && (FinalExitCode(end.run.value) == 0 <==> !SomeKept(plan, opts, sys.run.value.records))
            && (FinalExitCode(end.run.value) == 0 ==>
                  AllSelectedPassed(plan, end.run.value.records) && Remaining(plan, Step(plan, end, Finish)) == {})
  {
    var first := sys.run.value.records;
    TicksOnCourse(plan, sys, inputs, first);
    var end := Ticks(plan, sys, inputs);
    ExitZero(plan, end, end.run.value);
    if !SomeKept(plan, opts, first) {
      forall i | 0 <= i < |first| && Selected(plan, i + 1) ensures Passed(end.run.value.records[i]) {
        assert Done(opts, first[i], end.run.value.records[i]);
      }
    } else {
      var i :| 0 <= i < |first| && Selected(plan, i + 1) && Kept(opts, first[i]);
      assert Done(opts, first[i], end.run.value.records[i]);
    }
  }

  /* --- and it does end --- */

  function Rank(phase: Phase): nat {
    match phase
    case AtRecord => 7
    case Launching => 6
    case Returned(_) => 5
    case ExitAssigned(_) => 4
    case Assigned(_) => 3
    case Compared(_, _) => 2
    case Unsaved(_) => 1
    case Over => 0
  }

  // What the next step needs, from launches that return `res`.
  function Needed(phase: Phase, res: ChunkResult): Input {
    match phase
    case Launching => Outcome(res)
    case Assigned(_) => Snapshot([])
    case _ => Nothing
  }

  ghost predicate Moves(run: RunState, run': RunState) {
    && |run'.records| == |run.records| && run'.pos <= |run'.records|
    && (run'.pos > run.pos || (run'.pos == run.pos && Rank(run'.phase) < Rank(run.phase)))
  }

  lemma TickMoves(plan: Plan, sys: Sys, res: ChunkResult)
    requires SysOk(plan, sys) && sys.run.Some? && sys.run.value.phase != Over
    ensures var after := Tick(plan, sys, Needed(sys.run.value.phase, res));
            && after.run.Some? && Moves(sys.run.value, after.run.value)
            && forall n :: |sys.finished| <= n < |after.finished| ==> after.finished[n].1 == res
  {
  }

  lemma {:induction false} TicksFirst(plan: Plan, sys: Sys, input: Input, inputs: seq<Input>)
    ensures Ticks(plan, sys, [input] + inputs) == Ticks(plan, Tick(plan, sys, input), inputs)
  {
    if inputs == [] {
      TicksNext(plan, sys, [], input);
      assert [input] + inputs == [] + [input];
    } else {
      var init, last := inputs[..|inputs| - 1], inputs[|inputs| - 1];
      TicksFirst(plan, sys, input, init);
      TicksNext(plan, sys, [input] + init, last);
      TicksNext(plan, Tick(plan, sys, input), init, last);
      assert inputs == init + [last] && [input] + inputs == [input] + init + [last];
    }
  }

  lemma {:induction false} RunEnds(plan: Plan, sys: Sys, res: ChunkResult) returns (inputs: seq<Input>)
    requires SysOk(plan, sys) && sys.run.Some? && Succeeded(res)
    ensures var end := Ticks(plan, sys, inputs);
            && end.run.Some? && end.run.value.phase == Over && sys.finished <= end.finished
            && AllSucceeded(end.finished, |sys.finished|)
    decreases |sys.run.value.records| - sys.run.value.pos, Rank(sys.run.value.phase)
  {
    if sys.run.value.phase == Over {
      inputs := [];
    } else {
      var input := Needed(sys.run.value.phase, res);
      var next := Tick(plan, sys, input);
      TickKeeps(plan, sys, input);
      TickMoves(plan, sys, res);
      FinishedGrows(plan, sys, input);
      var rest := RunEnds(plan, next, res);
      inputs := [input] + rest;
      TicksFirst(plan, sys, input, rest);
      var end := Ticks(plan, sys, inputs);
      forall n | |sys.finished| <= n < |end.finished| ensures Succeeded(end.finished[n].1) {
        assert n < |next.finished| ==> end.finished[n] == next.finished[n];
      }
    }
  }

  // From any state a campaign can be in between two runs, one more run that
  // takes failed chunks up again can finish the plan.
  lemma OneMoreRunFinishes(plan: Plan, events: seq<Event>, opts: Options) returns (more: seq<Event>)
    requires Campaign(plan, events).run.None? && Campaign(plan, events).disk.Some?
    requires opts.resuming && opts.rerunFailed && !opts.failOnNewDirty
    ensures events <= more && Remaining(plan, Campaign(plan, more)) == {}
  {
    CampaignOk(plan, events);
    CampaignNext(plan, events, Resume(opts, []));
    var begun := events + [Resume(opts, [])];
    CampaignOk(plan, begun);
    var sys := Campaign(plan, begun);
    var inputs := RunEnds(plan, sys, ChunkResult(Some(0), 0.0, None, None, None));
    SuccessfulRunFinishes(plan, sys, opts, [], inputs);
    TicksAreEvents(plan, begun, inputs);
    CampaignNext(plan, begun + Dos(inputs), Finish);
    more := begun + Dos(inputs) + [Finish];
  }
}
