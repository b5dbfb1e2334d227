// A pass recorded from an interrupted launch: when it happens, exactly.
module ChunkTears {
  import opened Wrappers
  import opened Ordering
  import opened ChunkRunner
  import opened ChunkCampaign

  // As Backed, by a launch no signal cut short.
  ghost predicate CleanlyBacked(finished: seq<(nat, ChunkResult)>, index: nat) {
    exists f :: f in finished && f.0 == index && ZeroOrNone(f.1.exitCode) && f.1.signal.None?
  }

  // The manifest has a pass that no uninterrupted launch backs.
  ghost predicate Unclean(sys: Sys, i: nat) {
    OnDisk(sys, i) && !CleanlyBacked(sys.finished, i + 1)
  }

  // Such a pass is in memory only, and execute_plan has already ended.
  ghost predicate Pending(sys: Sys, i: nat) {
    && sys.run.Some? && sys.run.value.phase == Over && i < |sys.run.value.records| && Passed(sys.run.value.records[i])
    && !OnDisk(sys, i) && !CleanlyBacked(sys.finished, i + 1)
  }

  // A failed chunk is being rerun, its launch was interrupted yet returned 0,
  // and the record has the new exit code but still the old status.
  ghost predicate Torn(run: RunState) {
    && run.pos < |run.records|
    && run.records[run.pos].status == Completed
    && (run.phase.ExitAssigned? || run.phase.Assigned? || run.phase.Compared?)
    && run.phase.res.signal.Some? && ZeroOrNone(run.phase.res.exitCode)
  }

  // A signal hits the torn record of a chunk that never passed cleanly.
  ghost predicate Tears(sys: Sys, e: Event, i: nat) {
    && e.Signal? && sys.run.Some? && sys.run.value.pos == i && Torn(sys.run.value)
    && !CleanlyBacked(sys.finished, i + 1)
  }

  /* --- one step --- */

  // Every pass in memory is clean, or on disk, or torn, or the run is over.
  ghost predicate Explained(sys: Sys) {
    sys.run.Some? ==>
      forall i :: 0 <= i < |sys.run.value.records| && Passed(sys.run.value.records[i]) ==>
          ExplainedAt(sys, sys.run.value, i)
  }

  ghost predicate ExplainedAt(sys: Sys, run: RunState, i: nat) {
    CleanlyBacked(sys.finished, i + 1) || OnDisk(sys, i) || (i == run.pos && Torn(run)) || run.phase == Over
  }

  // A step that rewrites the current record only.
  lemma RewriteExplained(sys: Sys, after: Sys)
    requires Explained(sys) && sys.run.Some? && after.run.Some?
    requires after.finished == sys.finished && after.disk == sys.disk
    requires var run, run' := sys.run.value, after.run.value;
             && run.pos < |run.records| == |run'.records| && run'.pos == run.pos && run.phase != Over
             && (forall i :: 0 <= i < |run.records| && i != run.pos ==> run'.records[i] == run.records[i])
             && (Passed(run'.records[run.pos]) ==> ExplainedAt(after, run', run.pos))
    ensures Explained(after)
  {
    var run, run' := sys.run.value, after.run.value;
    forall i | 0 <= i < |run'.records| && Passed(run'.records[i]) ensures ExplainedAt(after, run', i) {
      assert i != run.pos ==> Passed(run.records[i]) && ExplainedAt(sys, run, i);
    }
  }

  ghost predicate Within(sys: Sys) {
    sys.run.Some? && sys.run.value.pos < |sys.run.value.records|
  }

  lemma AtRecordExplained(plan: Plan, sys: Sys)
    requires SysOk(plan, sys) && Explained(sys) && Within(sys) && sys.run.value.phase == AtRecord
    ensures Explained(Tick(plan, sys, Nothing))
  {
    var run, after := sys.run.value, Tick(plan, sys, Nothing);
    if Decide(plan, run.opts, run.records[run.pos], run.stopped) == Skip {
      forall i | 0 <= i < |run.records| && Passed(run.records[i]) ensures ExplainedAt(after, after.run.value, i) {
        assert ExplainedAt(sys, run, i);
      }
    } else {
      RewriteExplained(sys, after);
    }
  }

  lemma ReturnExplained(plan: Plan, sys: Sys, res: ChunkResult)
    requires SysOk(plan, sys) && Explained(sys) && Within(sys) && sys.run.value.phase == Launching
    ensures Explained(Tick(plan, sys, Outcome(res)))
  {
    var run, after := sys.run.value, Tick(plan, sys, Outcome(res));
    forall i | 0 <= i < |run.records| && Passed(run.records[i]) ensures ExplainedAt(after, after.run.value, i) {
      assert ExplainedAt(sys, run, i);
      MoreClean(sys.finished, (run.records[run.pos].index, res), i + 1);
    }
  }

  lemma MoreClean(finished: seq<(nat, ChunkResult)>, f: (nat, ChunkResult), index: nat)
    ensures CleanlyBacked(finished, index) ==> CleanlyBacked(finished + [f], index)
    ensures f.0 != index && CleanlyBacked(finished + [f], index) ==> CleanlyBacked(finished, index)
  {
    assert forall g :: g in finished ==> g in finished + [f];
  }

  predicate HoldsResult(phase: Phase) {
    phase.Returned? || phase.ExitAssigned? || phase.Assigned? || phase.Compared?
  }

  // Between the launch and the new status.
  lemma HeldExplained(plan: Plan, sys: Sys, input: Input)
    requires SysOk(plan, sys) && Explained(sys) && Within(sys) && HoldsResult(sys.run.value.phase)
    requires (input.Snapshot? && sys.run.value.phase.Assigned?) || (input == Nothing && !sys.run.value.phase.Assigned?)
    ensures Explained(Tick(plan, sys, input))
  {
    var run := sys.run.value;
    assert PhaseOk(plan, sys, run) && RecordOk(plan, run.records[run.pos], run.pos);
    var res := run.phase.res;
    assert (run.pos + 1, res) in sys.finished;
    assert ZeroOrNone(res.exitCode) && res.signal.None? ==> CleanlyBacked(sys.finished, run.pos + 1);
    RewriteExplained(sys, Tick(plan, sys, input));
  }

  // Once written, every pass in memory is on disk.
  lemma SaveExplained(plan: Plan, sys: Sys)
    requires SysOk(plan, sys) && Within(sys) && sys.run.value.phase.Unsaved?
    ensures Explained(Tick(plan, sys, Nothing))
  {
    var run, after := sys.run.value, Tick(plan, sys, Nothing);
    assert after.disk == Some(run.records) && after.run.value.records == run.records;
    forall i | 0 <= i < |run.records| && Passed(run.records[i]) ensures ExplainedAt(after, after.run.value, i) {
      assert OnDisk(after, i);
    }
  }

  lemma TickExplained(plan: Plan, sys: Sys, input: Input)
    requires SysOk(plan, sys) && Explained(sys)
    ensures Explained(Tick(plan, sys, input))
  {
    if Within(sys) {
      match (sys.run.value.phase, input) {
        case (AtRecord, Nothing) => AtRecordExplained(plan, sys);
        case (Launching, Outcome(res)) => ReturnExplained(plan, sys, res);
        case (Returned(_), Nothing) => HeldExplained(plan, sys, input);
        case (ExitAssigned(_), Nothing) => HeldExplained(plan, sys, input);
        case (Assigned(_), Snapshot(_)) => HeldExplained(plan, sys, input);
        case (Compared(_, _), Nothing) => HeldExplained(plan, sys, input);
        case (Unsaved(_), Nothing) => SaveExplained(plan, sys);
        case _ =>
      }
    } else if sys.run.Some? {
      assert Tick(plan, sys, input).run.Some? && Tick(plan, sys, input).disk == sys.disk;
      AtEndExplained(plan, sys, input);
    }
  }

  lemma AtEndExplained(plan: Plan, sys: Sys, input: Input)
    requires SysOk(plan, sys) && Explained(sys) && sys.run.Some? && !Within(sys)
    ensures Explained(Tick(plan, sys, input))
  {
  }

  lemma StepExplained(plan: Plan, sys: Sys, e: Event)
    requires SysOk(plan, sys) && Explained(sys)
    ensures Explained(Step(plan, sys, e))
  {
    match e {
      case Do(input) => TickExplained(plan, sys, input);
      case StartFresh(_, _) => BeginExplained(plan, sys, e);
      case Resume(_, _) => BeginExplained(plan, sys, e);
      case _ =>
    }
  }

  lemma BeginExplained(plan: Plan, sys: Sys, e: Event)
    requires SysOk(plan, sys) && Explained(sys) && (e.StartFresh? || e.Resume?)
    ensures Explained(Step(plan, sys, e))
  {
    var after := Step(plan, sys, e);
    if sys.run.None? && after.run.Some? {
      forall i | 0 <= i < |after.run.value.records| && Passed(after.run.value.records[i])
        ensures ExplainedAt(after, after.run.value, i)
      {
        assert OnDisk(after, i);
      }
    }
  }

  // execute_plan makes no pass on disk unclean, and none clean again.
  lemma TickUnclean(plan: Plan, sys: Sys, input: Input, i: nat)
    requires SysOk(plan, sys) && Explained(sys)
    ensures Unclean(Tick(plan, sys, input), i) <==> Unclean(sys, i)
  {
    var after := Tick(plan, sys, input);
    if Within(sys) && sys.run.value.phase == Launching && input.Outcome? {
      MoreClean(sys.finished, (sys.run.value.records[sys.run.value.pos].index, input.res), i + 1);
      assert RecordOk(plan, sys.run.value.records[sys.run.value.pos], sys.run.value.pos);
    }
    if OnDisk(sys, i) {
      TickSparesPassed(plan, sys, input, i);
    } else if OnDisk(after, i) {
      SavedClean(plan, sys, i);
    }
  }

  // A pass that a save puts on disk is clean.
  lemma SavedClean(plan: Plan, sys: Sys, i: nat)
    requires SysOk(plan, sys) && Explained(sys) && Within(sys) && sys.run.value.phase.Unsaved?
    requires !OnDisk(sys, i) && OnDisk(Tick(plan, sys, Nothing), i)
    ensures CleanlyBacked(sys.finished, i + 1)
  {
    var run := sys.run.value;
    assert Passed(run.records[i]) && ExplainedAt(sys, run, i);
  }

  lemma TickPending(plan: Plan, sys: Sys, input: Input, i: nat)
    requires SysOk(plan, sys) && Explained(sys)
    ensures Pending(Tick(plan, sys, input), i) <==> Pending(sys, i)
  {
    var after := Tick(plan, sys, input);
    if sys.run.Some? && sys.run.value.phase == Over {
      assert after == sys;
    } else if Within(sys) {
      assert after.run.Some? && after.run.value.phase == Over ==> after.disk == Some(after.run.value.records);
    } else if sys.run.Some? && i < |sys.run.value.records| && Passed(sys.run.value.records[i]) {
      assert ExplainedAt(sys, sys.run.value, i);
    }
  }

  // What one event does to the unclean passes, on disk and in memory.
  lemma StepUnclean(plan: Plan, sys: Sys, e: Event, i: nat)
    requires SysOk(plan, sys) && Explained(sys)
    ensures Unclean(Step(plan, sys, e), i) <==> Unclean(sys, i) || (e.Finish? && Pending(sys, i))
    ensures Pending(Step(plan, sys, e), i) <==> !e.Kill? && !e.Finish? && (Pending(sys, i) || Tears(sys, e, i))
  {
    match e {
      case Do(input) =>
        TickUnclean(plan, sys, input, i);
        TickPending(plan, sys, input, i);
      case Signal(_) => SignalPends(plan, sys, e, i);
      case Finish => FinishSaves(plan, sys, i);
      case _ =>
    }
  }

  lemma SignalPends(plan: Plan, sys: Sys, e: Event, i: nat)
    requires SysOk(plan, sys) && Explained(sys) && e.Signal?
    ensures Pending(Step(plan, sys, e), i) <==> Pending(sys, i) || Tears(sys, e, i)
  {
    if sys.run.Some? && sys.run.value.phase != Over && i < |sys.run.value.records| && Passed(sys.run.value.records[i]) {
      assert ExplainedAt(sys, sys.run.value, i);
    }
  }

  lemma FinishSaves(plan: Plan, sys: Sys, i: nat)
    requires SysOk(plan, sys) && Explained(sys)
    ensures Unclean(Step(plan, sys, Finish), i) <==> Unclean(sys, i) || Pending(sys, i)
  {
    if OnDisk(sys, i) { StepSparesPassed(plan, sys, Finish, i); }
  }

  /* --- campaigns --- */

  ghost predicate TearsAt(plan: Plan, events: seq<Event>, k: nat, i: nat)
    requires k < |events|
  {
    Tears(Campaign(plan, events[..k]), events[k], i)
  }

  // The k-th event tears record i, and the run is still there after all events.
  ghost predicate TearOpen(plan: Plan, events: seq<Event>, k: nat, i: nat) {
    && k < |events| && TearsAt(plan, events, k, i)
    && forall j :: k < j < |events| ==> !events[j].Kill? && !events[j].Finish?
  }

  // It does, and the m-th event is the last manifest write of that run.
  ghost predicate TearSaved(plan: Plan, events: seq<Event>, k: nat, m: nat, i: nat) {
    m < |events| && events[m].Finish? && TearOpen(plan, events[..m], k, i)
  }

  ghost predicate SomeOpen(plan: Plan, events: seq<Event>, i: nat) {
    exists k: nat :: TearOpen(plan, events, k, i)
  }

  ghost predicate SomeSaved(plan: Plan, events: seq<Event>, i: nat) {
    exists k: nat, m: nat :: TearSaved(plan, events, k, m, i)
  }

  lemma OpenNext(plan: Plan, events: seq<Event>, e: Event, k: nat, i: nat)
    ensures TearOpen(plan, events + [e], k, i) <==>
            (TearOpen(plan, events, k, i) && !e.Kill? && !e.Finish?)
                || (k == |events| && Tears(Campaign(plan, events), e, i))
  {
    var more := events + [e];
    assert more[..|events|] == events;
    if k < |events| {
      assert more[..k] == events[..k] && more[k] == events[k];
      if TearOpen(plan, events, k, i) && !e.Kill? && !e.Finish? {
        forall j | k < j < |more| ensures !more[j].Kill? && !more[j].Finish? {
          assert j < |events| ==> more[j] == events[j];
        }
      }
      if TearOpen(plan, more, k, i) {
        assert more[|events|] == e;
        forall j | k < j < |events| ensures !events[j].Kill? && !events[j].Finish? { assert more[j] == events[j]; }
      }
    }
  }

  lemma SavedNext(plan: Plan, events: seq<Event>, e: Event, k: nat, m: nat, i: nat)
    ensures TearSaved(plan, events + [e], k, m, i) <==>
            TearSaved(plan, events, k, m, i) || (m == |events| && e.Finish? && TearOpen(plan, events, k, i))
  {
    var more := events + [e];
    if m < |events| {
      assert more[..m] == events[..m] && more[m] == events[m];
    } else if m == |events| {
      assert more[..m] == events && more[m] == e;
    }
  }

  // In every campaign, a pass on disk is unclean exactly when a signal tore its
  // record and the same run went on to its last manifest write.
  lemma {:induction false} UncleanIffTornAndSaved(plan: Plan, events: seq<Event>, i: nat)
    ensures Unclean(Campaign(plan, events), i) <==> exists k: nat, m: nat :: TearSaved(plan, events, k, m, i)
    ensures Pending(Campaign(plan, events), i) <==> exists k: nat :: TearOpen(plan, events, k, i)
    ensures Explained(Campaign(plan, events))
  {
    if events == [] {
    } else {
      var init, e := events[..|events| - 1], events[|events| - 1];
      assert events == init + [e];
      UncleanIffTornAndSaved(plan, init, i);
      CampaignOk(plan, init);
      StepUnclean(plan, Campaign(plan, init), e, i);
      StepExplained(plan, Campaign(plan, init), e);
      forall k: nat ensures TearOpen(plan, events, k, i) <==>
                       (TearOpen(plan, init, k, i) && !e.Kill? && !e.Finish?)
                       || (k == |init| && Tears(Campaign(plan, init), e, i))
      {
        OpenNext(plan, init, e, k, i);
      }
      forall k: nat, m: nat ensures TearSaved(plan, events, k, m, i) <==>
                          TearSaved(plan, init, k, m, i) || (m == |init| && e.Finish? && TearOpen(plan, init, k, i))
      {
        SavedNext(plan, init, e, k, m, i);
      }
      if Tears(Campaign(plan, init), e, i) {
        assert TearOpen(plan, events, |init|, i);
      }
      if e.Finish? && Pending(Campaign(plan, init), i) {
        var k: nat :| TearOpen(plan, init, k, i);
        assert TearSaved(plan, events, k, |init|, i);
      }
    }
  }

  /* --- clean states --- */

  ghost predicate AllClean(records: seq<Rec>, finished: seq<(nat, ChunkResult)>) {
    forall i :: 0 <= i < |records| && Passed(records[i]) ==> CleanlyBacked(finished, i + 1)
  }

  ghost predicate CleanRun(run: RunState, finished: seq<(nat, ChunkResult)>) {
    forall i :: 0 <= i < |run.records| && Passed(run.records[i]) ==>
      CleanlyBacked(finished, i + 1) || (i == run.pos && Torn(run))
  }

  // No pass, on disk or in memory, is unclean; a torn record is about to be judged.
  ghost predicate CleanSys(sys: Sys) {
    && (sys.disk.Some? ==> AllClean(sys.disk.value, sys.finished))
    && (sys.run.Some? ==> CleanRun(sys.run.value, sys.finished))
  }

  lemma CleanMeans(plan: Plan, sys: Sys)
    requires SysOk(plan, sys)
    ensures CleanSys(sys) <==> Explained(sys) && forall i: nat :: !Unclean(sys, i) && !Pending(sys, i)
  {
    if CleanSys(sys) {
      if sys.run.Some? {
        forall i | 0 <= i < |sys.run.value.records| && Passed(sys.run.value.records[i])
          ensures ExplainedAt(sys, sys.run.value, i)
        {
        }
      }
    }
    if Explained(sys) && forall i: nat :: !Unclean(sys, i) && !Pending(sys, i) {
      NoneUnclean(plan, sys);
    }
  }

  lemma NoneUnclean(plan: Plan, sys: Sys)
    requires SysOk(plan, sys) && Explained(sys) && forall i: nat :: !Unclean(sys, i) && !Pending(sys, i)
    ensures CleanSys(sys)
  {
    if sys.disk.Some? {
      forall i | 0 <= i < |sys.disk.value| && Passed(sys.disk.value[i]) ensures CleanlyBacked(sys.finished, i + 1) {
        assert !Unclean(sys, i);
      }
    }
    if sys.run.Some? {
      var run := sys.run.value;
      forall i | 0 <= i < |run.records| && Passed(run.records[i])
        ensures CleanlyBacked(sys.finished, i + 1) || (i == run.pos && Torn(run))
      {
        assert ExplainedAt(sys, run, i) && !Unclean(sys, i) && !Pending(sys, i);
      }
    }
  }

  // A clean state stays clean in a step exactly when the step is no such signal.
  lemma CleanStep(plan: Plan, sys: Sys, e: Event)
    requires SysOk(plan, sys) && CleanSys(sys)
    ensures CleanSys(Step(plan, sys, e)) <==> forall i: nat :: !Tears(sys, e, i)
  {
    var after := Step(plan, sys, e);
    StepKeeps(plan, sys, e);
    CleanMeans(plan, sys);
    CleanMeans(plan, after);
    StepExplained(plan, sys, e);
    forall i: nat ensures !Unclean(after, i) && (Pending(after, i) <==> Tears(sys, e, i)) {
      StepUnclean(plan, sys, e, i);
    }
  }

  // A campaign ends clean exactly when no tear is still open and none was saved.
  lemma CleanUnlessTorn(plan: Plan, events: seq<Event>)
    ensures CleanSys(Campaign(plan, events)) <==>
            forall i: nat :: !SomeOpen(plan, events, i) && !SomeSaved(plan, events, i)
  {
    var sys := Campaign(plan, events);
    CampaignOk(plan, events);
    CleanMeans(plan, sys);
    UncleanIffTornAndSaved(plan, events, 0);
    forall i: nat
      ensures Unclean(sys, i) <==> SomeSaved(plan, events, i)
      ensures Pending(sys, i) <==> SomeOpen(plan, events, i)
    {
      UncleanIffTornAndSaved(plan, events, i);
    }
    assert CleanSys(sys) <==> forall i: nat :: !Unclean(sys, i) && !Pending(sys, i);
  }

  // An unclean pass stays on disk, and its chunk is never launched again.
  lemma UncleanStays(plan: Plan, a: seq<Event>, b: seq<Event>, i: nat)
    requires Unclean(Campaign(plan, a), i)
    ensures Unclean(Campaign(plan, a + b), i)
    ensures Launches(Campaign(plan, a + b), i + 1) == Launches(Campaign(plan, a), i + 1)
  {
    NeverRelaunched(plan, a, b, i);
    UncleanIffTornAndSaved(plan, a, i);
    UncleanIffTornAndSaved(plan, a + b, i);
    var k: nat, m: nat :| TearSaved(plan, a, k, m, i);
    assert (a + b)[..m] == a[..m] && (a + b)[m] == a[m];
    assert TearSaved(plan, a + b, k, m, i);
  }

  // A torn record that is signalled and then saved is a pass on disk with no further launch.
  lemma TornSignalRecordsPass(plan: Plan, sys: Sys, signum: nat)
    requires sys.run.Some? && Torn(sys.run.value) && SysOk(plan, sys)
    ensures var after := Step(plan, Step(plan, sys, Signal(signum)), Finish);
            && OnDisk(after, sys.run.value.pos) && after.finished == sys.finished
            && (!CleanlyBacked(sys.finished, sys.run.value.pos + 1) ==>
                  Unclean(after, sys.run.value.pos) && !CleanSys(after))
  {
  }

  // Such a state is reached: one chunk fails, its rerun is interrupted by
  // signal 2 with exit code 0, and signal 15 arrives before the status is set.
  lemma TornStateReached() returns (plan: Plan, events: seq<Event>)
    ensures Unclean(Campaign(plan, events), 0)
  {
    plan := Plan([["tests/test_a.py"]], None);
    var opts := Options(false, false, true, false);
    var failed := ChunkResult(Some(1), 1.0, None, None, None);
    var cut := ChunkResult(Some(0), 1.0, None, Some(2), None);
    var start := [StartFresh(opts, [])];
    CampaignNext(plan, [], StartFresh(opts, []));
    assert [] + start == start;
    var first := FirstRun(plan, start, failed, true);
    CampaignOk(plan, first);
    events := SecondRun(plan, first, opts, failed, cut);
  }

  // The chunk is taken up again, and the run is cut off in a torn state.
  lemma SecondRun(plan: Plan, first: seq<Event>, opts: Options, failed: ChunkResult, cut: ChunkResult)
    returns (events: seq<Event>)
    requires |plan.chunks| == 1 && plan.selected.None? && opts.rerunFailed
    requires failed.exitCode == Some(1) && cut.exitCode == Some(0) && cut.signal.Some?
    requires HoldsFailure(Campaign(plan, first), failed) && SysOk(plan, Campaign(plan, first))
    ensures OnDisk(Campaign(plan, events), 0)
    ensures Campaign(plan, events).finished == [(1, failed), (1, cut)]
  {
    var s0 := Campaign(plan, first);
    var s1, s2, s3, s4 := CutShort(plan, s0, opts, cut);
    CampaignNext(plan, first, Resume(opts, []));
    events := first + [Resume(opts, [])];
    CampaignNext(plan, events, Do(Nothing));
    events := events + [Do(Nothing)];
    CampaignNext(plan, events, Do(Outcome(cut)));
    events := events + [Do(Outcome(cut))];
    CampaignNext(plan, events, Do(Nothing));
    events := events + [Do(Nothing)];
    CampaignOk(plan, events);
    TornSignalRecordsPass(plan, s4, 15);
    CampaignNext(plan, events, Signal(15));
    events := events + [Signal(15)];
    CampaignNext(plan, events, Finish);
    events := events + [Finish];
  }

  lemma CutShort(plan: Plan, s0: Sys, opts: Options, cut: ChunkResult) returns (s1: Sys, s2: Sys, s3: Sys, s4: Sys)
    requires |plan.chunks| == 1 && plan.selected.None? && opts.rerunFailed
    requires cut.exitCode == Some(0) && cut.signal.Some?
    requires s0.run.None? && s0.disk.Some? && |s0.disk.value| == 1 && s0.disk.value[0].index == 1
    requires s0.disk.value[0].status == Completed && s0.disk.value[0].exitCode == Some(1)
    ensures s1 == Step(plan, s0, Resume(opts, [])) && s2 == Step(plan, s1, Do(Nothing))
    ensures s3 == Step(plan, s2, Do(Outcome(cut))) && s4 == Step(plan, s3, Do(Nothing))
    ensures s4.run.Some? && Torn(s4.run.value) && s4.run.value.pos == 0
    ensures s4.finished == s0.finished + [(1, cut)]
  {
    s1 := Step(plan, s0, Resume(opts, []));
    s2 := Step(plan, s1, Do(Nothing));
    assert s2.run.value.phase == Launching && s2.run.value.pos == 0;
    s3 := Step(plan, s2, Do(Outcome(cut)));
    s4 := Step(plan, s3, Do(Nothing));
  }

  ghost predicate HoldsFailure(sys: Sys, failed: ChunkResult) {
    && sys.run.None? && sys.disk.Some? && |sys.disk.value| == 1 && sys.finished == [(1, failed)]
    && sys.disk.value[0].index == 1 && sys.disk.value[0].status == Completed && sys.disk.value[0].exitCode == Some(1)
  }

  // The first of the two runs: the only chunk completes with `failed`.
  lemma FirstRun(plan: Plan, start: seq<Event>, failed: ChunkResult, rerun: bool) returns (events: seq<Event>)
    requires |plan.chunks| == 1 && plan.selected.None?
    requires failed.exitCode == Some(1) && failed.signal.None?
    requires Campaign(plan, start) ==
             Sys(Some(FreshRecords(plan)), Some(Begin(Options(false, false, rerun, false), FreshRecords(plan), [])),
                 [], [])
    ensures HoldsFailure(Campaign(plan, events), failed)
  {
    var s0 := Campaign(plan, start);
    CampaignNext(plan, start, Do(Nothing));
    events := start + [Do(Nothing)];
    assert Campaign(plan, events).run.value.phase == Launching && Campaign(plan, events).run.value.pos == 0;
    CampaignNext(plan, events, Do(Outcome(failed)));
    events := events + [Do(Outcome(failed))];
    assert Campaign(plan, events).finished == [(1, failed)];
    events := FinishChunk(plan, events, failed);
  }

  // From a returned launch to the end of the run.
  lemma FinishChunk(plan: Plan, start: seq<Event>, failed: ChunkResult) returns (events: seq<Event>)
    requires failed.exitCode == Some(1) && failed.signal.None?
    requires var sys := Campaign(plan, start);
             && sys.run.Some? && sys.run.value.phase == Returned(failed) && sys.run.value.pos == 0
             && |sys.run.value.records| == 1 && sys.run.value.records[0].index == 1 && sys.finished == [(1, failed)]
    ensures HoldsFailure(Campaign(plan, events), failed)
  {
    FinishSteps(plan, Campaign(plan, start), failed);
    CampaignNext(plan, start, Do(Nothing));
    events := start + [Do(Nothing)];
    CampaignNext(plan, events, Do(Nothing));
    events := events + [Do(Nothing)];
    CampaignNext(plan, events, Do(Snapshot([])));
    events := events + [Do(Snapshot([]))];
    CampaignNext(plan, events, Do(Nothing));
    events := events + [Do(Nothing)];
    CampaignNext(plan, events, Do(Nothing));
    events := events + [Do(Nothing)];
    CampaignNext(plan, events, Do(Nothing));
    events := events + [Do(Nothing)];
    CampaignNext(plan, events, Finish);
    events := events + [Finish];
  }

  lemma FinishSteps(plan: Plan, s0: Sys, failed: ChunkResult)
    requires failed.exitCode == Some(1) && failed.signal.None?
    requires s0.run.Some? && s0.run.value.phase == Returned(failed) && s0.run.value.pos == 0
    requires |s0.run.value.records| == 1 && s0.run.value.records[0].index == 1 && s0.finished == [(1, failed)]
    ensures HoldsFailure(Step(plan,
            Tick(plan, Tick(plan, Tick(plan, Tick(plan, Tick(plan, Tick(plan, s0, Nothing), Nothing), Snapshot([])),
                         Nothing), Nothing), Nothing), Finish), failed)
  {
    var s1 := Tick(plan, s0, Nothing);
    assert s1.run.value.phase == ExitAssigned(failed);
    var s2 := Tick(plan, s1, Nothing);
    assert s2.run.value.phase == Assigned(failed);
    FinishSaved(plan, Tick(plan, s2, Snapshot([])), failed);
  }

  lemma FinishSaved(plan: Plan, s3: Sys, failed: ChunkResult)
    requires failed.exitCode == Some(1) && failed.signal.None?
    requires s3.run.Some? && s3.run.value.phase == Compared(failed, []) && s3.run.value.pos == 0
    requires |s3.run.value.records| == 1 && s3.run.value.records[0].index == 1 && s3.finished == [(1, failed)]
    requires s3.run.value.records[0].exitCode == Some(1)
    ensures HoldsFailure(Step(plan, Tick(plan, Tick(plan, Tick(plan, s3, Nothing), Nothing), Nothing), Finish), failed)
  {
    var s4 := Tick(plan, s3, Nothing);
    assert s4.run.value.phase == Unsaved(CheckStop(failed, []));
    var s5 := Tick(plan, s4, Nothing);
    assert s5.run.value.phase == AtRecord && s5.run.value.pos == 1;
    var s6 := Tick(plan, s5, Nothing);
    assert s6.run.value.phase == Over;
  }
}
