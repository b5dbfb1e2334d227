// What holds over every campaign: any number of runs of one plan, each cut off
// anywhere.
module ChunkCampaign {
  import opened Wrappers
  import opened Ordering
  import opened ChunkRunner
  import opened ChunkPlan
  import Manifest

  lemma {:induction false} CampaignOk(plan: Plan, events: seq<Event>)
    ensures SysOk(plan, Campaign(plan, events))
  {
    if events == [] {
    } else {
      CampaignOk(plan, events[..|events| - 1]);
      StepKeeps(plan, Campaign(plan, events[..|events| - 1]), events[|events| - 1]);
    }
  }

  // The manifest on disk has chunk i + 1 as completed with exit code 0.
  ghost predicate OnDisk(sys: Sys, i: nat) {
    sys.disk.Some? && i < |sys.disk.value| && Passed(sys.disk.value[i])
  }

  ghost function Launches(sys: Sys, index: nat): nat {
    multiset(sys.launched)[index]
  }

  // A tick launches at most the current chunk, and only if the manifest does
  // not have it as passed.
  lemma TickSparesPassed(plan: Plan, sys: Sys, input: Input, i: nat)
    requires SysOk(plan, sys) && OnDisk(sys, i)
    ensures OnDisk(Tick(plan, sys, input), i)
    ensures Tick(plan, sys, input).disk.value[i] == sys.disk.value[i]
    ensures Launches(Tick(plan, sys, input), i + 1) == Launches(sys, i + 1)
  {
    if sys.run.Some? && sys.run.value.pos < |sys.run.value.records| && sys.run.value.phase == AtRecord {
      var run := sys.run.value;
      assert RecordOk(plan, run.records[run.pos], run.pos);
    }
  }

  lemma StepSparesPassed(plan: Plan, sys: Sys, e: Event, i: nat)
    requires SysOk(plan, sys) && OnDisk(sys, i)
    ensures OnDisk(Step(plan, sys, e), i)
    ensures Step(plan, sys, e).disk.value[i] == sys.disk.value[i]
    ensures Launches(Step(plan, sys, e), i + 1) == Launches(sys, i + 1)
  {
    match e {
      case Do(input) => TickSparesPassed(plan, sys, input, i);
      case _ =>
    }
  }

  // Once the manifest has a chunk as passed, its record never changes again and
  // the chunk is never launched again, whatever happens after.
  lemma {:induction false} NeverRelaunched(plan: Plan, a: seq<Event>, b: seq<Event>, i: nat)
    requires OnDisk(Campaign(plan, a), i)
    ensures OnDisk(Campaign(plan, a + b), i)
    ensures Campaign(plan, a + b).disk.value[i] == Campaign(plan, a).disk.value[i]
    ensures Launches(Campaign(plan, a + b), i + 1) == Launches(Campaign(plan, a), i + 1)
  {
    if b == [] {
      assert a + b == a;
    } else {
      var b', e := b[..|b| - 1], b[|b| - 1];
      NeverRelaunched(plan, a, b', i);
      CampaignOk(plan, a + b');
      StepSparesPassed(plan, Campaign(plan, a + b'), e, i);
      assert Campaign(plan, a + b) == Step(plan, Campaign(plan, a + b'), e) by {
        CampaignNext(plan, a + b', e);
        assert a + b == a + b' + [e];
      }
    }
  }

  // Selected chunks the manifest does not have as passed.
  ghost function Remaining(plan: Plan, sys: Sys): set<nat> {
    set i: nat | i < |plan.chunks| && Selected(plan, i + 1) && !OnDisk(sys, i)
  }

  lemma RemainingNeverRises(plan: Plan, a: seq<Event>, b: seq<Event>)
    ensures Remaining(plan, Campaign(plan, a + b)) <= Remaining(plan, Campaign(plan, a))
    ensures |Remaining(plan, Campaign(plan, a + b))| <= |Remaining(plan, Campaign(plan, a))|
  {
    var before, after := Remaining(plan, Campaign(plan, a)), Remaining(plan, Campaign(plan, a + b));
    forall i | i in after ensures i in before {
      if OnDisk(Campaign(plan, a), i) { NeverRelaunched(plan, a, b, i); }
    }
    assert before == after + (before - after);
  }

  // A chunk recorded as passed was launched, and that launch returned exit code 0.
  lemma PassedIsBacked(plan: Plan, events: seq<Event>, i: nat)
    requires OnDisk(Campaign(plan, events), i)
    ensures Backed(Campaign(plan, events).finished, i + 1)
  {
    CampaignOk(plan, events);
  }

  // A resumed run gets back exactly the records the last manifest write left:
  // Resume in the protocol is load_manifest_for_resume of what save_manifest wrote.
  lemma ResumeLoadsDisk(plan: Plan, events: seq<Event>, req: Manifest.Request, state: string, dirty: seq<string>)
    requires req.plan == plan && Campaign(plan, events).disk.Some?
    ensures Manifest.Load(Manifest.Payload(req, Campaign(plan, events).disk.value, state, dirty).fields, req) ==
            Manifest.Records(Campaign(plan, events).disk.value)
  {
    var disk := Campaign(plan, events).disk.value;
    CampaignOk(plan, events);
    forall i | 0 <= i < |disk| ensures Manifest.Ordinary(disk[i]) && disk[i].files == plan.chunks[i] {
      assert RecordOk(plan, disk[i], i);
    }
    assert Manifest.Memberships(disk) == plan.chunks;
    Manifest.LoadSaved(req, disk, state, dirty, req);
  }

  // The steps execute_plan takes are steps of a campaign.
  lemma {:induction false} TicksAreEvents(plan: Plan, events: seq<Event>, inputs: seq<Input>)
    ensures Campaign(plan, events + Dos(inputs)) == Ticks(plan, Campaign(plan, events), inputs)
  {
    if inputs == [] {
      assert events + Dos(inputs) == events;
    } else {
      var init := inputs[..|inputs| - 1];
      TicksAreEvents(plan, events, init);
      CampaignNext(plan, events + Dos(init), Do(inputs[|inputs| - 1]));
      assert events + Dos(inputs) == events + Dos(init) + [Do(inputs[|inputs| - 1])];
    }
  }

  ghost function Dos(inputs: seq<Input>): seq<Event> {
    seq(|inputs|, i requires 0 <= i < |inputs| => Do(inputs[i]))
  }

  /* --- exit code --- */

  lemma {:induction false} NoNonzeroCodes(records: seq<Rec>)
    ensures NonzeroCodes(records) == [] <==> forall r <- records :: r.status == Completed ==> Passed(r)
    ensures forall c <- NonzeroCodes(records) :: c != 0
  {
    if records == [] {
    } else {
      NoNonzeroCodes(records[1..]);
      assert records == [records[0]] + records[1..];
    }
  }

  ghost predicate AllSelectedPassed(plan: Plan, records: seq<Rec>) {
    forall i :: 0 <= i < |records| && Selected(plan, i + 1) ==> Passed(records[i])
  }

  // Exit code 0 means: no signal, no stop, and every selected chunk passed.
  lemma ExitZero(plan: Plan, sys: Sys, run: RunState)
    requires RunOk(plan, sys, run) && run.phase == Over
    ensures FinalExitCode(run) == 0 <==>
            run.interrupted.None? && run.stoppedAt.None? && AllSelectedPassed(plan, run.records)
  {
    NoNonzeroCodes(run.records);
    forall i | 0 <= i < |run.records|
      ensures RecordOk(plan, run.records[i], i) && run.records[i] in run.records
    {
    }
    if FinalExitCode(run) == 0 {
      forall i | 0 <= i < |run.records| && Selected(plan, i + 1) ensures Passed(run.records[i]) {
        assert Settled(run.records[i], run.stopped);
      }
    }
    if AllSelectedPassed(plan, run.records) {
      forall r | r in run.records && r.status == Completed ensures Passed(r) {
        var i :| 0 <= i < |run.records| && run.records[i] == r;
        assert RecordOk(plan, run.records[i], i);
      }
    }
  }

  lemma {:induction false} CodesAreRecorded(records: seq<Rec>)
    ensures forall c :: c in NonzeroCodes(records) <==>
            c != 0 && exists r :: r in records && r.status == Completed && r.exitCode == Some(c)
  {
    if records == [] {
    } else {
      CodesAreRecorded(records[1..]);
      assert records == [records[0]] + records[1..];
    }
  }

  ghost predicate CodeRecorded(records: seq<Rec>, code: int) {
    exists r :: r in records && r.status == Completed && r.exitCode == Some(code)
  }

  // Any other exit code says why: the signal, the largest nonzero code of a
  // completed chunk (negative when all of them are), or a stop for dirty paths.
  lemma ExitCodeTells(run: RunState)
    ensures run.interrupted.Some? ==> FinalExitCode(run) == 128 + run.interrupted.value
    ensures run.interrupted.None? && (exists c :: c != 0 && CodeRecorded(run.records, c)) ==>
              FinalExitCode(run) != 0 && CodeRecorded(run.records, FinalExitCode(run))
    ensures run.interrupted.None? ==> forall c :: c != 0 && CodeRecorded(run.records, c) ==> c <= FinalExitCode(run)
    ensures run.interrupted.None? && (forall c :: CodeRecorded(run.records, c) ==> c == 0) ==>
              FinalExitCode(run) == if run.stoppedAt.Some? then 1 else 0
  {
    CodesAreRecorded(run.records);
    forall c | c != 0 ensures c in NonzeroCodes(run.records) <==> CodeRecorded(run.records, c) {
    }
    var codes := NonzeroCodes(run.records);
    if codes != [] {
      assert codes[0] in codes;
    }
  }

  // A whole run (no --chunks) that ends with exit code 0: every included file
  // lies in exactly one chunk, and that chunk's record is passed and backed.
  lemma WholeSuitePassed(plan: Plan, events: seq<Event>, files: seq<string>, size: int, f: string) returns (k: nat)
    requires plan.selected.None? && Partition(files, size) == Some(plan.chunks)
    requires Distinct(files) && f in files
    requires var sys := Campaign(plan, events);
             sys.run.Some? && sys.run.value.phase == Over && FinalExitCode(sys.run.value) == 0
    ensures k < |plan.chunks| && f in plan.chunks[k]
    ensures forall j :: 0 <= j < |plan.chunks| && f in plan.chunks[j] ==> j == k
    ensures var sys := Campaign(plan, events);
            && k < |sys.run.value.records| && sys.run.value.records[k].files == plan.chunks[k]
            && Passed(sys.run.value.records[k]) && Backed(sys.finished, k + 1)
  {
    var sys := Campaign(plan, events);
    CampaignOk(plan, events);
    ExitZero(plan, sys, sys.run.value);
    PartitionCovers(files, size);
    k := InOneChunk(plan.chunks, f);
    assert RecordOk(plan, sys.run.value.records[k], k);
  }

  lemma CampaignNext(plan: Plan, events: seq<Event>, e: Event)
    ensures Campaign(plan, events + [e]) == Step(plan, Campaign(plan, events), e)
  {
    assert (events + [e])[..|events|] == events;
  }
}
