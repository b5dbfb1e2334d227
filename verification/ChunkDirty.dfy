// The dirty paths a run of execute_plan has seen.
module ChunkDirty {
  import opened Ordering
  import opened ChunkRunner

  // What the run of the protocol says about the dirty paths of the outcome.
  ghost predicate DirtyOk(run: RunState) {
    && run.dirtySeen == Elements(run.dirtyBefore) + Union(run.snapshots)
    && Elements(run.newDirty) == Union(run.snapshots) - Elements(run.dirtyBefore)
    && ((forall s <- run.snapshots :: Distinct(s)) ==> Distinct(run.newDirty))
  }

  ghost function Union(snapshots: seq<seq<string>>): set<string> {
    if snapshots == [] then {} else Union(snapshots[..|snapshots| - 1]) + Elements(snapshots[|snapshots| - 1])
  }

  lemma {:induction false} NotSeenMembers(paths: seq<string>, seen: set<string>)
    ensures Elements(NotSeen(paths, seen)) == Elements(paths) - seen
    ensures Distinct(paths) ==> Distinct(NotSeen(paths, seen))
  {
    if paths == [] {
    } else {
      var rest := NotSeen(paths[1..], seen);
      NotSeenMembers(paths[1..], seen);
      assert paths == [paths[0]] + paths[1..];
      assert Elements(paths) == {paths[0]} + Elements(paths[1..]);
      assert NotSeen(paths, seen) == if paths[0] in seen then rest else [paths[0]] + rest;
      assert Elements([paths[0]] + rest) == {paths[0]} + Elements(rest);
      if Distinct(paths) {
        forall i | 0 <= i < |rest| ensures rest[i] != paths[0] {
          assert rest[i] in Elements(rest);
        }
      }
    }
  }

  lemma DistinctAppend(a: seq<string>, b: seq<string>)
    requires Distinct(a) && Distinct(b) && Elements(a) !! Elements(b)
    ensures Distinct(a + b)
  {
    forall i, j | 0 <= i < |a| && 0 <= j < |b| ensures a[i] != b[j] {
      assert a[i] in Elements(a) && b[j] in Elements(b);
    }
  }

  lemma UnionNext(snapshots: seq<seq<string>>, paths: seq<string>)
    ensures Union(snapshots + [paths]) == Union(snapshots) + Elements(paths)
  {
    assert (snapshots + [paths])[..|snapshots|] == snapshots;
  }

  lemma ElementsAppend(a: seq<string>, b: seq<string>)
    ensures Elements(a + b) == Elements(a) + Elements(b)
  {
  }

  lemma TickKeepsDirty(plan: Plan, sys: Sys, input: Input)
    requires sys.run.Some? && DirtyOk(sys.run.value)
    ensures Tick(plan, sys, input).run.Some? && DirtyOk(Tick(plan, sys, input).run.value)
  {
    var run := sys.run.value;
    if run.pos < |run.records| && run.phase.Assigned? && input.Snapshot? {
      SnapshotKeepsDirty(run, Tick(plan, sys, input).run.value, input.paths);
    }
  }

  lemma SnapshotKeepsDirty(run: RunState, run': RunState, paths: seq<string>)
    requires DirtyOk(run) && run'.dirtyBefore == run.dirtyBefore && run'.snapshots == run.snapshots + [paths]
    requires run'.dirtySeen == run.dirtySeen + Elements(NotSeen(paths, run.dirtySeen))
    requires run'.newDirty == run.newDirty + NotSeen(paths, run.dirtySeen)
    ensures DirtyOk(run')
  {
    var newly := NotSeen(paths, run.dirtySeen);
    NotSeenMembers(paths, run.dirtySeen);
    UnionNext(run.snapshots, paths);
    ElementsAppend(run.newDirty, newly);
    var snapshots := run.snapshots + [paths];
    if forall s <- snapshots :: Distinct(s) {
      assert paths in snapshots && forall s <- run.snapshots :: s in snapshots;
      DistinctAppend(run.newDirty, newly);
    }
  }

  lemma {:induction false} TicksKeepDirty(plan: Plan, sys: Sys, inputs: seq<Input>)
    requires sys.run.Some? && DirtyOk(sys.run.value)
    ensures Ticks(plan, sys, inputs).run.Some? && DirtyOk(Ticks(plan, sys, inputs).run.value)
  {
    if inputs == [] {
    } else {
      TicksKeepDirty(plan, sys, inputs[..|inputs| - 1]);
      TickKeepsDirty(plan, Ticks(plan, sys, inputs[..|inputs| - 1]), inputs[|inputs| - 1]);
    }
  }
}
