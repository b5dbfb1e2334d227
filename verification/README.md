# Nexus verification

A Dafny model of the parts of Nexus whose correctness rests on an algorithm or
a protocol, with proofs for all inputs, all runs or all interleavings:

| part of the system | modules |
|---|---|
| migration-graph analysis (`scripts/project_facts.py`) | `CycleSearch`, `RevisionGraph` |
| resumable pytest chunk runner (`scripts/run_pytest_chunks.py`) | `ChunkPlan`, `ChunkRunner`, `ChunkCampaign`, `ChunkTears`, `ChunkProgress`, `ChunkDirty`, `ChunkOutcome`, `ExecutePlan`, `Manifest`, `GitStatus` |
| sealing of the audit chain (`alembic/versions/e7a1c2d3f404_audit_chain_per_company.py`) | `AuditChain`, `AuditSeal`, `AuditTexts` |
| tenant binding over a shared pool (`src/nexus/database.py`, `alembic/versions/c4f7d2e91b50_add_row_level_security.py`) | `TenantSessions`, `TenantStatements`, `SessionEngine`, `SessionTraces` |
| chat-session backfill and its undo (`alembic/versions/d5e1a0c3b703_backfill_chat_sessions.py`) | `ChatBackfill`, `ChatRoundTrip` |
| memory backfill (`alembic/versions/f1b7c9d2a508_memory_canonical_ingest_lifecycle.py`) | `MemoryBackfill` |
| histogram (`src/nexus/telemetry.py`) | `Telemetry` |
| backend controller (`src/nexus/supervisor.py`) | `Supervisor`, `SupervisorAlone` |
| budget holds (`src/nexus/services/budget_service.py`) | `BudgetSums`, `BudgetLedger`, `BudgetBooks`, `BudgetAlone` |

`Ordering`, `Grouping` and `Wrappers` hold what several of them share: Python's
`sorted` over lists and sets, grouping under a key in first-use order, options.
`dafny verify dfyconfig.toml` checks everything.

## How each part is modelled

**Migration graph.** `CycleFinder` is the recursive closure `visit` with its
colour map, stack and cycle list as fields. A ghost rank numbers the nodes in
the order they turn black; every edge out of a black node goes to a lower rank
or closes a reported cycle, so a closed walk that avoids all reported edges
cannot exist. A ghost list of the paths from the roots on which cycles were met
gives the reports their order. `BuildGraph` is the loop that fills the child lists.

**Chunk runner.** `ChunkRunner` is a protocol: one tick per place where a run of
`execute_plan` can be cut off, and a campaign of any number of runs, each
started fresh or resumed from the manifest on disk, each ended by a kill, a
signal or normally. `ExecutePlan` is the imperative function over mutable record
objects; it is proved to take exactly the ticks of the protocol, with the
launches and dirty snapshots it is given. `ChunkOutcome` says what a whole run
leaves without reference to its steps: which records are due, where the launches
stop, and how every record ends.

**Audit chain.** The hash is an arbitrary function, assumed injective where a
claim needs it. A row's fields are determined by its entry hash exactly when
none of them contains a `|` (`DeterminedIffBarFree`); `BarMovesText` builds the
second row otherwise. Claims about links only need ids without a `|`. The digest
alone tells a bar-free list only from lists that are not shorter
(`SameDigestMeans`): two neighbouring rows can always be merged into one
(`MergeKeepsDigest`). `AuditTexts` writes out the texts that are hashed.

**Tenant sessions.** Open, Begin (connection checkout and the `after_begin`
hook), Exec, Commit, Rollback and Close of any number of sessions interleave
over one pool. The reference is a database that holds a single tenant's rows,
with no pool, no setting and no policy on reads. Unique keys are checked below
the policy, so an insert at a key another company has used is the one way in
which tenants can notice each other (`AloneIffAllowed`, `CollisionTells`).
`TenantStatements` says what a statement does by what the next SELECT shows and
the commit leaves.

**Migrations over tables** work on maps from ids to rows. The chat upgrade and
downgrade and the memory backfill are methods with the loops of the originals.

**Histogram.** Label sets are keys of an arbitrary type; a ghost log of all
observations is the reference.

**Backend controller.** A step machine with one program counter per request
thread, one step per read or write of `_proc`, `_started_at` and the lock, and
children that may die between any two steps. `SupervisorAlone` runs one request
to its end from any state in which the lock is free.

**Budget holds.** The four operations are transactions of SELECT, UPDATE and
COMMIT statements that interleave under row locks, each of which may also be
aborted; the counter is compared with the sum of the live holds. `BudgetAlone`
says what each operation does when no other runs beside it.

## What the code does that a reader might not expect

- A completed record without an exit code counts as passing
  (`scripts/run_pytest_chunks.py` lines 910 and 957), so "passed" below means completed with
  exit code 0 or none.
- A chunk can be recorded as passed although no uninterrupted launch of it ever
  returned 0: a failed chunk is rerun, its launch is interrupted but returns 0,
  a second signal arrives between the new exit code and the new status, and the
  run goes on to its last manifest write (`TornStateReached`).
  `UncleanIffTornAndSaved` shows that a pass on disk is of this kind exactly when
  this has happened; if the process is killed before the write, it is not.
- `execute_plan` returns early on interruption and leaves `dirty_after` empty.
- `final_exit_code` is negative when every failing chunk died from a signal of its own.
- `Histogram` does not check that its bounds ascend. The count it reports at a
  bound is that of the largest bound so far; it is the count at the bound itself
  for every history exactly when the bounds ascend.
- `_proc_alive` and `status` read `_proc` twice, and `status` reads
  `_started_at` twice, outside the lock unless `start` or `stop` calls them in
  it. A `stop` in between makes the second read fail, with `AttributeError`
  (`StopCanFailAStatus`) or `TypeError` (`StopCanFailTheUptime`). Among the steps
  modelled these are the only failures (`FailsOnlyUnlocked`), and without a stop
  or restart there is none (`NoStopNoFailure`).
- Whenever `_proc` has been cleared while a child is still alive, a later
  `start` makes a second live backend (`SurvivorMakesTwo`); a `_terminate_tree`
  that leaves its process alive gets there (`SurvivorReached`).
- `git_dirty_paths` looks for renames in the index column only. An entry is read
  right exactly when its rename or copy stands there (`ReadRightIffInIndex`).
  Otherwise the origin is read as a record of its own (`WorktreeRenameMisread`),
  and one that starts with R or C swallows the next entry (`NextEntrySwallowed`).
- A list that lost a row to a merge has the digest its seal carries; with the
  sealed number of rows it does not (`SealDetects`, `MergeUndetected`).
- `reap_expired_reservations` takes a hold off the counter before it checks that
  the hold is still reserved. Two passes that select the same hold, or a pass
  and a settlement, take it off twice, and the counter is then too low whenever
  other holds are live (`PassesOverlap`); `BooksKeptIff` says exactly when the
  books stay right.
- The chat downgrade restores the database exactly if and only if it held no
  earlier `ws03` session and no message the upgrade links had a `seq`.

## Model

| member | source | states |
|---|---|---|
| `CycleSearch.FindCycles` | scripts/project_facts.py:197-215 | every reported list is a simple cycle; every directed cycle runs over an edge that closes a reported one; such an edge is reported once per time it stands in the child list; the reports come in the order of the paths from the roots on which they were met, compared at their first difference; the result is empty iff the graph is acyclic |
| `CycleSearch.CycleFinder.constructor` | scripts/project_facts.py:198-199 | the search starts with nothing coloured or reported, and its invariant holds |
| `CycleSearch.CycleFinder.Visit` | scripts/project_facts.py:201-210 | the recursion ends; it leaves the stack as found, the node black, and keeps: the stack holds exactly the colour-1 nodes, edges out of black nodes go to nodes finished earlier or close reported cycles, as many as they stand in the child list; what it reports lies beyond the node, in ascending order |
| `CycleSearch.CycleFinder.ScanAll` | scripts/project_facts.py:204-208 | the loop over the sorted children: all are accounted for, each reported once per time it stands there if it is on the stack, in ascending order |
| `CycleSearch.CycleFinder.Scan` | scripts/project_facts.py:205-208 | after one child, it is black, or it is on the stack and the edge to it was reported once more; nothing else from this node was |
| `CycleSearch.CycleFinder.Enter` | scripts/project_facts.py:202-203 | colour and stack change together |
| `CycleSearch.CycleFinder.Leave` | scripts/project_facts.py:209-210 | the popped node turns black only when all its edges are accounted for |
| `CycleSearch.CycleFinder.Report` | scripts/project_facts.py:205-206 | a colour-1 child is reported once, as the cycle the stack and the child end in |
| `CycleSearch.FoundIsReported` | scripts/project_facts.py:206 | the stack from the child on, closed by it, is the end of the path along the stack to the child |
| `CycleSearch.LeaveKeeps` | scripts/project_facts.py:209-210 | popping a node whose edges are all accounted for keeps the whole search invariant |
| `CycleSearch.ReportKeeps` | scripts/project_facts.py:205-206 | so does reporting a cycle, with its count and its path |
| `CycleSearch.ExploreNext` | scripts/project_facts.py:204-208 | scanning the children in ascending order keeps the reports in ascending order, with or without repeated children |
| `CycleSearch.TimesAtEnd` | scripts/project_facts.py:197-215 | in the end an edge closes either no reported cycle or as many as it stands in the child list |
| `CycleSearch.CycleFinder.VisitAll` | scripts/project_facts.py:212-214 | every root ends black, the stack empty and the reports in ascending order |
| `CycleSearch.EveryCycleIsClosed` | scripts/project_facts.py:197-215 | the search invariant over all keys means no cycle is missed |
| `CycleSearch.Descends` | scripts/project_facts.py:201-210 | along edges that close no reported cycle the finishing rank falls by at least one per step |
| `CycleSearch.FoundIsSimple` | scripts/project_facts.py:206 | `stack[stack.index(child):] + [child]` is a simple cycle |
| `RevisionGraph.BuildGraph` | scripts/project_facts.py:254-274 | the child list of an id holds each revision once per time its down_revision names the id, in order; the dangling list and the diagnostics are exactly those of the revisions in sorted order, reference by reference, repeats included; as sets they are the named ids that are no revision, and the non-static references, with their files |
| `RevisionGraph.ReadRevisions` | scripts/project_facts.py:259-274 | the outer loop reads every revision once, in sorted order |
| `RevisionGraph.ReadRefs` | scripts/project_facts.py:260-274 | the inner loop adds one revision's references and nothing else |
| `RevisionGraph.ReadRef` | scripts/project_facts.py:264-274 | one reference goes into the right list and no other |
| `RevisionGraph.RevisionsAdd` | scripts/project_facts.py:267-272 | what the two lists contain: each id named that is no revision, each non-static reference, with its file |
| `RevisionGraph.HeadIffChildless` | scripts/project_facts.py:284-286 | no down_revision names a revision iff it has no children |
| `RevisionGraph.ChildrenAreRevisions` | scripts/project_facts.py:273-274 | every child is a revision that names its parent |
| `RevisionGraph.WalkToHead` | scripts/project_facts.py:259-288 | in an acyclic graph every walk extends to a revision without children |
| `RevisionGraph.EveryRevisionReachesAHead` | scripts/project_facts.py:284-288 | when no cycle exists, every revision has a head among its descendants |
| `RevisionGraph.RevisionsReachHeads` | scripts/project_facts.py:284-288 | the same for the computed list of heads |
| `RevisionGraph.HeadsAndDangling` | scripts/project_facts.py:284-288 | ids not in down_refs are the childless revisions; branch points are the revisions with several children; nothing dangles iff every named id is a revision |
| `RevisionGraph.DatabaseFacts` | scripts/project_facts.py:254-288 | heads are exactly the childless revisions and branch points exactly those with several children, each sorted; cycles, dangling list and diagnostics as above; without a cycle every revision reaches a head |
| `RevisionGraph.SingleHead` | scripts/project_facts.py:284-288 | without a cycle there is one head iff some revision descends from every revision, and it is that head |
| `ChunkPlan.ChunkCount` | scripts/run_pytest_chunks.py:328 | as many chunks as slices start inside the list |
| `ChunkPlan.ConcatPrefix` | scripts/run_pytest_chunks.py:328 | the first k chunks concatenate to a prefix of the list |
| `ChunkPlan.PartitionCovers` | scripts/run_pytest_chunks.py:324-328 | refused iff the size is below 1; otherwise nonempty chunks of at most that size, all but the last full, that concatenate back to the list |
| `ChunkPlan.InOneChunk` | scripts/run_pytest_chunks.py:324-328 | a file of a duplicate-free list lies in exactly one chunk |
| `ChunkPlan.ParseChunkSelection` | scripts/run_pytest_chunks.py:331-345 | accepted iff every part is a number in 1..count and no part repeats; the result lists exactly the parts, ascending |
| `ChunkRunner.Max` | scripts/run_pytest_chunks.py:981-982 | the largest code |
| `ChunkRunner.AtRecordKeeps` | scripts/run_pytest_chunks.py:903-928 | skipping, marking and taking up a record keep the campaign invariant |
| `ChunkRunner.ReturnKeeps` | scripts/run_pytest_chunks.py:933 | so does a returning launch |
| `ChunkRunner.AssignKeeps` | scripts/run_pytest_chunks.py:934-937 | so does each group of assignments, with a cut in between |
| `ChunkRunner.JudgeKeeps` | scripts/run_pytest_chunks.py:947-954 | so does setting the status |
| `ChunkRunner.SaveKeeps` | scripts/run_pytest_chunks.py:899-901 | so does replacing the manifest; memory and disk then agree |
| `ChunkRunner.AdvanceKeeps` | scripts/run_pytest_chunks.py:957-962 | so does moving on, with the stop flags |
| `ChunkRunner.RewriteKeeps` | scripts/run_pytest_chunks.py:903-955 | a record is rewritten only while the manifest does not have it as passed |
| `ChunkRunner.TickKeeps` | scripts/run_pytest_chunks.py:882-965 | every step of execute_plan keeps the invariant |
| `ChunkRunner.StepKeeps` | scripts/run_pytest_chunks.py:1263-1300 | so does every start, resume, signal, end and kill |
| `ChunkCampaign.CampaignOk` | scripts/run_pytest_chunks.py:882-965 | the invariant holds in every campaign: records are the plan's chunks, a recorded pass is backed by a launch, an uninterrupted run has settled what it went over |
| `ChunkCampaign.NeverRelaunched` | scripts/run_pytest_chunks.py:903-965 | once the manifest has a chunk as passed, its record never changes and it is never launched again, in any continuation of any campaign |
| `ChunkCampaign.StepSparesPassed` | scripts/run_pytest_chunks.py:909-911 | one step neither launches nor changes such a chunk |
| `ChunkCampaign.RemainingNeverRises` | scripts/run_pytest_chunks.py:903-965 | the selected chunks not yet passed only ever become fewer |
| `ChunkCampaign.PassedIsBacked` | scripts/run_pytest_chunks.py:933-955 | a recorded pass comes from a launch of that chunk that returned 0 (or no code) |
| `ChunkCampaign.ResumeLoadsDisk` | scripts/run_pytest_chunks.py:1074-1104 | resuming with the same request loads exactly the records last written, in every campaign |
| `ChunkCampaign.TicksAreEvents` | scripts/run_pytest_chunks.py:1263-1269 | the steps of execute_plan are steps of a campaign |
| `ChunkCampaign.NoNonzeroCodes` | scripts/run_pytest_chunks.py:979-980 | no nonzero code iff every completed record passed |
| `ChunkCampaign.ExitZero` | scripts/run_pytest_chunks.py:976-985 | a run ends with exit code 0 iff no signal, no stop, and every selected chunk passed |
| `ChunkCampaign.ExitCodeTells` | scripts/run_pytest_chunks.py:976-985 | 128 + signal; else the largest nonzero code of a completed record; else 1 for a stop; else 0 |
| `ChunkCampaign.WholeSuitePassed` | scripts/run_pytest_chunks.py:882-985 | without --chunks, after exit code 0 every included file lies in exactly one chunk and that chunk is recorded as passed and backed by a launch |
| `ChunkTears.TickUnclean` | scripts/run_pytest_chunks.py:903-962 | no step of execute_plan makes a pass on disk unclean, or clean again |
| `ChunkTears.StepUnclean` | scripts/run_pytest_chunks.py:933-955 | what every event does: an unclean pass enters memory exactly by a signal on a torn record, goes to disk exactly by the last manifest write, and is lost exactly by a kill before it |
| `ChunkTears.CleanStep` | scripts/run_pytest_chunks.py:933-955 | a clean state stays clean in a step iff the step is not such a signal |
| `ChunkTears.UncleanIffTornAndSaved` | scripts/run_pytest_chunks.py:1263-1298 | in every campaign, a pass on disk has no uninterrupted launch behind it iff a signal tore its record and the same run reached its last manifest write |
| `ChunkTears.UncleanStays` | scripts/run_pytest_chunks.py:909-911 | and then it stays, and the chunk is never launched again |
| `ChunkTears.CleanUnlessTorn` | scripts/run_pytest_chunks.py:933-955 | a campaign ends with every pass clean (from an uninterrupted launch that returned 0) iff no tear is still open and none was saved |
| `ChunkTears.TornSignalRecordsPass` | scripts/run_pytest_chunks.py:1270-1296 | signal, then last manifest write, on a torn record: the pass is on disk with no further launch |
| `ChunkTears.TornStateReached` | scripts/run_pytest_chunks.py:922-955 | a concrete campaign that gets there |
| `ChunkProgress.TickOnCourse` | scripts/run_pytest_chunks.py:903-962 | while launches succeed, every selected chunk a run went over has passed, or is a failed one it was told to keep |
| `ChunkProgress.SuccessfulRunFinishes` | scripts/run_pytest_chunks.py:882-985 | a run without --fail-on-new-dirty, fresh or resumed, that no signal ends and whose launches all succeed ends with exit code 0 iff it kept no selected failed chunk; then every selected chunk has passed and nothing is left to do |
| `ChunkProgress.RunEnds` | scripts/run_pytest_chunks.py:903-965 | from any point it does end, whatever successful result its launches return |
| `ChunkProgress.OneMoreRunFinishes` | scripts/run_pytest_chunks.py:1074-1104 | from every state between two runs of a campaign, one more run can finish the plan |
| `ExecutePlan.ExecutePlan` | scripts/run_pytest_chunks.py:882-965 | the n-th launch is that of the n-th due record and its files; none follows an interrupted launch, a nonzero code under --stop-on-failure, or a path no earlier snapshot had under --fail-on-new-dirty, and without these every due record is launched; every record ends as its result, the resume rules or the stop say, the manifest on disk with it; outcome, new dirty paths (duplicate-free, the union of the snapshots minus the first) and dirty_after (the sorted union, or empty after an interruption) likewise; and all of it is the run of the protocol with these launches and snapshots |
| `ChunkOutcome.RunAsPlanned` | scripts/run_pytest_chunks.py:882-965 | the same for every run of the protocol that has returned, from any records, with the stopped and interrupted marks |
| `ChunkOutcome.StopMeans` | scripts/run_pytest_chunks.py:924-927 | a record that was due ends not-run iff the run had stopped before it, and then the last launch had failed under --stop-on-failure or left new dirty paths under --fail-on-new-dirty |
| `ChunkOutcome.NoLaunchAfter` | scripts/run_pytest_chunks.py:957-962 | no launch follows one that failed, left new dirty paths or was interrupted, where the options say so |
| `ChunkOutcome.DecideMeans` | scripts/run_pytest_chunks.py:904-928 | what the loop body decides, by what the record was before the run |
| `ChunkOutcome.TickOnPlan` | scripts/run_pytest_chunks.py:903-962 | every step of execute_plan leaves the records behind it final, those ahead of it untouched, and the launches as many as were due |
| `ChunkOutcome.NewlyDirtyFound` | scripts/run_pytest_chunks.py:939 | a snapshot has something new iff some path of it was in no snapshot before |
| `ChunkOutcome.RunSaves` | scripts/run_pytest_chunks.py:899-955 | at every step the manifest on disk is the records, but for the one being worked on |
| `ExecutePlan.Execution.constructor` | scripts/run_pytest_chunks.py:893-897 | the variables before the loop are the protocol's first state |
| `ExecutePlan.Execution.Consider` | scripts/run_pytest_chunks.py:903-928 | the branches before the launch take the steps of the protocol, whose decision `ChunkOutcome.DecideMeans` describes |
| `ExecutePlan.Execution.MarkNotSelected` | scripts/run_pytest_chunks.py:905-907 | a pending unselected record becomes not-selected and is saved |
| `ExecutePlan.Execution.MarkNotRun` | scripts/run_pytest_chunks.py:922-927 | a record after a stop becomes not-run and is saved, still marked as a rerun |
| `ExecutePlan.Execution.TakeUp` | scripts/run_pytest_chunks.py:922-923 | a completed record taken up again is marked as a rerun |
| `ExecutePlan.Execution.RunChild` | scripts/run_pytest_chunks.py:933-937 | the result assigned is the one this launch of these files returned |
| `ExecutePlan.Execution.AtDue` | scripts/run_pytest_chunks.py:933 | the launch is that of the record due next |
| `ExecutePlan.Execution.CompareDirty` | scripts/run_pytest_chunks.py:939-945 | what is new in the snapshot is noted, and nothing else |
| `ExecutePlan.Execution.ConcludeInterrupted` | scripts/run_pytest_chunks.py:947-952 | an interrupted chunk is saved as interrupted and ends the run |
| `ExecutePlan.Execution.Complete` | scripts/run_pytest_chunks.py:954 | any other chunk is completed |
| `ExecutePlan.Execution.CheckStops` | scripts/run_pytest_chunks.py:955-962 | saved, then stopped on a failure or on new dirty paths when asked to |
| `ExecutePlan.Execution.RunRecord` | scripts/run_pytest_chunks.py:933-962 | the loop body from the launch on |
| `ExecutePlan.Execution.RunAll` | scripts/run_pytest_chunks.py:903-962 | the loop ends where the protocol's run is over |
| `ExecutePlan.Execution.Conclude` | scripts/run_pytest_chunks.py:964-965 | dirty_after and what the run has come to |
| `ChunkDirty.NotSeenMembers` | scripts/run_pytest_chunks.py:939 | the list comprehension keeps exactly the unseen paths, without adding duplicates |
| `ChunkDirty.TicksKeepDirty` | scripts/run_pytest_chunks.py:893-945 | at every step: seen paths are the first snapshot and all later ones; new ones are the later minus the first |
| `Manifest.StatusRoundTrip` | scripts/run_pytest_chunks.py:734-762 | each status has its own text |
| `Manifest.RecordRoundTrip` | scripts/run_pytest_chunks.py:734-762 | from_json undoes to_json for every record the runner writes |
| `Manifest.EntriesRoundTrip` | scripts/run_pytest_chunks.py:1101 | so for the whole list |
| `Manifest.LoadSaved` | scripts/run_pytest_chunks.py:1074-1104 | a saved manifest is accepted iff commit, mode, filters, chunk size, arguments, selection, files and chunk membership are all the same, and gives back the same records |
| `Manifest.LoadAcceptsOnly` | scripts/run_pytest_chunks.py:1074-1104 | any manifest, whoever wrote it, is accepted iff its schema version is 1, its header fields are those of the request and its entries, read in order, are the request's chunks |
| `Manifest.EntryReads` | scripts/run_pytest_chunks.py:748-762 | what an entry is read as: every field, in the form to_json gives it; a missing rerun is false |
| `GitStatus.GitDirtyPaths` | scripts/run_pytest_chunks.py:567-580 | the sorted, duplicate-free list of the paths the records name, for any output |
| `Ordering.LexLeqMeans` | scripts/run_pytest_chunks.py:580 | in sorted order a prefix comes first, otherwise the first character that differs decides |
| `GitStatus.Split` | scripts/run_pytest_chunks.py:567 | the records have no NUL and join back, with NULs between them, to the output |
| `GitStatus.SplitField` | scripts/run_pytest_chunks.py:567 | a NUL-terminated field comes back as one record |
| `GitStatus.EntryRecords` | scripts/run_pytest_chunks.py:570-579 | an entry comes back as its status and path, and its origin if it has one |
| `GitStatus.ReadsWhatGitPrints` | scripts/run_pytest_chunks.py:562-580 | printing any list of status entries and reading it back gives exactly their paths and origins |
| `GitStatus.WorktreeRenameMisread` | scripts/run_pytest_chunks.py:577 | whatever follows, an entry with a rename in the worktree column only is read as its path and then its origin as a record of its own |
| `GitStatus.NextEntrySwallowed` | scripts/run_pytest_chunks.py:577-579 | if that origin starts with R or C, the next entry's raw record is taken for a path and its own path is lost |
| `GitStatus.ReadRightIffInIndex` | scripts/run_pytest_chunks.py:562-580 | an entry git may print is read back as its paths iff its rename or copy, if any, stands in the index column (for an origin whose text stands for no other bytes) |
| `GitStatus.OriginLost` | scripts/run_pytest_chunks.py:562-580 | in every list, a rename in the worktree column loses its origin, if nothing else in the output looks like it |
| `GitStatus.ReadRightIffAllInIndex` | scripts/run_pytest_chunks.py:562-580 | so a list whose worktree-rename origins stand out in this way is read right iff it has none |
| `AuditChain.JoinInjective` | alembic/versions/e7a1c2d3f404_audit_chain_per_company.py:79-84 | joining with a bar is injective on bar-free parts of equal number, or nonempty ones of any number |
| `AuditChain.BarsOfJoin` | alembic/versions/e7a1c2d3f404_audit_chain_per_company.py:79-84 | a joined text has at least one bar between parts, and no more iff the parts have none |
| `AuditChain.JoinDetermines` | alembic/versions/e7a1c2d3f404_audit_chain_per_company.py:79-84 | so a list without bars is told from every other list of its length |
| `AuditChain.SameHashSameFields` | alembic/versions/e7a1c2d3f404_audit_chain_per_company.py:76-85 | a row without a bar in its hashed fields and any other row have the same entry hash iff they agree on every hashed field as rendered |
| `AuditChain.DeterminedIffBarFree` | alembic/versions/e7a1c2d3f404_audit_chain_per_company.py:76-85 | for every row: its entry hash determines its hashed fields iff none of them contains a bar |
| `AuditChain.BarMovesText` | alembic/versions/e7a1c2d3f404_audit_chain_per_company.py:79-84 | a bar in any hashed field yields a second row with the same hash and other fields; for a free-text field, with the same id, time, company and link |
| `AuditChain.DecimalInjective` | alembic/versions/e7a1c2d3f404_audit_chain_per_company.py:89 | decimal texts of different integers differ |
| `AuditChain.SameDigestMeans` | alembic/versions/e7a1c2d3f404_audit_chain_per_company.py:88-90 | a list without bars in its hashes and any list with the same digest: the other is no longer, and has the same entries iff it is as long, and iff it has no bar |
| `AuditChain.SameDigestIffSameEntries` | alembic/versions/e7a1c2d3f404_audit_chain_per_company.py:88-90 | for a list without bars in its hashes and any other list: same digest and length iff same numbers and hashes in the same order; same digest alone suffices if the other has no bar either |
| `AuditChain.SameDigestSameFields` | alembic/versions/e7a1c2d3f404_audit_chain_per_company.py:76-90 | if every row also matches its own hash and the fields of one list have no bar, the lists agree on every hashed field |
| `AuditChain.MergeKeepsDigest` | alembic/versions/e7a1c2d3f404_audit_chain_per_company.py:88-90 | in every list, any two neighbours can be merged into one row with a bar in its hash, and the digest stays |
| `AuditChain.DigestDeterminesIffShort` | alembic/versions/e7a1c2d3f404_audit_chain_per_company.py:88-90 | the digest alone determines a list without bars iff it has at most one row |
| `AuditChain.CheckIntact` | alembic/versions/e7a1c2d3f404_audit_chain_per_company.py:104-113 | the single pass answers true iff every row matches its hash and links to "genesis" or to an earlier row's hash |
| `AuditTexts.IntactMeans` | alembic/versions/e7a1c2d3f404_audit_chain_per_company.py:104-113 | the same with the hashed text written out |
| `AuditTexts.EntryHashText` | alembic/versions/e7a1c2d3f404_audit_chain_per_company.py:76-85 | the entry hash is that of id, actor type, actor, action, resource type and id, time, company and previous hash, in this order between bars; a missing actor is empty, any other missing field "None" |
| `AuditTexts.EntryHashTexts` | alembic/versions/e7a1c2d3f404_audit_chain_per_company.py:79-84 | the two texts with everything and with nothing filled in |
| `AuditTexts.LegacyDigestText` | alembic/versions/e7a1c2d3f404_audit_chain_per_company.py:88-90 | the digest is that of "legacy-global-chain|" and number:hash of every row, in order, with a bar between any two |
| `AuditTexts.DecimalReads` | alembic/versions/e7a1c2d3f404_audit_chain_per_company.py:89 | a number's text reads back as the number, without leading zeros |
| `AuditChain.ReachesGenesis` | alembic/versions/e7a1c2d3f404_audit_chain_per_company.py:104-113 | from any row of an intact list, links over ever earlier rows lead to "genesis" |
| `AuditChain.SameHashSameId` | alembic/versions/e7a1c2d3f404_audit_chain_per_company.py:79-85 | rows with the same entry hash have the same id, whatever their other fields contain |
| `AuditChain.HashesDistinct` | alembic/versions/e7a1c2d3f404_audit_chain_per_company.py:104-113 | no two rows of an intact list share a hash |
| `AuditChain.LinkPathsEnd` | alembic/versions/e7a1c2d3f404_audit_chain_per_company.py:104-113 | however links are followed from row i, the walk has at most i + 1 rows |
| `AuditSeal.LegacyFacts` | alembic/versions/e7a1c2d3f404_audit_chain_per_company.py:93-118 | a company's legacy list is its chained rows, all of them, in sequence order |
| `AuditSeal.AuditLog.Insert` | alembic/versions/e7a1c2d3f404_audit_chain_per_company.py:149-159 | an insert the new unique index accepts keeps (company, sequence) unique |
| `AuditSeal.AuditLog.SealLegacyChains` | alembic/versions/e7a1c2d3f404_audit_chain_per_company.py:93-141 | exactly one seal per company with chained rows is appended, no row changes, each seal closes its chain, matches its own hash, carries the digest, the verdict and the counts, and (company, sequence) stays unique |
| `AuditTexts.SealWritten` | alembic/versions/e7a1c2d3f404_audit_chain_per_company.py:121-140 | every column of a seal, and the text its own hash covers, written out |
| `AuditTexts.UnchainedCounted` | alembic/versions/e7a1c2d3f404_audit_chain_per_company.py:98-102 | legacy_unchained_rows is the number of the company's rows without a sequence number |
| `AuditSeal.AuditLog.SealOne` | alembic/versions/e7a1c2d3f404_audit_chain_per_company.py:120-141 | one turn of the loop adds one company's seal |
| `AuditSeal.SealCloses` | alembic/versions/e7a1c2d3f404_audit_chain_per_company.py:121-140 | the row built matches its own hash and comes one after the last legacy row |
| `AuditSeal.SealComesLast` | alembic/versions/e7a1c2d3f404_audit_chain_per_company.py:137 | its number is above every chained row of the company |
| `AuditSeal.SealFits` | alembic/versions/e7a1c2d3f404_audit_chain_per_company.py:137-141 | so the new index accepts it, whatever was sealed before |
| `AuditSeal.SealDetects` | alembic/versions/e7a1c2d3f404_audit_chain_per_company.py:138 | of a chain sealed without bars in its hashes, a later reading has the sealed digest and number of rows iff no row changed number or hash, was removed or added; with the digest alone it is no longer, and unchanged iff it has no bar |
| `AuditSeal.MergeUndetected` | alembic/versions/e7a1c2d3f404_audit_chain_per_company.py:138 | merging two sealed rows keeps the digest the seal carries |
| `AuditSeal.VerdictIsHashed` | alembic/versions/e7a1c2d3f404_audit_chain_per_company.py:128-140 | flipping the verdict breaks the seal's own hash, for every seal |
| `TenantSessions.SameEffect` | alembic/versions/c4f7d2e91b50_add_row_level_security.py:35-39 | a statement under the policy does what it does among the tenant's rows alone, iff it is no insert at a key of another company; what that is, `TenantStatements` says |
| `TenantStatements.FreshSelect` | src/nexus/database.py:49-64 | a transaction that has written nothing reads exactly the committed rows of its session's company |
| `TenantStatements.ModifyShows` | alembic/versions/c4f7d2e91b50_add_row_level_security.py:35-39 | an UPDATE or DELETE is refused iff it would move a visible row to another company; otherwise it answers the rows it touched, and the next SELECT shows each with its new row, the deleted ones gone and the others as before |
| `TenantStatements.InsertShows` | alembic/versions/c4f7d2e91b50_add_row_level_security.py:35-39 | an INSERT is refused iff the key was used before or the row is another company's; otherwise the next SELECT shows it |
| `TenantStatements.CommitShows` | src/nexus/database.py:148 | a commit leaves in the company's rows what the session's SELECTs showed, and every other company's rows as they were |
| `TenantStatements.ModifyCommitted` | alembic/versions/c4f7d2e91b50_add_row_level_security.py:35-39 | an UPDATE or DELETE in a transaction of its own: every row that is committed in the end |
| `TenantSessions.EffectIsOwn` | alembic/versions/c4f7d2e91b50_add_row_level_security.py:35-39 | any statement writes rows of that tenant only |
| `TenantSessions.OwnOverlay` | alembic/versions/c4f7d2e91b50_add_row_level_security.py:35-39 | a tenant sees its own uncommitted writes over its committed rows |
| `TenantSessions.OtherOverlay` | alembic/versions/c4f7d2e91b50_add_row_level_security.py:35-39 | committing a tenant's writes changes nothing another tenant sees |
| `TenantSessions.BeginKeeps` | src/nexus/database.py:49-64 | after the hook the connection carries exactly the session's tenant, whatever it carried before |
| `TenantSessions.EndKeeps` | src/nexus/database.py:49-58 | a connection back in the pool carries no tenant |
| `TenantSessions.StepKeeps` | src/nexus/database.py:49-87 | every step whatever keeps: a connection in a transaction carries its holder's tenant, an idle one none, and uncommitted writes are the tenant's own |
| `TenantSessions.OwnStep` | src/nexus/database.py:49-87 | a session's step is, to its tenant, the step of a database of that tenant alone, with the same output, iff it is handed an idle connection and its insert meets no key of another company |
| `TenantSessions.CollisionTells` | alembic/versions/c4f7d2e91b50_add_row_level_security.py:35-39 | what such an insert tells: it is refused where it would have succeeded, and nothing is written |
| `TenantSessions.OtherStep` | src/nexus/database.py:49-87 | every step is invisible to every other tenant |
| `TenantSessions.RunsAsIfAlone` | src/nexus/database.py:49-87 | in every interleaving, whatever the other tenants do, one tenant's sessions get the results, and leave the rows, of running alone, if none of their own steps meets another tenant's connection or key |
| `TenantSessions.AloneIffAllowed` | src/nexus/database.py:49-87 | and at every moment of the run exactly then |
| `TenantSessions.NonInterference` | src/nexus/database.py:49-87 | runs that differ only in other tenants' rows and steps are the same to a tenant |
| `TenantSessions.OnlyOwnRowsChange` | src/nexus/database.py:49-87 | sessions bound to other companies, or to none, never change a company's rows, in any run |
| `TenantSessions.UnboundSeesNothing` | src/nexus/database.py:138-153 | an unbound session reads no rows and its commit changes none, whatever it tries |
| `SessionEngine.Engine.constructor` | src/nexus/database.py:40-47 | a fresh pool meets the invariant |
| `SessionEngine.Engine.OpenSession` | src/nexus/database.py:70 | opening, as the protocol has it |
| `SessionEngine.Engine.BeginTransaction` | src/nexus/database.py:49-64 | checkout and hook, as the protocol has them |
| `SessionEngine.Engine.ExecuteStatement` | alembic/versions/c4f7d2e91b50_add_row_level_security.py:35-39 | one statement under the policy takes the step of the protocol that `TenantStatements` describes |
| `SessionEngine.Engine.CommitTransaction` | src/nexus/database.py:148 | commit, as the protocol has it |
| `SessionEngine.Engine.RollbackTransaction` | src/nexus/database.py:74-76 | rollback, as the protocol has it |
| `SessionEngine.Engine.CloseSession` | src/nexus/database.py:152-153 | close, as the protocol has it |
| `SessionEngine.Engine.GetSession` | src/nexus/database.py:138-153 | for any body, committing or not: its steps, commit or rollback (also of a commit that fails), close; the session keeps no connection and no idle connection a tenant; a request that raised before committing changed nothing |
| `SessionEngine.Engine.TenantSession` | src/nexus/database.py:67-76 | the same, and nothing is committed that the body does not commit |
| `SessionTraces.OwnStepHidden` | src/nexus/database.py:67-76 | until it commits, no step of a session shows outside it |
| `SessionTraces.OtherStepSame` | src/nexus/database.py:67-76 | other sessions' steps go the same way, with the same output, without it, unless they meet its connection or a key only it has used |
| `SessionTraces.UncommittedLeavesNoTrace` | src/nexus/database.py:67-76 | in every interleaving, a session that never commits leaves the database and everything other sessions are given as if it had never been |
| `SessionTraces.EndsClosed` | src/nexus/database.py:143-153 | interleaved in any way, a session whose last step is its close ends closed |
| `SessionTraces.GetSessionAmongOthers` | src/nexus/database.py:138-153 | get_session interleaved with other sessions in any way: no connection kept, no tenant on an idle connection, and no trace of a request that raised before committing |
| `SessionTraces.TenantSessionAmongOthers` | src/nexus/database.py:67-76 | the same for tenant_session, with no trace unless the body commits |
| `ChatBackfill.ChatDatabase.Upgrade` | alembic/versions/d5e1a0c3b703_backfill_chat_sessions.py:102-145 | a message changes iff it had no session and its agent is in the table with the message's own company; every session added has an agent of its own company, every other one stays; messages are grouped in (created_at, id) order, one tagged session per group, every member linked and numbered from 1 |
| `ChatBackfill.MessagesLinked` | alembic/versions/d5e1a0c3b703_backfill_chat_sessions.py:110-113 | which messages are linked, with the condition written out |
| `ChatBackfill.SessionsOwned` | alembic/versions/d5e1a0c3b703_backfill_chat_sessions.py:122-138 | whose sessions are added |
| `ChatBackfill.ChatDatabase.AddGroup` | alembic/versions/d5e1a0c3b703_backfill_chat_sessions.py:122-145 | one group: its session row, then its links |
| `ChatBackfill.ChatDatabase.LinkMembers` | alembic/versions/d5e1a0c3b703_backfill_chat_sessions.py:140-145 | the n-th member gets the session and the number n |
| `ChatBackfill.GroupFacts` | alembic/versions/d5e1a0c3b703_backfill_chat_sessions.py:102-118 | the groups hold exactly the eligible messages, each in the group of its key, in order |
| `ChatBackfill.ChatDatabase.SelectTagged` | alembic/versions/d5e1a0c3b703_backfill_chat_sessions.py:150-154 | exactly the sessions with the tag |
| `ChatBackfill.ChatDatabase.ClearLinks` | alembic/versions/d5e1a0c3b703_backfill_chat_sessions.py:157-161 | links into the chunk are cleared with their numbers |
| `ChatBackfill.ChatDatabase.DeleteSessions` | alembic/versions/d5e1a0c3b703_backfill_chat_sessions.py:162 | the chunk's sessions go, and by cascade the messages still linked to them |
| `ChatBackfill.ChatDatabase.Downgrade` | alembic/versions/d5e1a0c3b703_backfill_chat_sessions.py:148-162 | the 500-at-a-time loop equals one bulk undo, in whatever order ids come: exactly the ws03 sessions go, exactly their messages lose session and number; no message is lost to the cascade |
| `ChatBackfill.UndoInTwo` | alembic/versions/d5e1a0c3b703_backfill_chat_sessions.py:155-162 | undoing two chunks in turn is undoing their union |
| `ChatRoundTrip.UpgradeIsBackfill` | alembic/versions/d5e1a0c3b703_backfill_chat_sessions.py:102-145 | what the upgrade leaves, message by message and session by session |
| `ChatRoundTrip.SharedSession` | alembic/versions/d5e1a0c3b703_backfill_chat_sessions.py:116-123 | two unlinked messages with agents of their own company get the same session iff company, agent and conversation agree; the session is new |
| `ChatRoundTrip.OthersUnchanged` | alembic/versions/d5e1a0c3b703_backfill_chat_sessions.py:90-113 | a message is left alone iff it was linked or has no agent of its own company |
| `ChatRoundTrip.NumbersAscend` | alembic/versions/d5e1a0c3b703_backfill_chat_sessions.py:113-144 | within a session seq follows (created_at, id) |
| `ChatRoundTrip.SessionOfMessage` | alembic/versions/d5e1a0c3b703_backfill_chat_sessions.py:124-138 | a message's session is idle, tagged "ws03", of its company, agent and conversation, spans its time, and its seq is in 1..event_seq |
| `ChatRoundTrip.NumbersComplete` | alembic/versions/d5e1a0c3b703_backfill_chat_sessions.py:134-144 | every number 1..event_seq is used; the first message sets started_at, the last last_activity_at |
| `ChatRoundTrip.RoundTrip` | alembic/versions/d5e1a0c3b703_backfill_chat_sessions.py:87-162 | downgrade after upgrade restores messages and sessions exactly iff no ws03 session was there before and no message to be linked had a seq |
| `ChatRoundTrip.InterimKept` | alembic/versions/d5e1a0c3b703_backfill_chat_sessions.py:148-162 | untagged sessions and their messages made in between are untouched by the downgrade |
| `ChatRoundTrip.UpgradeAndDowngrade` | alembic/versions/d5e1a0c3b703_backfill_chat_sessions.py:87-162 | the round trip, both ways of the equivalence, for the two methods run on one database |
| `MemoryBackfill.Filled` | alembic/versions/f1b7c9d2a508_memory_canonical_ingest_lifecycle.py:72-114 | trust is raised iff origin is api or human or trust is operator_supplied, and the row is not marked untrusted; each status exactly for the rows said to have it; the lifecycle stamp, with the row's own time, exactly for executive rows taken out of use; a known type is kept; hash, key and link as given; nothing but the new columns changes |
| `MemoryBackfill.MemoryTable.SelectPage` | alembic/versions/f1b7c9d2a508_memory_canonical_ingest_lifecycle.py:140-150 | the next ids in order; an empty page only when none are left |
| `MemoryBackfill.MemoryTable.Backfill` | alembic/versions/f1b7c9d2a508_memory_canonical_ingest_lifecycle.py:138-169 | for every batch size of at least 1 the loop ends, updates every row exactly once, and the table is the per-row map of the original table |
| `MemoryBackfill.MemoryTable.FillPage` | alembic/versions/f1b7c9d2a508_memory_canonical_ingest_lifecycle.py:154-169 | a page's rows, and no others, are filled |
| `MemoryBackfill.MemoryTable.FillRow` | alembic/versions/f1b7c9d2a508_memory_canonical_ingest_lifecycle.py:155-169 | one row is filled from original values, whichever rows were filled before |
| `MemoryBackfill.PageEnds` | alembic/versions/f1b7c9d2a508_memory_canonical_ingest_lifecycle.py:149-153 | moving `last` to the end of the page skips exactly the page |
| `MemoryBackfill.ConstraintsHold` | alembic/versions/f1b7c9d2a508_memory_canonical_ingest_lifecycle.py:155-169 | ingestion keys are unique; a row supersedes b iff it is an executive row whose metadata names b, another row of its company; the type is a known one |
| `MemoryBackfill.SourceFits` | alembic/versions/f1b7c9d2a508_memory_canonical_ingest_lifecycle.py:68-99 | a source id is there iff the source names a message or a turn with more than white space; it is the message's before the turn's, with its kind, cut to 128; a bare kind is kept, cut to 40; otherwise neither is filled in |
| `MemoryBackfill.TypeFits` | alembic/versions/f1b7c9d2a508_memory_canonical_ingest_lifecycle.py:43-49 | the type is the known one the metadata names, else that of the scope, else unknown |
| `Telemetry.Histogram.constructor` | src/nexus/telemetry.py:103-122 | a new histogram counts nothing |
| `Telemetry.Histogram.Observe` | src/nexus/telemetry.py:124-142 | after every observation the three dicts are what counting all observations afresh gives |
| `Telemetry.Histogram.FindBucket` | src/nexus/telemetry.py:137-140 | the loop finds the first bound not below the value |
| `Telemetry.Histogram.GetBuckets` | src/nexus/telemetry.py:156-175 | cumulative counts equal the plain count at the largest bound so far, also for labels never seen |
| `Telemetry.Histogram.Count` | src/nexus/telemetry.py:144-148 | the number of observations |
| `Telemetry.Histogram.Sum` | src/nexus/telemetry.py:150-154 | the sum of all observations |
| `Telemetry.Histogram.Collect` | src/nexus/telemetry.py:177-198 | one sample per label set ever observed, each with its plain counts, total and sum |
| `Telemetry.BucketWithin` | src/nexus/telemetry.py:137-140 | a value is in one of the first buckets iff it is at most their largest bound |
| `Telemetry.ObservedCounts` | src/nexus/telemetry.py:135-142 | incrementing one counter keeps every cumulative count right |
| `Telemetry.CountsOwnBoundIffAscending` | src/nexus/telemetry.py:103-142 | the reported count is that of values at most the bound itself, for every history, iff the bounds ascend |
| `Telemetry.CountsRise` | src/nexus/telemetry.py:156-175 | counts do not fall with the bound and never exceed the total |
| `Supervisor.StartKeeps` | src/nexus/supervisor.py:100-120 | start's locked steps keep the invariant: a child is spawned only when none is alive |
| `Supervisor.StopKeeps` | src/nexus/supervisor.py:137-151 | so do stop's: `_proc` is cleared only when its child is dead or outlived the terminate |
| `Supervisor.ProcReadKeeps` | src/nexus/supervisor.py:83-93 | so do status's reads of `_proc`, inside the lock or not |
| `Supervisor.UptimeKeeps` | src/nexus/supervisor.py:95 | so do its two reads of `_started_at` |
| `Supervisor.StepKeeps` | src/nexus/supervisor.py:60-156 | every step of every thread, and every death, keeps it; what whole requests come to, `SupervisorAlone` says |
| `Supervisor.RunOk` | src/nexus/supervisor.py:60-156 | so it holds in every interleaving |
| `Supervisor.LiveChildIsProc` | src/nexus/supervisor.py:100-179 | a live child is the one `_proc` refers to or survived its terminate |
| `Supervisor.AtMostOneBackend` | src/nexus/supervisor.py:100-179 | if every terminate works, at most one child is alive, and `_proc` refers to it |
| `Supervisor.LiveIsProcIffNoStray` | src/nexus/supervisor.py:100-179 | every live child is the one `_proc` refers to iff every live child that outlived its terminate is |
| `Supervisor.LockProtects` | src/nexus/supervisor.py:100-151 | mutual exclusion; `_proc` and `_started_at` are set together whenever the lock is free |
| `Supervisor.FailsOnlyUnlocked` | src/nexus/supervisor.py:70-96 | a request fails with AttributeError iff it reads `_proc` a second time, outside the lock, after it was cleared, and with TypeError iff it so reads `_started_at` |
| `Supervisor.NoStopNoFailure` | src/nexus/supervisor.py:70-135 | without stop or restart no request ever fails |
| `Supervisor.StopCanFailAStatus` | src/nexus/supervisor.py:70-96 | from any state with a live child, a stop can make a status request fail |
| `Supervisor.StopCanFailTheUptime` | src/nexus/supervisor.py:95 | likewise between the two reads of `_started_at` |
| `Supervisor.SurvivorMakesTwo` | src/nexus/supervisor.py:100-120 | in any run, once `_proc` is cleared and a child still alive, a start makes one more live child, so at least two |
| `Supervisor.SurvivorReached` | src/nexus/supervisor.py:137-179 | a terminate that leaves its process alive leads there |
| `SupervisorAlone.RestartSpawns` | src/nexus/supervisor.py:153-156 | from any run with the lock free, a restart on its own, with failing probes and a terminate that works, spawns exactly one child; `_proc` is that child, alive and stamped, and the one before it is gone |
| `SupervisorAlone.StartSpawnsIffNeeded` | src/nexus/supervisor.py:100-135 | a start on its own spawns one child, alive and stamped, iff `_proc` is None or dead and the probe fails; otherwise it changes nothing |
| `SupervisorAlone.StopStops` | src/nexus/supervisor.py:137-151 | a stop on its own leaves no `_proc`, no stamp and, if its terminate works, no child of its own |
| `SupervisorAlone.StatusOnlyReads` | src/nexus/supervisor.py:83-96 | a status on its own changes nothing and does not fail |
| `SupervisorAlone.PollEnds` | src/nexus/supervisor.py:122-135 | the wait for a healthy backend ends after at most 40 turns |
| `BudgetSums.UpdatesAdd` | src/nexus/services/budget_service.py:531-546 | the updates of one pass, each stopping at 0, come to one by their sum |
| `BudgetBooks.StepKeeps` | src/nexus/services/budget_service.py:288-553 | every statement, commit and abort keeps what each transaction relies on: its locks, the cents it saw, the room it found |
| `BudgetBooks.SettleBalance` | src/nexus/services/budget_service.py:412-506 | committing or releasing a hold keeps the counter the sum of the live holds, and never stops at 0 |
| `BudgetBooks.ReserveBalance` | src/nexus/services/budget_service.py:314-360 | so does reserving |
| `BudgetBooks.ReserveWithin` | src/nexus/services/budget_service.py:319-334 | and the guarded update never books beyond the amount, whatever happens between it and the commit |
| `BudgetBooks.ReapBalance` | src/nexus/services/budget_service.py:508-553 | a reap pass keeps the counter iff it takes off exactly what it releases, or takes off more while nothing else is live |
| `BudgetBooks.StepSound` | src/nexus/services/budget_service.py:288-553 | one step keeps counter and limit iff it is no such late pass and no settlement beyond its hold and all that is left |
| `BudgetBooks.BooksKeptIff` | src/nexus/services/budget_service.py:288-553 | in every interleaving, counter and limit hold at every moment iff no step is one of the two |
| `BudgetBooks.NeverOverbooked` | src/nexus/services/budget_service.py:288-553 | then live holds and spending together never exceed the amount |
| `BudgetBooks.PassesOverlap` | src/nexus/services/budget_service.py:508-553 | from any quiet state with a due hold, two passes that both select it leave the counter too low iff other cents are live |
| `BudgetAlone.ReserveAlone` | src/nexus/services/budget_service.py:288-360 | beside no other transaction, a reserve is granted iff the cents fit beside what is spent and held; the hold is then there and counted |
| `BudgetAlone.SettleAlone` | src/nexus/services/budget_service.py:412-506 | a commit or release of a live hold takes it off the counter, books what was spent and closes it; of any other hold it changes nothing |
| `BudgetAlone.ReapAlone` | src/nexus/services/budget_service.py:508-553 | a pass releases exactly the live holds that are due and takes their cents off |

## Left out

- Chunk runner: discovery, filters, argument and configuration checks, the printed and JSON summaries, output paths. The text of `--chunks` is taken as already split, each part a number or not.
- Manifest: JSON text, size limits and the steps inside `atomic_write`; replacing the manifest is one step. Values of unexpected JSON types, which `int()`, `str()` and `bool()` in `from_json` partly convert, count as malformed. `1`, `1.0` and `True` are not identified as they are by Python's `==`.
- Campaigns: runs without `--manifest`, and two runners at once over one manifest. Assignments no claim tells apart are one step: duration, counts and error; status and signal of an interrupted chunk; the stop flags.
- GitStatus.ReadsWhatGitPrints: lists with a rename in the worktree column only; `ReadRightIffAllInIndex`, `OriginLost`, `WorktreeRenameMisread` and `NextEntrySwallowed` say what happens to them.
- GitStatus: the decoding of bytes to text is a parameter.
- Migration graph: reading `revision` and `down_revision` from the syntax tree, choosing the versions directory, table counts. Ids are any totally ordered type.
- Audit chain: SHA-256 (an arbitrary, where needed injective, function), the text forms of ids and times, the `migration` entry in a seal's details, index and row-security statements around the sealing, the downgrade.
- Tenant sessions: the SQLite branch, savepoints, roles and grants, row locks and waiting for concurrent updates, commits whose outcome stays unknown, pool timeouts, `assert_role_rls_posture`, `tenant_scope`. A key once used stays used, in the shared database as in the one-tenant one, even after its row is deleted or its insert rolled back. Statements read the rows committed so far.
- Chat backfill: the count of unassociable messages that is logged, and cascades to tables other than the messages.
- Memory backfill: the schema changes around it, `source_created_at` and the other columns it leaves to defaults; UUID parsing and the content hash are parameters.
- Histogram: the lock, floating-point rounding and NaN (values are reals), the order of samples, `Counter`, the registry and the rendering.
- Backend controller: modelled as steps of several threads rather than as a class, because the claims are about interleavings; the HTTP handler, the response texts and values, and a `Popen` that raises are left out, health probes answer arbitrarily, and `_kill_port` acts only through children that die.
- Budget holds: one policy at a time; the budget window, `record_cost` (a check and then an addition, without a guard), the chain of scopes, usage reports and `reconcile_budget_counters`. A reap pass's expiry test is the set of ids that expire by its `now`.
- Chat turns, task attempts and the tool-effect ledger (`src/nexus/runtime/chat_turns.py`, `src/nexus/runtime/task_attempts.py`, `src/nexus/tools/effects.py`): their claims, leases and epochs are protocols of their own and not part of this model.
- Dashboard, CI scripts, configuration and plain table migrations: no further algorithm, or only a schema.
