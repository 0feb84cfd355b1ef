# FrostBuild, verified models

A Dafny project beside the FrostBuild sources. It models the shortcuts FrostBuild takes, and proves
that each agrees with the slow path it replaces:

- **Planner and parallel scheduler** (`frost.py`): `Digraph`, `Planner`, `Scheduler`, `Executor`, `Endings`, `Runs`,
  `Incremental`, `Sessions`, `Recovery`, `Mishaps`, `Slots`, `Makespan`. Which targets an edit touches, the greedy
  concurrent loop over them, what the end of that loop depends on, what one build hands on to the next over whole
  sessions of edits, builds and failures, and how good the schedule is. Whatever timing decides in a real run (which
  worker steps next, which futures are done) is a nondeterministic choice, so the contracts hold for every interleaving.
  `Executor.Next` is the loop as a relation of single steps; `execute_plan` is proved to follow it, and where a run is
  said to exist it is one of its executions, whichever rule picks among the ready actions of highest priority.
- **Watcher barrier** (`crates/frostbuild-daemon/src/lib.rs`): `Daemon` has the locked sections as methods of one
  object, each tied to a function on values; `BarrierProtocol` interleaves those functions with outside writers and a
  FIFO event queue, step by step; `BarrierTrace` says what a response means in terms of the run; `FrostdServer` is the
  server thread, whose methods drive the shared object along a run of that protocol.
- **Content-addressed store** (`fastcdc.rs`, `cas.rs`): `Word64`, `FastCdc`, `Store`, `Cas`. Every access of `LocalCas`
  to the shared directory is preceded by a method `Others` that changes the store in any way its setting allows:
  not at all (Alone), as the other workers of the same call may (Peers), by adding (Helped), or in any way that keeps a
  good store good, collections included (Contended); a damaged store is allowed in every one of them. A method must leave
  the store as its setting asks before each such call, so the proofs hold under every interleaving.
- **Graph algorithms** (`graph.rs`): `Toposort`, `SharedSets`, `BuildGraph`, `Queries`.
- **Caches and codecs** (`hashcache.rs`, `journal.rs`, `lib.rs`, `jar.rs`, the JAR reader of `main.rs`): `HashCache`,
  `Journal`, `Decimal`, `ActionKey`, `JarManifest`. `Wrappers` has options, results and bytes.

`dafny verify dfyconfig.toml` checks everything.

## What the models assume

- Digests of the store are free constructors over their input: two are equal exactly when the inputs are, and no other
  file name is one. In the planner SHA-256 need only tell the old and new version of each source apart.
- zstd, postcard and JSON are parameters. A zstd frame is never empty. Decoding undoes encoding of the journal
  records in play, whose payloads are below 4 GiB. That a patch reproduces its target is not assumed: the code checks
  it, and so does the model.
- An action fails depending on its target and source text only, before it writes anything.
- Rename, remove and the replacement of a destination file are atomic steps. Memory is sequentially consistent.
- Watcher events are queued as the change happens and delivered in order; only the daemon writes marker files; counters
  do not wrap.
- Action durations are positive whole numbers; the heap pops a ready action of highest priority.
- Strings of action keys are read as their UTF-8 bytes. Unicode has no CR or LF among its alphabetic and numeric
  characters.

## Where the code does not do what one might expect

- `execute_plan` saves the digests of all sources although actions failed. Which actions fail or are skipped is known
  before the run: the selected targets with a failing selected target at or below them (`Endings.DoomedExactly`). The
  saved digests describe the outputs on disk exactly if none of these has a stale output
  (`Incremental.FinishedIsTracked`).
  The next build without edits selects nothing and reports success, rightly so exactly if nothing had failed
  (`Sessions.FailuresAreForgotten`; `Mishaps.ForgottenFailure` is a project it happens to).
- A build without keep_going is cut short exactly if some selected target asks for failure (`Endings.AbortsExactly`). It
  saves nothing, although it may have written outputs of selected targets with no failing one at or below them; others
  it never writes (`Endings.DoomedIsUntouched`). The old digests still describe the disk after every run if the edit
  makes no difference to those outputs (`Incremental.HandsOn`; per run and exactly `Incremental.AbortedIsTracked`). The
  condition is exact where there are more slots than failing targets with nothing failing below them: then all the
  rest can be written while these hang (`Runs.LateAbortExists`, `Incremental.HandsOnWithSlots`), so it is exact over all
  numbers of slots (`Incremental.HandsOnExactly`). With fewer slots it need not be: if the failing actions of highest
  priority fill the slots at once, nothing is written (`Runs.CrowdWritesNothing`, `Slots.TwinExample`). When the edit is
  taken back, the next build does nothing and leaves what was written (`Sessions.InterruptedIsForgotten`,
  `Mishaps.OutputAhead`, `Mishaps.AheadExample`).
- What holds all the same: `Sessions.SessionIsCorrect` over sessions without such builds, and over sessions with any
  number of failures `Recovery.LongSessionIsRight`, output by output: a build that runs to its end leaves every output
  right unless a source at or below it asks for failure, and all is right again as soon as none does.
- `FastCdc::new` accepts a minimum of one byte, and then a chunk may be empty: `FastCdc.EmptyCutExactly` says exactly
  when; the iterator of the chunker in `FastCdc.StallsForever` returns the same empty chunk without end.
- A `put` that finds a manifest does not look whether its chunks still exist, so a blob whose chunks were collected
  stays unrestorable once its object goes: the fourth ensures of `Cas.LocalCas.Put` is the exact condition, and
  `Cas.PutTwiceAndLose` gets there from an empty store, with serial and parallel chunk work alike.
- A worker that finds a chunk damaged removes the file by name. If another worker of the call, which uses the chunk as
  well, has removed and rebuilt it in between, the rebuilt chunk goes: both read the damaged file, the fast one removes
  it and publishes a good one, the slow one removes that (`Cas.SlowWorkerUndoesRepair`). So with interleaved workers it
  is not only entries that fail their check that go; what passed its check when the call began stays (`Peers`).
- A `Journal` that saves while its writer is open sends later records to the replaced file: `Journal.Journal.Record` and
  `Journal.Journal.Save` say exactly when a record is lost, and `Journal.RecordAfterSaveIsLost` loses one.
- A record appended to a journal is read back if nothing follows the last whole frame. Behind a torn tail
  `Journal.AppendExactly` has all cases: a tail that still makes no frame hides the record (`TornTailLosesRecords`,
  `TornLengthLosesRecord`, `BadFrameLosesRecords` give the tails a crash leaves), and otherwise a record is read across
  the tear, possibly one that nobody wrote (`TornTailIsMisread`), although the decoder's comment promises never a false
  record. A file cut inside the magic number is not given it again (`NoMagicLosesRecords`, `TornMagicLosesRecords`).
- `push_action` indexes past the actions when one action lists an output twice, which manifest validation lets through:
  `BuildGraph.Graph.PushAction` says exactly when, `BuildGraph.RepeatedOutputPanics` is the smallest case.

## Model

| member | source | states |
|---|---|---|
| Planner.TargetClosure | frost.py:264-274 | the visited set is exactly what the roots reach along dependencies |
| Planner.ReverseClosure | frost.py:276-286 | the breadth-first set is exactly the targets that depend, directly or not, on a root |
| Planner.DetectChangedSources | frost.py:504-528 | explicit paths win; without saved digests everything changed; else exactly the sources whose digest differs, and exactly the targets that use one of them |
| Planner.BuildPlan | frost.py:530-567 | affected is the closure part of what depends on a change; the selection is the least set with the affected targets of the wanted kinds that is closed under dependencies whose outputs are missing; pruned is the rest |
| Planner.CompleteSelection | frost.py:553-564 | the repair loop ends in the least such extension |
| Scheduler.PopReady | frost.py:1227-1230 | a ready action, of highest priority under the critical-path policy |
| Scheduler.Complete | frost.py:1268-1275 | the new ledger is the one the step relation uses: after a success exactly the users with nothing left to wait for, and not skipped, become ready; the ledger invariant is kept |
| Scheduler.Fail | frost.py:1250-1267 | a failure moves every direct user to skipped and out of reach of the ready set |
| Scheduler.NothingStartedIsBlocked | frost.py:1240-1275 | no action that was started has a failed transitive dependency |
| Scheduler.QuietMeansBlocked | frost.py:1240-1275 | when nothing is ready and nothing runs, whatever neither completed nor failed has a failed transitive dependency |
| Scheduler.GoodLogMeaning | frost.py:1240-1275 | a good log, event by event: one start at most per action, each start after all selected dependencies finished well, never more running than slots |
| Executor.Advance | frost.py:1009-1113 | every step a worker may take: raise exactly if the source asks for failure, read the source, read the dependency outputs one by one, write the output in place (not atomically) |
| Executor.CleanAgrees | frost.py:1009-1080 | the clean output of a target depends only on the sources below it |
| Executor.StepKeepsDiskInv | frost.py:1009-1113 | a worker step, with the others mid-write, keeps finished outputs clean and everything but outputs being or having been written untouched |
| Executor.DependencyIsFinal | frost.py:1058-1064 | when a running action reads a dependency output it is there, and it is what the run gives that dependency or, outside the selection, what was on disk before; so the missing-dependency error is not reached |
| Executor.Round | frost.py:1240-1275 | one pass of the loop keeps the books, the log and the disk invariant, and makes progress |
| Executor.BlockRest | frost.py:1277-1286 | skipped ends as exactly the targets with a failed transitive dependency |
| Executor.ExecutePlan | frost.py:1178-1291 | the loop ends; its log is good; only outputs of selected targets change; completed, failed and skipped partition the selection and skipped is exact; from a sound start completed outputs are what the selection, the sources and the outputs outside it make them, failing and unstarted ones untouched, an action fails exactly if its source asks for it, no dependency is ever missing, and no output is left torn, not even by a run that is cut short; an incomplete build means a cycle; and its end is that of an execution of the loop, step by step |
| Executor.NextKeepsInv | frost.py:1239-1275 | every step of the loop and of its workers, in whatever stage the scheduling thread is, keeps books, log and disk in order |
| Executor.ExecutionsKeepPromise | frost.py:1178-1291 | so every execution, under every rule for picking among ready actions and every interleaving, has the outcome promised of execute_plan |
| Executor.Drain | frost.py:1239-1264 | leaving the pool early waits for the submitted actions, which go on stepping in any order |
| Endings.GroundedIsClean | frost.py:1009-1080 | a run gives a target its clean output if whatever is read below it from outside the selection is a clean output |
| Endings.DoomedExactly | frost.py:1250-1286 | before the run: the failed and skipped of a complete run are exactly the selected targets with a failing selected target at or below them; the failed are those whose only such target is themselves |
| Endings.AbortsExactly | frost.py:1250-1264 | before the run: it is cut short exactly if it may not go on and some selected target asks for failure |
| Endings.DoomedIsUntouched | frost.py:1178-1291 | however a run ends, it leaves alone every target outside the selection or with a failing selected target at or below it |
| Endings.ScheduleIndependent | frost.py:1240-1286 | two complete runs of one sound job, on any slots, policies and interleavings, end with the same completed, failed and skipped sets and the same disk |
| Runs.RunOut | frost.py:1239-1286 | from wherever the thread may launch or wait, whatever the rule for picking, the loop can be brought to its end |
| Runs.FullRunExists | frost.py:1240-1286 | if a run need not be cut short, some execution goes to its end |
| Runs.LateAbortExists | frost.py:1239-1264 | if it has to be, and there are more slots than failing actions with nothing failing below them, some execution has by then written everything it may, whatever the rule for picking |
| Runs.CrowdWritesNothing | frost.py:1227-1264 | but if failing actions of highest priority fill all the slots at once, every execution is cut short before anything is written |
| Incremental.UnaffectedIsUnchanged | frost.py:388-397 | a target outside the affected set has the same clean output before and after the edit |
| Incremental.PlanIsSound | frost.py:530-567 | every plan of a proper invocation, whatever was saved, can be executed soundly: dependencies outside the selection are on disk |
| Incremental.PlanIsSupplied | frost.py:530-567 | and if the saved digests describe the disk, they are clean |
| Incremental.SuccessIsClean | frost.py:1178-1291 | after a build without failures every output of the closure that was there or was selected is clean |
| Incremental.Build | frost.py:504-1291 | plan, any interleaving of the run, and the digests saved or not: a successful build leaves clean outputs and a state in step with the disk, even if it saved none because nothing was selected; it succeeds exactly if no source of the closure asks for failure |
| Incremental.FinishedIsTracked | frost.py:1287-1291 | after a run to the end the saved digests describe the outputs on disk exactly if no selected target with a failing selected target at or below it had a stale output before |
| Incremental.AbortedIsTracked | frost.py:1263-1264 | after a run cut short the old digests still describe the outputs on disk exactly if every output written is also that of the old sources; and only targets with no failing selected target at or below them are written |
| Incremental.HandsOn | frost.py:1191-1291 | under the condition on the files before the build that fits its end, every run hands on a state in step with the disk; a complete run does so only then |
| Incremental.HandsOnWithSlots | frost.py:1191-1291 | for a plan that does not give up, or has more slots than failing actions with nothing failing below them: that condition holds if and only if every execution leaves the state in step with the disk, whatever the rule for picking |
| Incremental.HandsOnExactly | frost.py:1191-1291 | for every plan: it holds if and only if, with every number of slots, every execution does |
| Incremental.CrowdStaysTracked | frost.py:1227-1264 | where failing actions of highest priority fill all the slots at once, every execution does, whether the condition holds or not |
| Slots.HarmlessForWantOfSlots | frost.py:1227-1264 | two targets that do not depend on each other and one slot: the condition fails, and every execution leaves the state in step |
| Slots.TwinExample | frost.py:1227-1264 | a concrete such project, and a build of it that is cut short with the fine target never started |
| Incremental.VerdictIsRight | frost.py:1240-1291 | if nothing asked for failure in the sources the digests are about, whatever the outputs, the build succeeds exactly if no source of the closure asks for failure, as a full build would |
| Incremental.IncrementalEqualsClean | frost.py:504-1291 | with all outputs in place, an incremental build and a full build reach the same verdict, and if successful agree on every output of the closure, whatever the two schedules were |
| Sessions.SessionIsCorrect | frost.py:504-1291 | over every sequence of edits and builds: as long as each build so far succeeded, or was cut short where the edit made no difference to what it might write, the next one succeeds exactly if a full build would, and then every output on disk is clean |
| Sessions.TrackedAt | frost.py:504-1291 | the digests stay in step with the disk through every sequence of edits and honest builds |
| Sessions.FailuresAreForgotten | frost.py:1287-1291 | after a run to the end a build without edits selects nothing and reports success; that is right exactly if the first had no failure |
| Sessions.InterruptedIsForgotten | frost.py:1263-1264 | after a run cut short and the edit taken back, a build does nothing, and an output written meanwhile stays that of the edit |
| Mishaps.ForgottenFailure | frost.py:1287-1291 | an application and its library: a keep-going build reports the failure, and the failed targets keep the outputs they had; the next build of the same files reports success |
| Mishaps.ForgottenExample | frost.py:1287-1291 | the same for one concrete project whose library turns bad, by any choice of names, paths and texts |
| Mishaps.OutputAhead | frost.py:1263-1264 | an application and its library: the first build stops halfway, the edits are taken back, the second build reports success over a stale library |
| Mishaps.AheadExample | frost.py:1263-1264 | the same for one concrete project whose library gets better while its application turns bad |
| Recovery.UnexcusedIsGrounded | frost.py:530-567 | even if failures left stale outputs behind, whatever a selected target with no failing source at or below it reads from outside the selection is clean |
| Recovery.NewFailureDooms | frost.py:388-397 | a request for failure that is new since the digests were saved is found, and every target above it is selected and doomed |
| Recovery.FinishedIsRight | frost.py:1178-1291 | a complete run leaves every output right unless a source at or below it asks for failure, whatever earlier failures left behind |
| Recovery.FinishedHandsOn | frost.py:1287-1291 | so every complete run, with or without failures, hands on digests that describe every output but those with a failing source at or below them |
| Recovery.MildWithSlots | frost.py:1239-1291 | for a plan that does not give up, or has more slots than failing actions with nothing failing below them: every execution hands that on if and only if it does not give up, or the edit makes no difference to the outputs it may write that no old failure excuses |
| Recovery.MildExactly | frost.py:1239-1291 | for every plan: that condition holds if and only if, with every number of slots, every execution hands it on |
| Recovery.RepairedIsClean | frost.py:504-1291 | once no source of the closure asks for failure the build succeeds and every output on disk is right, whatever failed before |
| Recovery.SuccessHidesOldFailures | frost.py:504-1291 | a success leaves only failures unreported that the sources behind the saved digests asked for as well |
| Recovery.LongSessionIsRight | frost.py:504-1291 | `FinishedIsRight`, `SuccessHidesOldFailures` and `RepairedIsClean` over every sequence of edits, builds and failures in which no build gave up over an edit that mattered to what it might write |
| Makespan.CriticalPathPriorities | frost.py:1141-1157 | the memoised recursion solves the score equations for every action |
| Makespan.ChainBelowScore | frost.py:1149-1157 | no chain of dependent actions takes longer than the score of its first action |
| Makespan.ScoreIsAttained | frost.py:1149-1157 | some chain takes exactly that long |
| Makespan.IdleTick | frost.py:1240-1247 | a time unit with a free slot shortens every longest remaining chain by one |
| Makespan.GreedyRun | frost.py:1240-1275 | for every order of launches and collections: no slot is free while an action is ready, and the makespan T satisfies T >= C, m*T >= W and m*T <= W + (m-1)*C, with W the sum of the durations and C the longest chain |
| Daemon.MarkerIsRecognised | crates/frostbuild-daemon/src/lib.rs:258-270 | the callback reads back every marker the daemon writes as its own number |
| Daemon.SharedState.OnEvent | crates/frostbuild-daemon/src/lib.rs:173-206 | the callback: a backend error distrusts for good, markers raise barrier_seen, .git is ignored, other paths become dirty and drop the proof |
| Daemon.DistrustIsFinal | crates/frostbuild-daemon/src/lib.rs:175-182 | once trust is gone no key is answered from the proof and the gate stays shut, whatever the callback is told next |
| BarrierProtocol.StepKeepsInv | crates/frostbuild-daemon/src/lib.rs:173-498 | every step of writers, queue, callback and server keeps the protocol invariant |
| BarrierProtocol.RunKeepsInv | crates/frostbuild-daemon/src/lib.rs:173-498 | the invariant holds in every world of every run |
| BarrierProtocol.MarkKeepsInv | crates/frostbuild-daemon/src/lib.rs:284-287 | when the marker is written, the queue ahead of it leads exactly to the workspace of that moment |
| BarrierProtocol.DeliverKeepsInv | crates/frostbuild-daemon/src/lib.rs:173-206 | delivering an event moves the described workspace along and drops whatever no longer holds |
| BarrierProtocol.HitsAreSound | crates/frostbuild-daemon/src/lib.rs:333-415 | a cached hit: the workspace its marker stands for is, for builds, the one the proof was validated on, and every file read still has that content; a trusted full hit: its scan read one workspace, which its second marker stands for, too |
| BarrierTrace.CachedHitInTrace | crates/frostbuild-daemon/src/lib.rs:333-371 | the request was accepted at a step a, and at a later step k before the response a marker was written; at k the visible workspace was the one in which the scan behind the proof began, and every relevant reading of that scan, each made by a step of the run, still held |
| BarrierTrace.MarkIsInTrace | crates/frostbuild-daemon/src/lib.rs:275-313 | the workspace a barrier passed on is that of the step that wrote its marker |
| BarrierTrace.FullHitInTrace | crates/frostbuild-daemon/src/lib.rs:373-415 | the request was accepted at a, its scan began at b after that, all its readings were made before a marker was written at k, and at k the workspace was still the one at b and held all of them |
| BarrierTrace.ProofIsInTrace | crates/frostbuild-daemon/src/lib.rs:386-414 | a stored proof comes from a scan of the run, its readings included |
| BarrierProtocol.UntrustedForever | crates/frostbuild-daemon/src/lib.rs:175-182 | once untrusted, always untrusted, and every later hit comes from the ordinary certificate path |
| FrostdServer.Server.WatcherBarrier | crates/frostbuild-daemon/src/lib.rs:275-313 | the code of the barrier follows the protocol step by step on the shared object, and returns true exactly if the protocol barrier passed |
| FrostdServer.Server.TryCachedNoop | crates/frostbuild-daemon/src/lib.rs:333-371 | serves one sound cached hit for this key, or falls through to the full path, or fails, with no hit |
| FrostdServer.Server.TryFullNoop | crates/frostbuild-daemon/src/lib.rs:373-415 | serves one sound full hit for this key, or falls through to the child build, or fails, with no hit |
| FrostdServer.Server.Handle | crates/frostbuild-daemon/src/lib.rs:456-520 | an up-to-date answer has one new sound hit for the requested key behind it; any other answer has none |
| FrostdServer.Server.Serve | crates/frostbuild-daemon/src/lib.rs:208-220 | over any list of requests and any interleaving with the outside, every up-to-date answer has a sound hit of its own for its key behind it |
| Word64.AddWraps | crates/frostbuild-core/src/fastcdc.rs:102-108 | addition on bit lists is addition modulo two to the width |
| Word64.Shl1Doubles | crates/frostbuild-core/src/fastcdc.rs:102-108 | shifting doubles and drops the top bit |
| Word64.AddOfShifted | crates/frostbuild-core/src/fastcdc.rs:102-108 | shifting distributes over wrapping addition |
| Word64.PassesShifted | crates/frostbuild-core/src/fastcdc.rs:96-98 | a shifted mask tests the same bits of a shifted word when the mask's top bit is clear |
| FastCdc.MaskFor | crates/frostbuild-core/src/fastcdc.rs:76-82 | no mask of the shipped table uses the top bit |
| FastCdc.NewIsValid | crates/frostbuild-core/src/fastcdc.rs:53-82 | an accepted chunker has an even average of at least 32 and masks with a clear top bit |
| FastCdc.BoundaryIsUnique | crates/frostbuild-core/src/fastcdc.rs:85-124 | there is one index that is the least to clear its mask, or the capped end |
| FastCdc.FirstCutIsBoundary | crates/frostbuild-core/src/fastcdc.rs:85-124 | the reference scan, one byte a step, finds it |
| FastCdc.HalfStep | crates/frostbuild-core/src/fastcdc.rs:101-111 | after the first half of a doubled step the loop holds the reference hash shifted left, and its test is the reference test |
| FastCdc.DoubleStep | crates/frostbuild-core/src/fastcdc.rs:101-111 | a doubled step answers as two reference steps |
| FastCdc.Roll | crates/frostbuild-core/src/fastcdc.rs:101-122 | a stepped loop returns the least clearing index of its range, or the hash at its end |
| FastCdc.Boundary | crates/frostbuild-core/src/fastcdc.rs:85-124 | the two-bytes-a-step loop returns the reference cut |
| FastCdc.EmptyCutExactly | crates/frostbuild-core/src/fastcdc.rs:85-111 | a first chunk is empty exactly when the minimum is one byte, two bytes are there and the first byte's gear clears the small mask |
| FastCdc.StallExists | crates/frostbuild-core/src/fastcdc.rs:53-82 | a chunker that new returns, with minimum 1 and the gear of some byte as seed, cuts an empty first chunk off two such bytes |
| FastCdc.StallsForever | crates/frostbuild-core/src/fastcdc.rs:141-153 | its iterator returns the empty chunk at offset 0 as often as it is asked |
| FastCdc.CutAdvances | crates/frostbuild-core/src/fastcdc.rs:85-124 | with a minimum of two or more every cut advances, stays within the maximum, and a non-final one reaches the rounded minimum |
| FastCdc.ChunksPartition | crates/frostbuild-core/src/fastcdc.rs:141-153 | the chunks tile the input; each is at most the maximum and, but for the last, at least the rounded minimum |
| FastCdc.Chunks.Next | crates/frostbuild-core/src/fastcdc.rs:142-153 | the iterator yields the cut of what remains and moves past it; what remains afterwards is the rest of the chunking |
| FastCdc.Collect | crates/frostbuild-core/src/fastcdc.rs:142-153 | draining it yields the partition with its offsets, and ends |
| FastCdc.ResumeAtCut | crates/frostbuild-core/src/fastcdc.rs:85-153 | chunking from a cut on is chunking of the rest |
| FastCdc.CommonSuffixSameChunks | crates/frostbuild-core/src/fastcdc.rs:85-153 | if a cut falls at the start of a common suffix in both inputs, all later chunks coincide |
| FastCdc.CutIsLocal | crates/frostbuild-core/src/fastcdc.rs:85-124 | a non-final cut depends only on the bytes up to two past it |
| FastCdc.CommonPrefixSameChunks | crates/frostbuild-core/src/fastcdc.rs:85-153 | every non-final chunk that ends two bytes or more before the first difference is a chunk of both inputs |
| Store.CheckedIsTotal | crates/frostbuild-core/src/cas.rs:815-817 | the checked sum is the sum, or nothing on overflow |
| Store.StepKeepsGood | crates/frostbuild-core/src/cas.rs:169-447 | a justified file step keeps every object, chunk and patch hashed to its name and every manifest faithful |
| Store.RunKeepsGood | crates/frostbuild-core/src/cas.rs:169-632 | after any sequence of such steps, of any number of processes, the store is good |
| Cas.RangesApart | crates/frostbuild-core/src/cas.rs:474-482 | the ranges of different chunk references do not overlap |
| Cas.PlacedIsContents | crates/frostbuild-core/src/cas.rs:471-499 | once all ranges are written, in whatever order, the file is the concatenation |
| Cas.LastMaxIsBest | crates/frostbuild-core/src/cas.rs:721-732 | the fold keeps the last of the largest positive overlaps |
| Cas.PositionalBaseIsBest | crates/frostbuild-core/src/cas.rs:716-733 | the base is the last reference that covers most of the target range; there is none exactly when no reference touches it |
| Cas.PreparedIsFaithful | crates/frostbuild-core/src/cas.rs:279-292 | a manifest of prepared chunks passes validation and concatenates to the blob it names |
| Cas.DefaultChunkerIsValid | crates/frostbuild-core/src/fastcdc.rs:40-50 | the default parameters are accepted |
| Cas.LocalCas.PublishChunk | crates/frostbuild-core/src/cas.rs:324-341 | the chunk is there afterwards and the store stays good |
| Cas.LocalCas.PublishManifest | crates/frostbuild-core/src/cas.rs:343-360 | a manifest is published once, and a faithful one keeps the store good |
| Cas.LocalCas.BuildPositionalDelta | crates/frostbuild-core/src/cas.rs:381-423 | a returned patch turns the positional base into the target and is smaller than plain compression |
| Cas.LocalCas.PrepareChunk | crates/frostbuild-core/src/cas.rs:295-322 | the reference names exactly these bytes, and the chunk is stored |
| Cas.LocalCas.PrepareAll | crates/frostbuild-core/src/cas.rs:265-278 | in any order of the workers the references come out in index order, one per chunk; it fails only over a patch; with the other workers of the call interleaved (Peers) no entry that passed its check is lost |
| Cas.LocalCas.PreviousManifest | crates/frostbuild-core/src/cas.rs:362-368 | the manifest of the path's last blob, only if it validates |
| Cas.LocalCas.PutChunks | crates/frostbuild-core/src/cas.rs:247-293 | the manifest is faithful if the object was; chunks and manifest are there afterwards |
| Cas.LocalCas.Put | crates/frostbuild-core/src/cas.rs:169-202 | a wrong digest is refused and leaves nothing; the store stays good under interference; with the right digest and nobody taking entries away it fails only over a patch; alone, a large blob is restorable from chunks afterwards exactly if it had no manifest yet or already was |
| Cas.LocalCas.ReconstructDelta | crates/frostbuild-core/src/cas.rs:538-569 | verified bytes or nothing; on a good store exactly when patch and base survive, and then the chunk is added |
| Cas.LocalCas.FetchChunk | crates/frostbuild-core/src/cas.rs:519-533 | verified bytes of the stated length; on a good store exactly when the chunk, or its patch and base, survives |
| Cas.LocalCas.MaterializeChunkAt | crates/frostbuild-core/src/cas.rs:513-536 | a positioned write changes its own range only |
| Cas.LocalCas.SpliceInOrder | crates/frostbuild-core/src/cas.rs:484-498 | the serial loop: ready exactly if each chunk is available in its turn, where a rebuilt chunk serves later references |
| Cas.LocalCas.SpliceInAnyOrder | crates/frostbuild-core/src/cas.rs:474-498 | the parallel loop, for every order of completions: if ready the file is the concatenation; ready whenever every chunk, or its patch and base, survives; alone, only if in some order of the references each is available in its turn; with the other workers interleaved (Peers) no entry that passed its check is lost |
| Cas.LocalCas.ReadManifest | crates/frostbuild-core/src/cas.rs:449-460 | the manifest if it decodes and validates; one that does not is removed; on a good store nothing is |
| Cas.LocalCas.MaterializeChunks | crates/frostbuild-core/src/cas.rs:449-511 | restores exactly, or leaves the destination alone; on a good store it succeeds whenever every chunk, or its patch and base, survives; alone, serially exactly when each is available in turn, in parallel only if each is in some order |
| Cas.LocalCas.CopyAndVerify | crates/frostbuild-core/src/cas.rs:230-245 | the destination gets the object only if it hashes to the digest |
| Cas.LocalCas.Materialize | crates/frostbuild-core/src/cas.rs:217-228 | in any store state: true means the destination hashes to the digest, anything else leaves it alone; alone, only entries that fail their check go, and with its own workers interleaved (Peers) none that passed it when the call began; on a good store it succeeds whenever the object, or every chunk or its patch and base, survives, and alone, serially exactly when the object or each chunk in turn is available, in parallel only if the object or each chunk in some order is |
| Cas.SortedIsOldestFirst | crates/frostbuild-core/src/cas.rs:616-616 | the order of removal is by time, then path; files without a time first |
| Cas.LocalCas.Gc | crates/frostbuild-core/src/cas.rs:573-632 | the k oldest entries go and no others; k is the least that brings the total within the cap, or all; the store stays good |
| Cas.LeftWithinCap | crates/frostbuild-core/src/cas.rs:573-632 | after a collection the store is the rest of the listing and, by the sizes of the files themselves, within the cap |
| Cas.PutEvictRestore | crates/frostbuild-core/src/cas.rs:169-228 | a large output put, its object evicted, any other puts since, comes back byte for byte with its mode; the put succeeds with the right digest unless a patch fails |
| Cas.PutTwiceAndLose | crates/frostbuild-core/src/cas.rs:186-202 | from an empty store, with serial or parallel chunk work: put, collected but for the manifest, put again with success, and lost with its object |
| Cas.SlowWorkerUndoesRepair | crates/frostbuild-core/src/cas.rs:527-529 | an interleaving of two workers that takes a rebuilt chunk, which passes its check, away again; each step is one the other workers may take, and nothing that passed its check at the start goes |
| Toposort.TopologicalIsAcyclic | crates/frostbuild-core/src/graph.rs:965-1013 | an order with dependencies first exists only for acyclic targets |
| Toposort.Sorter.Visit | crates/frostbuild-core/src/graph.rs:973-1000 | the three-colour search extends the order with the target's dependencies first, or returns a real cycle |
| Toposort.ToposortTargets | crates/frostbuild-core/src/graph.rs:965-1013 | succeeds exactly on acyclic targets; the order is a permutation with every dependency before its users; what it reports otherwise is a cycle |
| SharedSets.SharedSet.constructor | crates/frostbuild-core/src/graph.rs:938-940 | sets only refer to sets that exist, so sharing is a DAG |
| SharedSets.FirstsOfFirsts | crates/frostbuild-core/src/graph.rs:942-961 | deduplicating a prefix early changes nothing |
| SharedSets.VisitKeepsShield | crates/frostbuild-core/src/graph.rs:947-959 | after a visit every visited node is still covered by output and by what lies above each stack entry that could lead to it |
| SharedSets.SkipKeepsShield | crates/frostbuild-core/src/graph.rs:947-950 | skipping a visited node drops only values already output |
| SharedSets.Flatten | crates/frostbuild-core/src/graph.rs:942-961 | exactly the first occurrences of the full recursive preorder expansion, though exactly the sets above the root are expanded, once each |
| BuildGraph.Graph.File | crates/frostbuild-core/src/graph.rs:708-719 | ids and paths stay in bijection; a known path keeps its id |
| BuildGraph.Graph.PushAction | crates/frostbuild-core/src/graph.rs:721-736 | succeeds exactly if the outputs are distinct and unclaimed; panics exactly if the first taken output repeats one of the same action |
| BuildGraph.RepeatedOutputPanics | crates/frostbuild-core/src/graph.rs:721-736 | an action that lists its only output twice panics |
| BuildGraph.OneProducer | crates/frostbuild-core/src/graph.rs:721-736 | each file keeps at most one producer |
| BuildGraph.FromManifest | crates/frostbuild-core/src/graph.rs:178-206 | succeeds exactly if targets are acyclic and no path is written twice; ids follow the topological order of the targets, and each target node has its declared dependencies and the ids of its actions |
| BuildGraph.NodeHoldsOwnActions | crates/frostbuild-core/src/graph.rs:178-206 | those are exactly the ids of the actions pushed for the target |
| BuildGraph.ProducerIsEarlier | crates/frostbuild-core/src/graph.rs:178-206 | a consumed file's producer has the smaller id |
| BuildGraph.Graph.ActionClosure | crates/frostbuild-core/src/graph.rs:772-797 | fails exactly on an unknown target; else the least set with the targets' actions closed under producers of inputs and order-only inputs, ascending |
| BuildGraph.ClosureIsExecutable | crates/frostbuild-core/src/graph.rs:770-797 | in that order every action comes after all that feed it |
| Queries.DepsClosure | crates/frostbuild-core/src/graph.rs:800-813 | exactly the targets the root reaches; an error exactly for an unknown root |
| Queries.RdepsClosure | crates/frostbuild-core/src/graph.rs:818-839 | exactly the targets that reach the root |
| Queries.Finder.Visit | crates/frostbuild-core/src/graph.rs:849-870 | a failed branch leaves only targets whose dependencies were all seen, so branches may share one seen set |
| Queries.SomePath | crates/frostbuild-core/src/graph.rs:843-874 | a path exists exactly if the target is reached; it is simple and every step is a declared dependency |
| Queries.Agree | crates/frostbuild-core/src/graph.rs:800-874 | the three queries agree |
| HashCache.HashCache.constructor | crates/frostbuild-core/src/hashcache.rs:62-73 | a file that cannot be decoded gives an empty snapshot |
| HashCache.FreshIsCoherent | crates/frostbuild-core/src/hashcache.rs:62-84 | a cache fresh from disk is coherent exactly if every snapshot entry whose stat still matches has the right hash |
| HashCache.HashCache.Store | crates/frostbuild-core/src/hashcache.rs:86-89 | the entry is found from now on, others unchanged |
| HashCache.HashCache.Forget | crates/frostbuild-core/src/hashcache.rs:103-118 | the tombstone hides the snapshot entry, and the settled digest goes |
| HashCache.HashCache.Invalidate | crates/frostbuild-core/src/hashcache.rs:279-281 | a written path is clean again |
| HashCache.HashCache.Digest | crates/frostbuild-core/src/hashcache.rs:148-179 | answers as hashing would for every path that is not written and not yet invalidated; a path with no live entry is read whatever its stat |
| HashCache.HashCache.DigestMany | crates/frostbuild-core/src/hashcache.rs:182-234 | every requested path, each answered as hashing would |
| HashCache.HashCache.MatchesMany | crates/frostbuild-core/src/hashcache.rs:240-274 | true exactly if every expected digest is the one hashing gives |
| HashCache.HashCache.Save | crates/frostbuild-core/src/hashcache.rs:120-144 | every live entry is in the file, every tombstone is not; nothing is written if nothing changed |
| HashCache.SaveAndLoad | crates/frostbuild-core/src/hashcache.rs:62-144 | load after save finds exactly the live entries |
| HashCache.Build | crates/frostbuild-core/src/hashcache.rs:62-281 | every sequence of queries, writes and invalidations is answered as uncached hashing would |
| Journal.DecodeBytes | crates/frostbuild-core/src/journal.rs:132-156 | the decoder yields the last-wins fold of the whole, valid frames at the head of the file |
| Journal.PrefixDecodes | crates/frostbuild-core/src/journal.rs:130-156 | cut at any byte, a log of records the codec carries decodes to the fold of exactly the frames wholly inside |
| Journal.WholeDecodes | crates/frostbuild-core/src/journal.rs:130-156 | an untouched file decodes to the fold of all its records |
| Journal.SomeCodecCarries | crates/frostbuild-core/src/journal.rs:91-97 | every log has such a codec |
| Journal.Journal.constructor | crates/frostbuild-core/src/journal.rs:52-72 | loading reads what the file decodes to, or the legacy file if that is nothing |
| Journal.Journal.Record | crates/frostbuild-core/src/journal.rs:75-105 | on any file: a current writer appends the frame to what a load reads, any other leaves it alone; the record is read back if nothing follows the last frame, hidden if a tail or a missing magic number hides it; memory and file agree afterwards exactly if the writer is on the file the path names, or the record says nothing new |
| Journal.Journal.Save | crates/frostbuild-core/src/journal.rs:107-127 | the compacted file decodes to the same map; later records stay visible exactly if no writer was open |
| Journal.RecordAfterSaveIsLost | crates/frostbuild-core/src/journal.rs:75-127 | record, save, record: the memory has both actions, a later load finds the first one only |
| Journal.ParseSplits | crates/frostbuild-core/src/journal.rs:130-156 | whatever is appended to a file is read from where its last whole frame ended |
| Journal.AppendExactly | crates/frostbuild-core/src/journal.rs:80-94 | a record appended to any file with the magic number: read back, hidden, or replaced by one read across the torn tail, and exactly when |
| Journal.TornTailLosesRecords | crates/frostbuild-core/src/journal.rs:80-94 | behind a crash inside a payload all records are lost that do not fill the announced frame |
| Journal.TornLengthLosesRecord | crates/frostbuild-core/src/journal.rs:80-94 | behind a crash inside a length field a record is lost whose own length is too small for the completed one |
| Journal.BadFrameLosesRecords | crates/frostbuild-core/src/journal.rs:149-151 | behind a whole frame that does not decode everything appended is lost |
| Journal.TornTailIsMisread | crates/frostbuild-core/src/journal.rs:130-131 | behind a crash between length and payload a frame that fills the announced length is decoded itself |
| Journal.TornTailExists | crates/frostbuild-core/src/journal.rs:80-94 | for any two records some codec makes the first one's torn frame hide the second |
| Journal.SomeCodecMisreads | crates/frostbuild-core/src/journal.rs:130-131 | for any three records some codec makes the third be read though only the first two were written |
| Journal.NoMagicLosesRecords | crates/frostbuild-core/src/journal.rs:80-94 | a file that is not blank and lacks the magic number decodes to nothing whatever is appended, unless that completes the magic number |
| Journal.TornMagicLosesRecords | crates/frostbuild-core/src/journal.rs:80-94 | behind a crash inside the magic number a record and all after it are lost unless its length starts with the next byte |
| ActionKey.InsertIsUpdate | crates/frostbuild-core/src/lib.rs:44-52 | inserting updates one binding |
| ActionKey.TableIsCanonical | crates/frostbuild-core/src/lib.rs:20-21 | tables with the same bindings are iterated alike |
| ActionKey.PayloadIgnoresInsertionOrder | crates/frostbuild-core/src/lib.rs:44-52 | the payload is the same for every order of insertions that leaves the same bindings |
| ActionKey.CwdIsRelocatable | crates/frostbuild-core/src/lib.rs:55-65 | moving the workspace does not move the payload |
| ActionKey.WriteField | crates/frostbuild-core/src/lib.rs:124-132 | appends the field, length-prefixed |
| ActionKey.CanonicalPayload | crates/frostbuild-core/src/lib.rs:54-104 | the loops write the encoding of the fields in order |
| ActionKey.ParseFieldBack | crates/frostbuild-core/src/lib.rs:124-132 | a field can be read back in front of anything, NULs and digits in its value included |
| ActionKey.ParseBack | crates/frostbuild-core/src/lib.rs:54-104 | a parser undoes the printer for every key |
| ActionKey.PayloadIsInjective | crates/frostbuild-core/src/lib.rs:54-104 | equal payloads mean equal builder, target, normalised cwd, toolchain, argv, env and inputs |
| JarManifest.DecodeBack | crates/frostbuild-cli/src/main.rs:2051-2056 | decoding undoes UTF-8 encoding for every string |
| JarManifest.Utf8Prefix | crates/frostbuild-cli/src/jar.rs:161-171 | the longest run of whole characters within the limit |
| JarManifest.Progress | crates/frostbuild-cli/src/jar.rs:149-157 | a limit of four bytes or more always lets a character through |
| JarManifest.WriteManifestHeader | crates/frostbuild-cli/src/jar.rs:139-159 | the output is whole lines of whole characters, none over 70 bytes, continuations start with a space, and they join to the header; the loop ends |
| JarManifest.ValidIsOneLine | crates/frostbuild-cli/src/jar.rs:118-137 | a valid main class has no line break |
| JarManifest.WriteManifest | crates/frostbuild-cli/src/jar.rs:97-103 | fails exactly for an invalid main class; else the two fixed lines, the folded header and a blank line |
| JarManifest.LinesBack | crates/frostbuild-cli/src/main.rs:2057-2057 | the reader finds the physical lines that were written |
| JarManifest.UnfoldFolded | crates/frostbuild-cli/src/main.rs:2057-2066 | unfolding a folded header gives one header line |
| JarManifest.JarMainClass | crates/frostbuild-cli/src/main.rs:2044-2072 | the first header line that names a main class, after unfolding; an error otherwise |
| JarManifest.PackAndRead | crates/frostbuild-cli/src/jar.rs:97-159 | for every valid main class the reader recovers exactly what was written |

## Left out

- `use_catalog=True` of `build_plan`: the catalog index holds only `t.src`, so the planner is modelled without it.
- The action cache, hard-linked restores and the sandbox of `execute_action`: the copying path is modelled, and a failure is a function of target and source text.
- Normalisation of explicitly listed paths, the stat cache and the text of reports and statistics of `frost.py`.
- `topo_sort` of `frost.py`: nothing in the planner calls it, and the three-colour search is proved for `graph.rs`.
- `Scheduler.PopReady`: leaves the arrival order of the FIFO queue and the tie-break of the heap by name open, because what is proved of runs holds whichever ready action (of highest priority) is taken.
- `Store.RunKeepsGood`: takes manifest steps to be faithful; that `put_chunks` publishes no others is `Cas.PreparedIsFaithful`.
- `Journal.TornTailExists`: the codec is made up, because the format of postcard is fixed by its own crate; postcard is not part of this model. `Journal.TornTailLosesRecords` has the condition for every codec.
- `Journal.SomeCodecMisreads`: the codec is made up for the same reason; `Journal.AppendExactly` has the condition for every codec.
- `Cas.LocalCas.Materialize`: says when a parallel restore must fail for workers that do one chunk after the other in any order only, as `Cas.LocalCas.SpliceInAnyOrder` does.
- `Cas.LocalCas.SpliceInAnyOrder`: says when it must fail for workers that do one chunk after the other in any order; what each of interleaved workers rebuilds for the others is left open.
- `Cas.LocalCas.Gc`: the listing is an argument; `Cas.LeftWithinCap` says what follows if it lists the disk, where the lengths of manifest files are left open.
- `HashCache.HashCache.constructor`: the magic number and the decoding of the cache file are folded into an argument that is absent when either fails.
- Edits to sources while a build runs, and sessions over changing root sets.
- The jobserver: the number of slots is a parameter.
- What a no-op certificate checks: a scan is the set of paths it read and what it read there.
- The socket protocol, the other requests of the daemon, and the windows endpoint.
- The 500 ms deadline: a waiting barrier may time out at any moment.
- I/O errors other than files that vanish between two accesses, and destinations without a parent directory.
- Weak memory of the relaxed atomics in the store and in the hash cache.
- The two halves of `remove_file` and `rename` when a destination is replaced: one step here.
- `stats` and `count_store` of the store, and the write of the gc stamp.
- Directories, symbolic links and permissions other than the executable bit.
- Chunk lists and payloads are sequences rather than memory-mapped files.
- The gear table: any 256 words do.
- The listing order of sorted results of the target queries: closures are sets.
- Which actions each target kind contributes, genrule expansion, and clean directories: a target is a list of actions with the paths they read and write.
- `BuildGraph.ProducerIsEarlier`: assumes that every generated path an action consumes is written by an earlier action of its target or by a transitive dependency, because manifests are validated elsewhere.
- Concurrent queries of one hash cache: its operations are atomic here.
- The decoding of the legacy JSON journal, whose content is an argument, and the legacy hash cache.
- Raw spellings of paths that `Path` components hide, such as doubled slashes in a working directory.
- `stable_id` and `digest` of an action key: hashes of the payload.
- The zip container: the manifest entry is its bytes.
- `manifest.rs`, the execution engine and the importers are not part of this model.
