/** Planning and executing together: an incremental build leaves on disk exactly what a full
    rebuild from the same sources would. */
module Incremental {
  import opened Digraph
  import opened Planner
  import opened Scheduler
  import opened Executor
  import opened Endings
  import opened Runs
  import opened Wrappers

  /** The saved digests describe the sources in prior. */
  ghost predicate Remembers(sha: Sha, saved: SavedState, prior: Files) {
    saved.Saved? ==> forall rel :: rel in saved.hashes ==> saved.hashes[rel] == HashOf(sha, prior, rel)
  }

  /** Whatever outputs of the scope are on disk, they are those of the sources in prior. */
  ghost predicate PresentMatch(r: Recipe, rank: Rank, scope: set<Name>, prior: Files, files: Files)
    requires Buildable(r.ws, rank) && scope <= r.ws.targets.Keys
  {
    forall n :: n in scope && r.ws.targets[n].out in files ==> HasClean(r, rank, prior, files, n)
  }

  /** SHA-256 tells the old and the new version of each source of the scope apart. */
  ghost predicate NoCollision(ws: Workspace, sha: Sha, scope: set<Name>, prior: Files, files: Files)
    requires scope <= ws.targets.Keys
  {
    forall n :: n in scope && HashOf(sha, prior, ws.targets[n].src) == HashOf(sha, files, ws.targets[n].src)
                ==> SameAt(prior, files, ws.targets[n].src)
  }

  /** An explicit list of changed files names every source of the scope that did change. */
  ghost predicate ListsChanges(ws: Workspace, scope: set<Name>, prior: Files, files: Files, explicit: set<Path>)
    requires scope <= ws.targets.Keys
  {
    explicit != {} ==>
      forall n :: n in scope && !SameAt(prior, files, ws.targets[n].src) ==> ws.targets[n].src in explicit
  }

  datatype Invocation = Invocation(recipe: Recipe, sha: Sha, roots: set<Name>, kinds: set<string>,
                                   explicit: set<Path>, forceAll: bool, slots: nat, keepGoing: bool, policy: Policy)
  {
    ghost function Scope(): set<Name> {
      DepClosure(DepGraph(recipe.ws), roots)
    }
  }

  /** What an invocation must be for its builds to make sense. */
  ghost predicate Proper(inv: Invocation, rank: Rank) {
    && inv.slots >= 1
    && Buildable(inv.recipe.ws, rank)
    && inv.roots <= inv.recipe.ws.targets.Keys
    && SeparateOutputs(inv.recipe.ws, inv.Scope())
    && (forall n :: n in inv.Scope() ==> inv.recipe.ws.targets[n].kind in inv.kinds)
  }

  /** What one build hands to the next: `prior` has the sources the saved digests and the outputs
      on disk belong to. */
  ghost predicate Tracked(inv: Invocation, rank: Rank, saved: SavedState, prior: Files, files: Files)
    requires Proper(inv, rank)
  {
    saved.Saved? ==> Remembers(inv.sha, saved, prior) && PresentMatch(inv.recipe, rank, inv.Scope(), prior, files)
  }

  /** The edits since then can be seen in the digests. */
  ghost predicate Visible(inv: Invocation, rank: Rank, prior: Files, files: Files)
    requires Proper(inv, rank)
  {
    && NoCollision(inv.recipe.ws, inv.sha, inv.Scope(), prior, files)
    && ListsChanges(inv.recipe.ws, inv.Scope(), prior, files, inv.explicit)
  }

  predicate Cold(inv: Invocation, saved: SavedState) {
    inv.forceAll || saved.NoState?
  }

  /** The situation the incremental build is meant for. */
  ghost predicate Eligible(inv: Invocation, rank: Rank, saved: SavedState, prior: Files, files: Files) {
    && Proper(inv, rank)
    && (Cold(inv, saved) || (Tracked(inv, rank, saved, prior, files) && Visible(inv, rank, prior, files)))
  }

  /** As far as finding the changes goes. */
  ghost predicate Watched(inv: Invocation, rank: Rank, saved: SavedState, prior: Files, files: Files) {
    Proper(inv, rank) && (Cold(inv, saved) || (Remembers(inv.sha, saved, prior) && Visible(inv, rank, prior, files)))
  }

  /** What build_plan guarantees, as a relation. */
  ghost predicate PlanFor(inv: Invocation, saved: SavedState, files: Files, plan: Plan) {
    var ws, scope := inv.recipe.ws, inv.Scope();
    && plan.changedSources == ChangedSources(ws, inv.sha, files, saved, inv.explicit)
    && (inv.explicit == {} && NoPrevious(saved) ==> plan.changedTargets == ws.targets.Keys)
    && (!(inv.explicit == {} && NoPrevious(saved)) ==>
          forall n :: n in plan.changedTargets <==> exists rel :: rel in plan.changedSources && UsesSource(ws, n, rel))
    && plan.affected == Affected(ws, inv.roots, saved, inv.forceAll, plan.changedTargets)
    && OfKinds(ws, plan.affected, inv.kinds) <= plan.selected <= scope
    && MissingDepsInside(ws, files, plan.selected)
    && forall s: set<Name> | OfKinds(ws, plan.affected, inv.kinds) <= s && MissingDepsInside(ws, files, s) ::
         plan.selected <= s
  }

  /** A source that differs from the last build marks its target as changed. */
  lemma {:induction false} ChangedIsDetected(inv: Invocation, rank: Rank, saved: SavedState, prior: Files, files: Files,
                                             plan: Plan, m: Name)
    requires Watched(inv, rank, saved, prior, files) && PlanFor(inv, saved, files, plan)
    requires !Cold(inv, saved)
    requires m in inv.Scope() && !SameAt(prior, files, inv.recipe.ws.targets[m].src)
    ensures m in plan.changedTargets
  {
    var src := inv.recipe.ws.targets[m].src;
    if !(inv.explicit == {} && NoPrevious(saved)) {
      assert UsesSource(inv.recipe.ws, m, src);
      assert src in plan.changedSources;
    }
  }

  /** And so it is run. */
  lemma {:induction false} ChangedIsSelected(inv: Invocation, rank: Rank, saved: SavedState, prior: Files, files: Files,
                                             plan: Plan, m: Name)
    requires Watched(inv, rank, saved, prior, files) && PlanFor(inv, saved, files, plan) && !Cold(inv, saved)
    requires m in inv.Scope() && !SameAt(prior, files, inv.recipe.ws.targets[m].src)
    ensures m in plan.selected
  {
    ChangedIsDetected(inv, rank, saved, prior, files, plan, m);
    ReachesSelf(DepGraph(inv.recipe.ws), m);
    assert m in OfKinds(inv.recipe.ws, plan.affected, inv.kinds);
  }

  /** Nothing below a target outside the affected set has changed. */
  lemma {:induction false} UnaffectedSources(inv: Invocation, rank: Rank, saved: SavedState, prior: Files, files: Files,
                                             plan: Plan, n: Name)
    requires Watched(inv, rank, saved, prior, files) && PlanFor(inv, saved, files, plan)
    requires n in inv.Scope() && n !in plan.affected
    ensures !Cold(inv, saved)
    ensures forall m :: m in DepClosure(DepGraph(inv.recipe.ws), {n}) ==>
              SameAt(prior, files, inv.recipe.ws.targets[m].src)
  {
    var g := DepGraph(inv.recipe.ws);
    ClosureIsClosed(g, inv.roots);
    assert !ReachesSome(g, n, plan.changedTargets);
    forall m | m in DepClosure(g, {n})
      ensures SameAt(prior, files, inv.recipe.ws.targets[m].src)
    {
      assert Reaches(g, n, m);
      ReachesStaysInside(g, inv.Scope(), n, m);
      if !SameAt(prior, files, inv.recipe.ws.targets[m].src) {
        ChangedIsDetected(inv, rank, saved, prior, files, plan, m);
        assert false;
      }
    }
  }

  /** A target outside the affected set has the same clean output before and after the edit. */
  lemma {:induction false} UnaffectedIsUnchanged(inv: Invocation, rank: Rank, saved: SavedState, prior: Files,
                                                 files: Files, plan: Plan, n: Name)
    requires Watched(inv, rank, saved, prior, files) && PlanFor(inv, saved, files, plan)
    requires n in inv.Scope() && n !in plan.affected
    ensures Clean(inv.recipe, rank, prior, n) == Clean(inv.recipe, rank, files, n)
    ensures Fails(inv.recipe, prior, n) == Fails(inv.recipe, files, n)
  {
    var g := DepGraph(inv.recipe.ws);
    var below := DepClosure(g, {n});
    ClosureIsClosed(g, {n});
    ReachesSelf(g, n);
    UnaffectedSources(inv, rank, saved, prior, files, plan, n);
    assert n in below && SameAt(prior, files, inv.recipe.ws.targets[n].src);
    CleanAgrees(inv.recipe, rank, rank, below, prior, files, n);
  }

  /** An output on disk whose target is not affected is already clean. */
  lemma {:induction false} UnaffectedIsClean(inv: Invocation, rank: Rank, saved: SavedState, prior: Files, files: Files,
                                             plan: Plan, n: Name)
    requires Eligible(inv, rank, saved, prior, files) && PlanFor(inv, saved, files, plan)
    requires n in inv.Scope() && n !in plan.selected && inv.recipe.ws.targets[n].out in files
    ensures HasClean(inv.recipe, rank, files, files, n)
  {
    assert n !in plan.affected by {
      assert n in plan.affected ==> n in OfKinds(inv.recipe.ws, plan.affected, inv.kinds);
    }
    UnaffectedIsUnchanged(inv, rank, saved, prior, files, plan, n);
    assert HasClean(inv.recipe, rank, prior, files, n);
  }

  /** Every plan can be executed soundly: dependencies outside the selection are on disk. */
  lemma {:induction false} PlanIsSound(inv: Invocation, rank: Rank, saved: SavedState, files: Files, plan: Plan)
    requires Proper(inv, rank) && PlanFor(inv, saved, files, plan)
    ensures Sound(inv.recipe, rank, inv.Scope(), files, plan.selected)
  {
    var g := DepGraph(inv.recipe.ws);
    ClosureIsClosed(g, inv.roots);
    forall n, d | n in plan.selected && Edge(g, n, d) && d !in plan.selected
      ensures d in inv.recipe.ws.targets && inv.recipe.ws.targets[d].out in files
    {
      assert !NeedsOutput(inv.recipe.ws, files, n, d);
    }
  }

  /** And those of an eligible invocation are clean. */
  lemma {:induction false} PlanIsSupplied(inv: Invocation, rank: Rank, saved: SavedState, prior: Files, files: Files,
                                          plan: Plan)
    requires Eligible(inv, rank, saved, prior, files) && PlanFor(inv, saved, files, plan)
    ensures Supplied(inv.recipe, rank, files, plan.selected)
  {
    var g := DepGraph(inv.recipe.ws);
    ClosureIsClosed(g, inv.roots);
    forall n, d | n in plan.selected && Edge(g, n, d) && d !in plan.selected
      ensures HasClean(inv.recipe, rank, files, files, d)
    {
      assert !NeedsOutput(inv.recipe.ws, files, n, d);
      UnaffectedIsClean(inv, rank, saved, prior, files, plan, d);
    }
  }

  /** The disk after a build: an output is there if it was there or was selected, and it is clean. */
  ghost predicate CleanAfter(inv: Invocation, rank: Rank, files: Files, plan: Plan, after: Files)
    requires Buildable(inv.recipe.ws, rank)
  {
    forall n :: n in inv.Scope() ==>
      && (inv.recipe.ws.targets[n].out in after <==> inv.recipe.ws.targets[n].out in files || n in plan.selected)
      && (inv.recipe.ws.targets[n].out in after ==> HasClean(inv.recipe, rank, files, after, n))
  }

  /** The job of a plan, and its end. */
  function JobOf(inv: Invocation, files: Files, plan: Plan): Job {
    Job(inv.recipe, files, plan.selected, inv.slots, inv.keepGoing, inv.policy)
  }

  function CurrentHashes(ws: Workspace, sha: Sha, files: Files): map<Path, Digest> {
    map rel | rel in AllSources(ws) :: HashOf(sha, files, rel)
  }

  /** The workspace once the run has rewritten the depfile store. */
  function WithDepfiles(r: Recipe, depfiles: map<Name, seq<Path>>): Recipe {
    r.(ws := r.ws.(dynamicDeps := depfiles))
  }

  /** execute_plan returns before saving if nothing is selected, and does not get there if it raises. */
  function SavedAfter(inv: Invocation, saved: SavedState, depfiles: map<Name, seq<Path>>, plan: Plan, res: RunResult,
                      after: Files): SavedState
  {
    if plan.selected == {} || !res.Finished? then saved
    else Saved(CurrentHashes(WithDepfiles(inv.recipe, depfiles).ws, inv.sha, after))
  }

  /** The sources the state left behind is about. */
  function PriorAfter(plan: Plan, res: RunResult, prior: Files, after: Files): Files {
    if plan.selected == {} || !res.Finished? then prior else after
  }

  /** One build, as a relation: the plan, and an execution of it in which ready actions of highest
      priority are taken as picks says.  What ExecutePlan promises of executions comes along. */
  ghost predicate BuiltBy(inv: Invocation, picks: Picks, rank: Rank, saved: SavedState, files: Files, plan: Plan,
                          res: RunResult, after: Files, log: seq<Event>)
  {
    && PlanFor(inv, saved, files, plan)
    && Outcome(JobOf(inv, files, plan), rank, inv.Scope(), res, after, log)
    && Executes(JobOf(inv, files, plan), picks, res, after, log)
  }

  /** One build, whichever of these are taken. */
  ghost predicate Built(inv: Invocation, rank: Rank, saved: SavedState, files: Files, plan: Plan, res: RunResult,
                        after: Files, log: seq<Event>)
  {
    BuiltBy(inv, AnyTop, rank, saved, files, plan, res, after, log)
  }

  lemma {:induction false} BuiltByAny(inv: Invocation, picks: Picks, rank: Rank, saved: SavedState, files: Files,
                                      plan: Plan, res: RunResult, after: Files, log: seq<Event>)
    requires BuiltBy(inv, picks, rank, saved, files, plan, res, after, log)
    ensures Built(inv, rank, saved, files, plan, res, after, log)
  {
    ExecutesByAny(JobOf(inv, files, plan), picks, res, after, log);
  }

  /** The result is one the scheduler reports, and sources are as they were. */
  lemma {:induction false} RunEnds(inv: Invocation, rank: Rank, saved: SavedState, files: Files, plan: Plan,
                                   res: RunResult, after: Files, log: seq<Event>)
    requires Proper(inv, rank) && Built(inv, rank, saved, files, plan, res, after, log)
    ensures res.Finished? || res.Aborted?
    ensures Sound(inv.recipe, rank, inv.Scope(), files, plan.selected)
    ensures forall n :: n in inv.Scope() ==> SameAt(files, after, inv.recipe.ws.targets[n].src)
    ensures forall n :: n in inv.Scope() ==> Clean(inv.recipe, rank, after, n) == Clean(inv.recipe, rank, files, n)
  {
    PlanIsSound(inv, rank, saved, files, plan);
    EndOf(JobOf(inv, files, plan), rank, inv.Scope(), res, after, log);
    ClosureIsClosed(DepGraph(inv.recipe.ws), inv.roots);
    forall n | n in inv.Scope()
      ensures SameAt(files, after, inv.recipe.ws.targets[n].src)
    {
      forall m | m in plan.selected
        ensures inv.recipe.ws.targets[m].out != inv.recipe.ws.targets[n].src
      {
        assert OutputApart(inv.recipe.ws, m, n);
      }
      assert !IsOutput(inv.recipe.ws, plan.selected, inv.recipe.ws.targets[n].src);
    }
    forall n | n in inv.Scope()
      ensures Clean(inv.recipe, rank, after, n) == Clean(inv.recipe, rank, files, n)
    {
      CleanAgrees(inv.recipe, rank, rank, inv.Scope(), files, after, n);
    }
  }

  /** From an eligible start every target ends as the log says, with clean outputs. */
  lemma {:induction false} BuildEnds(inv: Invocation, rank: Rank, saved: SavedState, prior: Files, files: Files,
                                     plan: Plan,
                                     res: RunResult, after: Files, log: seq<Event>)
    requires Eligible(inv, rank, saved, prior, files) && Built(inv, rank, saved, files, plan, res, after, log)
    ensures res.Finished? || res.Aborted?
    ensures StartedIn(log) <= plan.selected
    ensures forall n :: n in inv.Scope() ==> EndsClean(JobOf(inv, files, plan), rank, after, log, n)
    ensures forall n :: n in inv.Scope() ==> SameAt(files, after, inv.recipe.ws.targets[n].src)
    ensures forall n :: n in inv.Scope() ==> Clean(inv.recipe, rank, after, n) == Clean(inv.recipe, rank, files, n)
  {
    RunEnds(inv, rank, saved, files, plan, res, after, log);
    PlanIsSupplied(inv, rank, saved, prior, files, plan);
    SuppliedEnds(JobOf(inv, files, plan), rank, inv.Scope(), res, after, log);
  }

  lemma {:induction false} NothingSelected(inv: Invocation, rank: Rank, saved: SavedState, files: Files, plan: Plan,
                                           res: RunResult, after: Files, log: seq<Event>)
    requires Built(inv, rank, saved, files, plan, res, after, log) && plan.selected == {}
    ensures after == files
    ensures res.Finished? ==> res == Finished({}, {}, {})
  {
    forall p: Path
      ensures p in after.Keys <==> p in files.Keys
      ensures p in files ==> p in after && after[p] == files[p]
    {
      assert !IsOutput(inv.recipe.ws, plan.selected, p);
      assert SameAt(files, after, p);
    }
    assert after.Keys == files.Keys;
  }

  // ------------------------------------------------------- what a build hands on

  /** What the run cannot complete: it asks for failure, or something selected below it does. */
  ghost function Lost(job: Job): set<Name> {
    job.selected - Fine(job)
  }

  /** These targets have no output on disk, or, by chance, the right one. */
  ghost predicate NoneStale(inv: Invocation, rank: Rank, files: Files, left: set<Name>)
    requires Proper(inv, rank)
  {
    forall n :: n in left && n in inv.Scope() && inv.recipe.ws.targets[n].out in files ==>
      HasClean(inv.recipe, rank, files, files, n)
  }

  /** The edit makes no difference to these targets. */
  ghost predicate NoneAhead(inv: Invocation, rank: Rank, prior: Files, files: Files, written: set<Name>)
    requires Proper(inv, rank)
  {
    forall n :: n in written && n in inv.Scope() ==>
        Clean(inv.recipe, rank, prior, n) == Clean(inv.recipe, rank, files, n)
  }

  lemma {:induction false} LostExactly(inv: Invocation, rank: Rank, saved: SavedState, files: Files, plan: Plan,
                                       res: RunResult, after: Files, log: seq<Event>)
    requires Proper(inv, rank) && Built(inv, rank, saved, files, plan, res, after, log) && res.Finished?
    ensures res.failed + res.skipped == Lost(JobOf(inv, files, plan))
  {
    var job := JobOf(inv, files, plan);
    PlanIsSound(inv, rank, saved, files, plan);
    forall n
      ensures n in res.failed + res.skipped <==> n in Lost(job)
    {
      DoomedExactly(job, rank, inv.Scope(), res, after, log, n);
    }
  }

  /** When execute_plan has saved the digests, they describe the outputs on disk exactly if no
      target that had to fail or be skipped has a stale one. */
  lemma {:induction false} FinishedIsTracked(inv: Invocation, rank: Rank, saved: SavedState, prior: Files, files: Files,
                                             plan: Plan,
                                             res: RunResult, after: Files, log: seq<Event>)
    requires Eligible(inv, rank, saved, prior, files) && Built(inv, rank, saved, files, plan, res, after, log)
    requires res.Finished?
    ensures PresentMatch(inv.recipe, rank, inv.Scope(), after, after)
            <==> NoneStale(inv, rank, files, Lost(JobOf(inv, files, plan)))
  {
    BuildEnds(inv, rank, saved, prior, files, plan, res, after, log);
    LostExactly(inv, rank, saved, files, plan, res, after, log);
    forall n | n in inv.Scope() && n !in res.failed + res.skipped && inv.recipe.ws.targets[n].out in after
      ensures HasClean(inv.recipe, rank, after, after, n)
    {
      assert EndsClean(JobOf(inv, files, plan), rank, after, log, n);
      if n !in plan.selected {
        UnaffectedIsClean(inv, rank, saved, prior, files, plan, n);
      }
    }
    forall n | n in inv.Scope() && n in res.failed + res.skipped
      ensures Untouched(inv.recipe.ws, files, after, n)
    {
      assert EndsClean(JobOf(inv, files, plan), rank, after, log, n);
    }
  }

  /** The outputs the run did write. */
  ghost function Written(inv: Invocation, rank: Rank, files: Files, after: Files): set<Name>
    requires Proper(inv, rank)
  {
    set n | n in inv.Scope() && !Untouched(inv.recipe.ws, files, after, n)
  }

  /** When a failure has cut the run short, the digests saved before still describe the outputs on
      disk exactly if the edit makes no difference to the outputs written; only targets that are
      not doomed are. */
  lemma {:induction false} AbortedIsTracked(inv: Invocation, rank: Rank, saved: SavedState, prior: Files, files: Files,
                                            plan: Plan,
                                            res: RunResult, after: Files, log: seq<Event>)
    requires Eligible(inv, rank, saved, prior, files) && Built(inv, rank, saved, files, plan, res, after, log)
    requires PresentMatch(inv.recipe, rank, inv.Scope(), prior, files)
    ensures PresentMatch(inv.recipe, rank, inv.Scope(), prior, after)
            <==> NoneAhead(inv, rank, prior, files, Written(inv, rank, files, after))
    ensures Written(inv, rank, files, after) <= Fine(JobOf(inv, files, plan))
  {
    BuildEnds(inv, rank, saved, prior, files, plan, res, after, log);
    forall n | n in inv.Scope() && Untouched(inv.recipe.ws, files, after, n) && inv.recipe.ws.targets[n].out in after
      ensures HasClean(inv.recipe, rank, prior, after, n)
    {
      assert HasClean(inv.recipe, rank, prior, files, n);
    }
    forall n | n in inv.Scope() && !Untouched(inv.recipe.ws, files, after, n)
      ensures HasClean(inv.recipe, rank, files, after, n)
    {
      assert EndsClean(JobOf(inv, files, plan), rank, after, log, n);
    }
    OnlyFineIsWritten(inv, rank, saved, files, plan, res, after, log);
  }

  lemma {:induction false} OnlyFineIsWritten(inv: Invocation, rank: Rank, saved: SavedState, files: Files, plan: Plan,
                                             res: RunResult, after: Files, log: seq<Event>)
    requires Proper(inv, rank) && Built(inv, rank, saved, files, plan, res, after, log)
    ensures Written(inv, rank, files, after) <= Fine(JobOf(inv, files, plan))
  {
    var job := JobOf(inv, files, plan);
    PlanIsSound(inv, rank, saved, files, plan);
    forall n | n in Written(inv, rank, files, after)
      ensures n in Fine(job)
    {
      if n !in job.selected || Doomed(job, n) {
        DoomedIsUntouched(job, rank, inv.Scope(), res, after, log, n);
      }
    }
  }

  lemma {:induction false} SuccessIsClean(inv: Invocation, rank: Rank, saved: SavedState, prior: Files, files: Files,
                                          plan: Plan,
                                          res: RunResult, after: Files, log: seq<Event>)
    requires Eligible(inv, rank, saved, prior, files) && Built(inv, rank, saved, files, plan, res, after, log)
    requires res.Finished? && res.failed == {}
    ensures res.skipped == {} && CleanAfter(inv, rank, files, plan, after)
  {
    BuildEnds(inv, rank, saved, prior, files, plan, res, after, log);
    forall n | n in inv.Scope()
      ensures inv.recipe.ws.targets[n].out in after <==> inv.recipe.ws.targets[n].out in files || n in plan.selected
      ensures inv.recipe.ws.targets[n].out in after ==> HasClean(inv.recipe, rank, files, after, n)
    {
      assert EndsClean(JobOf(inv, files, plan), rank, after, log, n);
      if n !in plan.selected && inv.recipe.ws.targets[n].out in files {
        UnaffectedIsClean(inv, rank, saved, prior, files, plan, n);
      }
    }
  }

  lemma {:induction false} SuccessIsHonest(inv: Invocation, rank: Rank, saved: SavedState, prior: Files, files: Files,
                                           plan: Plan, res: RunResult, after: Files, log: seq<Event>)
    requires Eligible(inv, rank, saved, prior, files) && Built(inv, rank, saved, files, plan, res, after, log)
    requires res.Finished? && res.failed == {}
    ensures Honest(inv, rank, saved, prior, files, plan)
  {
    WhichEnd(inv, rank, saved, files, plan, res, after, log);
    SuccessIsClean(inv, rank, saved, prior, files, plan, res, after, log);
    LostExactly(inv, rank, saved, files, plan, res, after, log);
  }

  // ------------------------------------------------------------ the verdict

  ghost predicate NoFailure(r: Recipe, scope: set<Name>, files: Files)
    requires scope <= r.ws.targets.Keys
  {
    forall n :: n in scope ==> !Fails(r, files, n)
  }

  /** No source of the closure asks for failure. */
  ghost predicate NoneFails(inv: Invocation, rank: Rank, files: Files)
    requires Proper(inv, rank)
  {
    NoFailure(inv.recipe, inv.Scope(), files)
  }

  /** If nothing failed in the sources the saved digests are about, the build succeeds exactly if
      no source of the closure makes its action fail, as a full build would. */
  lemma {:induction false} VerdictIsRight(inv: Invocation, rank: Rank, saved: SavedState, prior: Files, files: Files,
                                          plan: Plan,
                                          res: RunResult, after: Files, log: seq<Event>)
    requires Watched(inv, rank, saved, prior, files) && Built(inv, rank, saved, files, plan, res, after, log)
    requires Cold(inv, saved) || NoneFails(inv, rank, prior)
    ensures res.Finished? && res.failed == {} <==> NoneFails(inv, rank, files)
  {
    RunEnds(inv, rank, saved, files, plan, res, after, log);
    if res.Finished? && res.failed == {} {
      forall n | n in inv.Scope()
        ensures !Fails(inv.recipe, files, n)
      {
        assert EndsAs(JobOf(inv, files, plan), rank, after, log, n);
        if n !in plan.affected {
          UnaffectedIsUnchanged(inv, rank, saved, prior, files, plan, n);
          UnaffectedSources(inv, rank, saved, prior, files, plan, n);
        } else {
          assert n in OfKinds(inv.recipe.ws, plan.affected, inv.kinds);
        }
      }
    } else {
      var n :| n in FinishedIn(log, false);
      FinishedWasStarted(JobOf(inv, files, plan).Graph(), inv.slots, log, false, n);
      assert EndsAs(JobOf(inv, files, plan), rank, after, log, n);
    }
  }

  /** A build is cut short by an action that asked for failure, after its dependencies were built. */
  lemma {:induction false} AbortedMeansFailing(inv: Invocation, rank: Rank, saved: SavedState, prior: Files,
                                               files: Files, plan: Plan,
                                               res: RunResult, after: Files, log: seq<Event>)
    requires Eligible(inv, rank, saved, prior, files) && Built(inv, rank, saved, files, plan, res, after, log)
    requires res.Aborted?
    ensures res.failing in plan.selected && Fails(inv.recipe, files, res.failing)
    ensures forall d :: Edge(DepGraph(inv.recipe.ws), res.failing, d) && d in plan.selected ==>
              HasClean(inv.recipe, rank, files, after, d)
  {
    var job := JobOf(inv, files, plan);
    BuildEnds(inv, rank, saved, prior, files, plan, res, after, log);
    FinishedWasStarted(job.Graph(), inv.slots, log, false, res.failing);
    assert EndsClean(job, rank, after, log, res.failing);
    forall d | Edge(DepGraph(inv.recipe.ws), res.failing, d) && d in plan.selected
      ensures HasClean(inv.recipe, rank, files, after, d)
    {
      assert Edge(job.Graph(), res.failing, d);
      StartedMeansDepsCompleted(job.Graph(), inv.slots, log, res.failing, d);
      assert EndsClean(job, rank, after, log, d);
    }
  }

  ghost function Askers(r: Recipe, scope: set<Name>, files: Files): set<Name>
    requires scope <= r.ws.targets.Keys
  {
    set m | m in scope && Fails(r, files, m)
  }

  /** If only one target asks for failure, a build without keep_going that has to run it is cut short
      there, with every changed dependency of it already rebuilt. */
  lemma {:induction false} StopsAt(inv: Invocation, rank: Rank, saved: SavedState, prior: Files, files: Files,
                                   plan: Plan,
                                   res: RunResult, after: Files, log: seq<Event>, n: Name, d: Name)
    requires Eligible(inv, rank, saved, prior, files) && Built(inv, rank, saved, files, plan, res, after, log)
    requires !Cold(inv, saved) && !inv.keepGoing && NoneFails(inv, rank, prior)
    requires n in inv.Scope() && Edge(DepGraph(inv.recipe.ws), n, d) && d in inv.Scope()
    requires Askers(inv.recipe, inv.Scope(), files) == {n}
    requires !SameAt(prior, files, inv.recipe.ws.targets[d].src)
    ensures res == Aborted(n) && HasClean(inv.recipe, rank, files, after, d)
  {
    BuildEnds(inv, rank, saved, prior, files, plan, res, after, log);
    VerdictIsRight(inv, rank, saved, prior, files, plan, res, after, log);
    assert n in Askers(inv.recipe, inv.Scope(), files);
    ChangedIsSelected(inv, rank, saved, prior, files, plan, d);
    AbortedMeansFailing(inv, rank, saved, prior, files, plan, res, after, log);
    assert res.failing in Askers(inv.recipe, inv.Scope(), files);
  }

  /** build_plan followed by execute_plan.  `depfiles` is the depfile store after the run. */
  method Build(inv: Invocation, saved: SavedState, files: Files, depfiles: map<Name, seq<Path>>,
               ghost rank: Rank, ghost prior: Files)
    returns (plan: Plan, res: RunResult, after: Files, ghost log: seq<Event>, saved': SavedState)
    requires inv.slots >= 1 && WellFormed(inv.recipe.ws, inv.roots)
    ensures Built(inv, rank, saved, files, plan, res, after, log)
    ensures saved' == SavedAfter(inv, saved, depfiles, plan, res, after)
    ensures Eligible(inv, rank, saved, prior, files) ==> res.Finished? || res.Aborted?
    ensures Eligible(inv, rank, saved, prior, files) && res.Finished? && res.failed == {} ==>
              && CleanAfter(inv, rank, files, plan, after)
              && (Tracked(inv, rank, saved, prior, files) ==>
                    Tracked(inv, rank, saved', PriorAfter(plan, res, prior, after), after))
    ensures Eligible(inv, rank, saved, prior, files) && (Cold(inv, saved) || NoneFails(inv, rank, prior)) ==>
              (res.Finished? && res.failed == {} <==> NoneFails(inv, rank, files))
    ensures forall n :: Eligible(inv, rank, saved, prior, files) && n in inv.Scope() ==>
              SameAt(files, after, inv.recipe.ws.targets[n].src)
  {
    plan := BuildPlan(inv.recipe.ws, inv.sha, files, saved, inv.roots, inv.kinds, inv.explicit, inv.forceAll);
    res, after, log := ExecutePlan(JobOf(inv, files, plan), rank, inv.Scope());
    saved' := SavedAfter(inv, saved, depfiles, plan, res, after);
    if Eligible(inv, rank, saved, prior, files) {
      BuildEnds(inv, rank, saved, prior, files, plan, res, after, log);
      if Cold(inv, saved) || NoneFails(inv, rank, prior) {
        VerdictIsRight(inv, rank, saved, prior, files, plan, res, after, log);
      }
      if res.Finished? && res.failed == {} {
        SuccessIsClean(inv, rank, saved, prior, files, plan, res, after, log);
        if Tracked(inv, rank, saved, prior, files) {
          SuccessIsHonest(inv, rank, saved, prior, files, plan, res, after, log);
          HandsOn(inv, rank, saved, prior, files, plan, res, after, log, depfiles);
        }
      }
    }
  }

  /** If the run gives up, the edit makes no difference to anything it may write before that; if it
      does not, no target that has to fail or be skipped has a stale output. */
  ghost predicate Honest(inv: Invocation, rank: Rank, saved: SavedState, prior: Files, files: Files, plan: Plan)
    requires Proper(inv, rank)
  {
    var job := JobOf(inv, files, plan);
    if GivesUp(job) then saved.Saved? ==> NoneAhead(inv, rank, prior, files, Fine(job))
    else NoneStale(inv, rank, files, Lost(job))
  }

  /** The state a run leaves behind is in step with the disk it leaves behind. */
  ghost predicate LeavesTracked(inv: Invocation, rank: Rank, saved: SavedState, prior: Files, plan: Plan,
                                res: RunResult, after: Files, depfiles: map<Name, seq<Path>>)
    requires Proper(inv, rank)
  {
    Tracked(inv, rank, SavedAfter(inv, saved, depfiles, plan, res, after), PriorAfter(plan, res, prior, after), after)
  }

  /** Every run of an honest plan keeps the state in step; a run to the end does so only then. */
  lemma {:induction false} HandsOn(inv: Invocation, rank: Rank, saved: SavedState, prior: Files, files: Files,
                                   plan: Plan, res: RunResult, after: Files, log: seq<Event>,
                                   depfiles: map<Name, seq<Path>>)
    requires Eligible(inv, rank, saved, prior, files) && Tracked(inv, rank, saved, prior, files)
    requires Built(inv, rank, saved, files, plan, res, after, log)
    ensures Honest(inv, rank, saved, prior, files, plan) ==>
              LeavesTracked(inv, rank, saved, prior, plan, res, after, depfiles)
    ensures res.Finished? && LeavesTracked(inv, rank, saved, prior, plan, res, after, depfiles) ==>
              Honest(inv, rank, saved, prior, files, plan)
  {
    WhichEnd(inv, rank, saved, files, plan, res, after, log);
    if plan.selected == {} {
      NothingSelected(inv, rank, saved, files, plan, res, after, log);
    } else if res.Finished? {
      FinishHandsOn(inv, rank, saved, prior, files, plan, res, after, log, depfiles);
    } else if saved.Saved? && Honest(inv, rank, saved, prior, files, plan) {
      AbortHandsOn(inv, rank, saved, prior, files, plan, res, after, log);
    }
  }

  lemma {:induction false} FinishHandsOn(inv: Invocation, rank: Rank, saved: SavedState, prior: Files, files: Files,
                                         plan: Plan, res: RunResult, after: Files, log: seq<Event>,
                                         depfiles: map<Name, seq<Path>>)
    requires Eligible(inv, rank, saved, prior, files) && Built(inv, rank, saved, files, plan, res, after, log)
    requires res.Finished? && plan.selected != {}
    ensures LeavesTracked(inv, rank, saved, prior, plan, res, after, depfiles)
            <==> NoneStale(inv, rank, files, Lost(JobOf(inv, files, plan)))
  {
    FinishedIsTracked(inv, rank, saved, prior, files, plan, res, after, log);
  }

  lemma {:induction false} AbortHandsOn(inv: Invocation, rank: Rank, saved: SavedState, prior: Files, files: Files,
                                        plan: Plan, res: RunResult, after: Files, log: seq<Event>)
    requires Eligible(inv, rank, saved, prior, files) && Built(inv, rank, saved, files, plan, res, after, log)
    requires PresentMatch(inv.recipe, rank, inv.Scope(), prior, files)
    requires NoneAhead(inv, rank, prior, files, Fine(JobOf(inv, files, plan)))
    ensures PresentMatch(inv.recipe, rank, inv.Scope(), prior, after)
  {
    AbortedIsTracked(inv, rank, saved, prior, files, plan, res, after, log);
  }

  lemma {:induction false} WhichEnd(inv: Invocation, rank: Rank, saved: SavedState, files: Files, plan: Plan,
                                    res: RunResult, after: Files, log: seq<Event>)
    requires Proper(inv, rank) && Built(inv, rank, saved, files, plan, res, after, log)
    ensures if GivesUp(JobOf(inv, files, plan)) then res.Aborted? else res.Finished?
  {
    PlanIsSound(inv, rank, saved, files, plan);
    AbortsExactly(JobOf(inv, files, plan), rank, inv.Scope(), res, after, log);
    EndOf(JobOf(inv, files, plan), rank, inv.Scope(), res, after, log);
  }

  /** Every build of this plan leaves the state in step with the disk. */
  ghost predicate StaysTracked(inv: Invocation, picks: Picks, rank: Rank, saved: SavedState, prior: Files, files: Files,
                               plan: Plan, depfiles: map<Name, seq<Path>>)
    requires Proper(inv, rank)
  {
    forall res, after, log :: BuiltBy(inv, picks, rank, saved, files, plan, res, after, log) ==>
      LeavesTracked(inv, rank, saved, prior, plan, res, after, depfiles)
  }

  lemma {:induction false} HonestStaysTracked(inv: Invocation, picks: Picks, rank: Rank, saved: SavedState,
                                              prior: Files, files: Files, plan: Plan, depfiles: map<Name, seq<Path>>)
    requires Eligible(inv, rank, saved, prior, files) && Tracked(inv, rank, saved, prior, files)
    requires Honest(inv, rank, saved, prior, files, plan)
    ensures StaysTracked(inv, picks, rank, saved, prior, files, plan, depfiles)
  {
    forall res, after, log | BuiltBy(inv, picks, rank, saved, files, plan, res, after, log)
      ensures LeavesTracked(inv, rank, saved, prior, plan, res, after, depfiles)
    {
      BuiltByAny(inv, picks, rank, saved, files, plan, res, after, log);
      HandsOn(inv, rank, saved, prior, files, plan, res, after, log, depfiles);
    }
  }

  /** A run of a plan that is not honest, as bad as it gets. */
  lemma {:induction false} Untracked(inv: Invocation, picks: Picks, rank: Rank, saved: SavedState, prior: Files,
                                     files: Files, plan: Plan, depfiles: map<Name, seq<Path>>)
    returns (res: RunResult, after: Files, log: seq<Event>)
    requires Eligible(inv, rank, saved, prior, files) && Tracked(inv, rank, saved, prior, files)
    requires PlanFor(inv, saved, files, plan) && !Honest(inv, rank, saved, prior, files, plan)
    requires Legal(picks, inv.policy)
    requires GivesUp(JobOf(inv, files, plan)) ==> |Culprits(JobOf(inv, files, plan))| < inv.slots
    ensures BuiltBy(inv, picks, rank, saved, files, plan, res, after, log)
    ensures !LeavesTracked(inv, rank, saved, prior, plan, res, after, depfiles)
  {
    var job := JobOf(inv, files, plan);
    PlanIsSound(inv, rank, saved, files, plan);
    if GivesUp(job) {
      res, after, log := LateAbortExists(job, rank, inv.Scope(), picks);
      ExecutionsKeepPromise(job, rank, inv.Scope(), picks, res, after, log);
      BuiltByAny(inv, picks, rank, saved, files, plan, res, after, log);
      LateAbortIsAhead(inv, rank, saved, prior, files, plan, res, after, log);
    } else {
      res, after, log := FullRunExists(job, rank, inv.Scope(), picks);
      ExecutionsKeepPromise(job, rank, inv.Scope(), picks, res, after, log);
      BuiltByAny(inv, picks, rank, saved, files, plan, res, after, log);
      HandsOn(inv, rank, saved, prior, files, plan, res, after, log, depfiles);
    }
  }

  lemma {:induction false} LateAbortIsAhead(inv: Invocation, rank: Rank, saved: SavedState, prior: Files, files: Files,
                                            plan: Plan, res: RunResult, after: Files, log: seq<Event>)
    requires Eligible(inv, rank, saved, prior, files) && Built(inv, rank, saved, files, plan, res, after, log)
    requires Fine(JobOf(inv, files, plan)) == FinishedIn(log, true)
    ensures PresentMatch(inv.recipe, rank, inv.Scope(), prior, after) ==>
              NoneAhead(inv, rank, prior, files, Fine(JobOf(inv, files, plan)))
  {
    BuildEnds(inv, rank, saved, prior, files, plan, res, after, log);
    forall n | n in Fine(JobOf(inv, files, plan)) && n in inv.Scope()
               && PresentMatch(inv.recipe, rank, inv.Scope(), prior, after)
      ensures Clean(inv.recipe, rank, prior, n) == Clean(inv.recipe, rank, files, n)
    {
      assert EndsClean(JobOf(inv, files, plan), rank, after, log, n);
      assert HasClean(inv.recipe, rank, prior, after, n);
    }
  }

  /** The exact condition on the files before the build, for an invocation that does not give up or
      has more slots than culprits: however ready actions of equal priority are chosen between and
      however the run goes, the state stays in step with the disk. */
  lemma {:induction false} HandsOnWithSlots(inv: Invocation, picks: Picks, rank: Rank, saved: SavedState, prior: Files,
                                            files: Files, plan: Plan, depfiles: map<Name, seq<Path>>)
    requires Eligible(inv, rank, saved, prior, files) && Tracked(inv, rank, saved, prior, files)
    requires PlanFor(inv, saved, files, plan) && Legal(picks, inv.policy)
    requires GivesUp(JobOf(inv, files, plan)) ==> |Culprits(JobOf(inv, files, plan))| < inv.slots
    ensures Honest(inv, rank, saved, prior, files, plan)
            <==> StaysTracked(inv, picks, rank, saved, prior, files, plan, depfiles)
  {
    if Honest(inv, rank, saved, prior, files, plan) {
      HonestStaysTracked(inv, picks, rank, saved, prior, files, plan, depfiles);
    } else {
      var res, after, log := Untracked(inv, picks, rank, saved, prior, files, plan, depfiles);
    }
  }

  lemma {:induction false} OtherSlots(inv: Invocation, slots: nat, rank: Rank, saved: SavedState, prior: Files,
                                      files: Files, plan: Plan)
    requires Eligible(inv, rank, saved, prior, files) && Tracked(inv, rank, saved, prior, files) && slots >= 1
    requires PlanFor(inv, saved, files, plan)
    ensures var other := inv.(slots := slots);
            && Eligible(other, rank, saved, prior, files) && Tracked(other, rank, saved, prior, files)
            && PlanFor(other, saved, files, plan)
  {
    assert inv.(slots := slots).Scope() == inv.Scope();
  }

  lemma {:induction false} SlotsDoNotMatter(inv: Invocation, slots: nat, rank: Rank, saved: SavedState, prior: Files,
                                            files: Files, plan: Plan)
    requires Proper(inv, rank) && slots >= 1
    ensures Proper(inv.(slots := slots), rank)
    ensures var a, b := JobOf(inv, files, plan), JobOf(inv.(slots := slots), files, plan);
            Fine(a) == Fine(b) && GivesUp(a) == GivesUp(b) && Culprits(a) == Culprits(b)
    ensures Honest(inv, rank, saved, prior, files, plan)
            == Honest(inv.(slots := slots), rank, saved, prior, files, plan)
  {
    var other := inv.(slots := slots);
    assert other.Scope() == inv.Scope();
    SameBounds(JobOf(inv, files, plan), JobOf(other, files, plan));
  }

  /** The exact condition for every invocation, over all numbers of slots: if the plan is honest the
      state stays in step with the disk with any number of slots, and otherwise with some it need not. */
  lemma {:induction false} HandsOnExactly(inv: Invocation, picks: Picks, rank: Rank, saved: SavedState, prior: Files,
                                          files: Files, plan: Plan, depfiles: map<Name, seq<Path>>)
    requires Eligible(inv, rank, saved, prior, files) && Tracked(inv, rank, saved, prior, files)
    requires PlanFor(inv, saved, files, plan) && Legal(picks, inv.policy)
    ensures forall slots: nat :: slots >= 1 ==> Proper(inv.(slots := slots), rank)
    ensures Honest(inv, rank, saved, prior, files, plan)
            <==> forall slots: nat :: slots >= 1 ==>
                   StaysTracked(inv.(slots := slots), picks, rank, saved, prior, files, plan, depfiles)
  {
    forall slots: nat | slots >= 1
      ensures Proper(inv.(slots := slots), rank)
      ensures Honest(inv, rank, saved, prior, files, plan) ==>
                StaysTracked(inv.(slots := slots), picks, rank, saved, prior, files, plan, depfiles)
    {
      OtherSlots(inv, slots, rank, saved, prior, files, plan);
      SlotsDoNotMatter(inv, slots, rank, saved, prior, files, plan);
      if Honest(inv, rank, saved, prior, files, plan) {
        HonestStaysTracked(inv.(slots := slots), picks, rank, saved, prior, files, plan, depfiles);
      }
    }
    var enough := |Culprits(JobOf(inv, files, plan))| + 1;
    OtherSlots(inv, enough, rank, saved, prior, files, plan);
    SlotsDoNotMatter(inv, enough, rank, saved, prior, files, plan);
    HandsOnWithSlots(inv.(slots := enough), picks, rank, saved, prior, files, plan, depfiles);
  }

  /** More slots than culprits are needed for that: if as many failing actions as there are slots go
      first, nothing is written and the state stays in step, honest plan or not. */
  lemma {:induction false} CrowdStaysTracked(inv: Invocation, picks: Picks, rank: Rank, saved: SavedState, prior: Files,
                                             files: Files, plan: Plan, depfiles: map<Name, seq<Path>>, first: set<Name>)
    requires Eligible(inv, rank, saved, prior, files) && Tracked(inv, rank, saved, prior, files)
    requires PlanFor(inv, saved, files, plan) && Crowd(JobOf(inv, files, plan), first)
    ensures StaysTracked(inv, picks, rank, saved, prior, files, plan, depfiles)
  {
    var job := JobOf(inv, files, plan);
    PlanIsSound(inv, rank, saved, files, plan);
    forall res, after, log | BuiltBy(inv, picks, rank, saved, files, plan, res, after, log)
      ensures LeavesTracked(inv, rank, saved, prior, plan, res, after, depfiles)
    {
      CrowdWritesNothing(job, rank, inv.Scope(), first, picks, res, after, log);
      UntouchedStaysTracked(inv, rank, saved, prior, files, after);
    }
  }

  lemma {:induction false} UntouchedStaysTracked(inv: Invocation, rank: Rank, saved: SavedState, prior: Files,
                                                 files: Files, after: Files)
    requires Proper(inv, rank) && Tracked(inv, rank, saved, prior, files)
    requires forall n :: n in inv.Scope() ==> Untouched(inv.recipe.ws, files, after, n)
    ensures Tracked(inv, rank, saved, prior, after)
  {
    if saved.Saved? {
      forall n | n in inv.Scope() && inv.recipe.ws.targets[n].out in after
        ensures HasClean(inv.recipe, rank, prior, after, n)
      {
        assert HasClean(inv.recipe, rank, prior, files, n);
      }
    }
  }

  /** The promise itself: with all outputs in place before the edit, a successful incremental
      build and a successful forced build of a disk with the same sources agree on every output,
      whatever the two schedules were. */
  method IncrementalEqualsClean(inv: Invocation, saved: SavedState, files: Files, scratch: Files,
                                depfiles: map<Name, seq<Path>>, ghost rank: Rank, ghost prior: Files)
    returns (a: RunResult, b: RunResult, incremental: Files, clean: Files)
    requires Eligible(inv, rank, saved, prior, files)
    requires forall n :: n in inv.Scope() ==>
               && inv.recipe.ws.targets[n].out in files
               && SameAt(files, scratch, inv.recipe.ws.targets[n].src)
    ensures a.Finished? && a.failed == {} && b.Finished? && b.failed == {} ==>
              forall n :: n in inv.Scope() ==>
                && inv.recipe.ws.targets[n].out in incremental
                && inv.recipe.ws.targets[n].out in clean
                && incremental[inv.recipe.ws.targets[n].out] == clean[inv.recipe.ws.targets[n].out]
    ensures Cold(inv, saved) || NoneFails(inv, rank, prior) ==>
              (a.Finished? && a.failed == {} <==> b.Finished? && b.failed == {})
  {
    var plan, plan', saved1, saved2;
    ghost var log, log';
    plan, a, incremental, log, saved1 := Build(inv, saved, files, depfiles, rank, prior);
    var forced := inv.(forceAll := true);
    plan', b, clean, log', saved2 := Build(forced, NoState, scratch, depfiles, rank, scratch);
    if a.Finished? && a.failed == {} && b.Finished? && b.failed == {} {
      CleanDisksAgree(inv, rank, files, plan, incremental, scratch, plan', clean);
    }
  }

  lemma {:induction false} CleanDisksAgree(inv: Invocation, rank: Rank, a: Files, plan: Plan, after: Files,
                                           b: Files, plan': Plan, after': Files)
    requires Proper(inv, rank)
    requires CleanAfter(inv, rank, a, plan, after) && CleanAfter(inv.(forceAll := true), rank, b, plan', after')
    requires PlanFor(inv.(forceAll := true), NoState, b, plan')
    requires forall n :: n in inv.Scope() ==>
               && inv.recipe.ws.targets[n].out in a
               && SameAt(a, b, inv.recipe.ws.targets[n].src)
    ensures forall n :: n in inv.Scope() ==>
              && inv.recipe.ws.targets[n].out in after
              && inv.recipe.ws.targets[n].out in after'
              && after[inv.recipe.ws.targets[n].out] == after'[inv.recipe.ws.targets[n].out]
  {
    ClosureIsClosed(DepGraph(inv.recipe.ws), inv.roots);
    forall n | n in inv.Scope()
      ensures inv.recipe.ws.targets[n].out in after && inv.recipe.ws.targets[n].out in after'
      ensures after[inv.recipe.ws.targets[n].out] == after'[inv.recipe.ws.targets[n].out]
    {
      assert n in OfKinds(inv.recipe.ws, plan'.affected, inv.kinds);
      CleanAgrees(inv.recipe, rank, rank, inv.Scope(), a, b, n);
    }
  }
}
