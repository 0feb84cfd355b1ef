/** What the incremental build still guarantees once failures have been forgotten: which outputs
    are right all the same, through any number of builds, and how the rest comes right again. */
module Recovery {
  import opened Digraph
  import opened Planner
  import opened Scheduler
  import opened Executor
  import opened Endings
  import opened Runs
  import opened Incremental
  import opened Sessions

  /** A source at or below n asks for failure. */
  ghost predicate Excused(r: Recipe, files: Files, n: Name) {
    exists m :: AsksUnder(r, files, n, m)
  }

  ghost predicate AsksUnder(r: Recipe, files: Files, n: Name, m: Name) {
    m in r.ws.targets && Reaches(DepGraph(r.ws), n, m) && Fails(r, files, m)
  }

  /** Outputs on disk are those of the sources in prior, but for the excused ones. */
  ghost predicate MatchButFor(r: Recipe, rank: Rank, scope: set<Name>, prior: Files, files: Files)
    requires Buildable(r.ws, rank) && scope <= r.ws.targets.Keys
  {
    forall n :: n in scope && r.ws.targets[n].out in files && !Excused(r, prior, n) ==>
        HasClean(r, rank, prior, files, n)
  }

  /** What every build that runs to its end hands on, with or without failures. */
  ghost predicate TrackedButFor(inv: Invocation, rank: Rank, saved: SavedState, prior: Files, files: Files)
    requires Proper(inv, rank)
  {
    saved.Saved? ==> Remembers(inv.sha, saved, prior) && MatchButFor(inv.recipe, rank, inv.Scope(), prior, files)
  }

  ghost predicate EligibleButFor(inv: Invocation, rank: Rank, saved: SavedState, prior: Files, files: Files) {
    && Proper(inv, rank)
    && (Cold(inv, saved) || (TrackedButFor(inv, rank, saved, prior, files) && Visible(inv, rank, prior, files)))
  }

  lemma {:induction false} EligibleIsWatched(inv: Invocation, rank: Rank, saved: SavedState, prior: Files, files: Files)
    requires EligibleButFor(inv, rank, saved, prior, files)
    ensures Watched(inv, rank, saved, prior, files)
  {
  }

  // ------------------------------------------------------------- excuses

  lemma {:induction false} ExcuseClimbs(r: Recipe, files: Files, n: Name, d: Name)
    requires Edge(DepGraph(r.ws), n, d) && Excused(r, files, d)
    ensures Excused(r, files, n)
  {
    var m :| AsksUnder(r, files, d, m);
    ReachesEdge(DepGraph(r.ws), n, d);
    ReachesTransitive(DepGraph(r.ws), n, d, m);
    assert AsksUnder(r, files, n, m);
  }

  lemma {:induction false} SameExcuse(r: Recipe, scope: set<Name>, a: Files, b: Files, n: Name)
    requires scope <= r.ws.targets.Keys && ClosedUnder(DepGraph(r.ws), scope) && n in scope
    requires forall m :: m in scope && Reaches(DepGraph(r.ws), n, m) ==> Fails(r, a, m) == Fails(r, b, m)
    ensures Excused(r, a, n) == Excused(r, b, n)
  {
    forall m
      ensures AsksUnder(r, a, n, m) == AsksUnder(r, b, n, m)
    {
      if Reaches(DepGraph(r.ws), n, m) {
        ReachesStaysInside(DepGraph(r.ws), scope, n, m);
      }
    }
  }

  /** An edit that does not affect n does not change what n is excused for. */
  lemma {:induction false} UnaffectedExcuse(inv: Invocation, rank: Rank, saved: SavedState, prior: Files, files: Files,
                                            plan: Plan, n: Name)
    requires Watched(inv, rank, saved, prior, files) && PlanFor(inv, saved, files, plan)
    requires n in inv.Scope() && n !in plan.affected
    ensures Excused(inv.recipe, prior, n) == Excused(inv.recipe, files, n)
  {
    var g := DepGraph(inv.recipe.ws);
    ClosureIsClosed(g, inv.roots);
    UnaffectedSources(inv, rank, saved, prior, files, plan, n);
    forall m | m in inv.Scope() && Reaches(g, n, m)
      ensures Fails(inv.recipe, prior, m) == Fails(inv.recipe, files, m)
    {
      assert m in DepClosure(g, {n});
    }
    SameExcuse(inv.recipe, inv.Scope(), prior, files, n);
  }

  lemma {:induction false} InducedReaches(g: Graph, s: set<Name>, p: seq<Name>)
    requires Walk(Induced(g, s), p)
    ensures Walk(g, p)
  {
    forall i | 0 <= i < |p| - 1
      ensures Edge(g, p[i], p[i + 1])
    {
      assert Edge(Induced(g, s), p[i], p[i + 1]);
    }
  }

  lemma {:induction false} DoomedIsExcused(job: Job, n: Name)
    requires Doomed(job, n)
    ensures Excused(job.recipe, job.before, n)
  {
    var m :| AsksBelow(job, n, m);
    var p :| WalkBetween(job.Graph(), p, n, m);
    InducedReaches(DepGraph(job.recipe.ws), job.selected, p);
    assert WalkBetween(DepGraph(job.recipe.ws), p, n, m);
    assert AsksUnder(job.recipe, job.before, n, m);
  }

  /** A request for failure that was not there before is found, and everything above it is run. */
  lemma {:induction false} NewFailureDooms(inv: Invocation, rank: Rank, saved: SavedState, prior: Files, files: Files,
                                           plan: Plan, n: Name, m: Name)
    requires Watched(inv, rank, saved, prior, files) && PlanFor(inv, saved, files, plan)
    requires n in inv.Scope() && AsksUnder(inv.recipe, files, n, m)
    requires Cold(inv, saved) || !Fails(inv.recipe, prior, m)
    ensures n in plan.selected && AsksBelow(JobOf(inv, files, plan), n, m)
    decreases rank[n]
  {
    var g, job := DepGraph(inv.recipe.ws), JobOf(inv, files, plan);
    ClosureIsClosed(g, inv.roots);
    ReachesStaysInside(g, inv.Scope(), n, m);
    if !Cold(inv, saved) {
      ChangedIsDetected(inv, rank, saved, prior, files, plan, m);
      assert ReachesSome(g, n, plan.changedTargets);
    }
    assert n in OfKinds(inv.recipe.ws, plan.affected, inv.kinds);
    if n == m {
      ReachesSelf(job.Graph(), n);
    } else {
      var d := ReachesFirstEdge(g, n, m);
      NewFailureDooms(inv, rank, saved, prior, files, plan, d, m);
      assert Edge(job.Graph(), n, d);
      ReachesEdge(job.Graph(), n, d);
      ReachesTransitive(job.Graph(), n, d, m);
    }
  }

  /** So what was not excused before, and is not doomed, is not excused now. */
  lemma {:induction false} FineIsUnexcused(inv: Invocation, rank: Rank, saved: SavedState, prior: Files, files: Files,
                                           plan: Plan, n: Name)
    requires Watched(inv, rank, saved, prior, files) && PlanFor(inv, saved, files, plan)
    requires n in inv.Scope() && (Cold(inv, saved) || !Excused(inv.recipe, prior, n))
    requires !Doomed(JobOf(inv, files, plan), n)
    ensures !Excused(inv.recipe, files, n)
  {
    forall m
      ensures !AsksUnder(inv.recipe, files, n, m)
    {
      if AsksUnder(inv.recipe, files, n, m) {
        assert !Cold(inv, saved) ==> !AsksUnder(inv.recipe, prior, n, m);
        NewFailureDooms(inv, rank, saved, prior, files, plan, n, m);
      }
    }
  }

  // ------------------------------------------------------------- one build

  /** An unexcused output outside the selection is already right. */
  lemma {:induction false} UnselectedIsRight(inv: Invocation, rank: Rank, saved: SavedState, prior: Files, files: Files,
                                             plan: Plan, n: Name)
    requires EligibleButFor(inv, rank, saved, prior, files) && PlanFor(inv, saved, files, plan)
    requires n in inv.Scope() && n !in plan.selected && inv.recipe.ws.targets[n].out in files
    requires !Excused(inv.recipe, files, n)
    ensures HasClean(inv.recipe, rank, files, files, n)
  {
    EligibleIsWatched(inv, rank, saved, prior, files);
    assert n !in plan.affected by {
      assert n in plan.affected ==> n in OfKinds(inv.recipe.ws, plan.affected, inv.kinds);
    }
    UnaffectedSources(inv, rank, saved, prior, files, plan, n);
    UnaffectedExcuse(inv, rank, saved, prior, files, plan, n);
    UnaffectedIsUnchanged(inv, rank, saved, prior, files, plan, n);
    assert HasClean(inv.recipe, rank, prior, files, n);
  }

  /** All that is read below a selected target that is not excused is clean. */
  lemma {:induction false} UnexcusedIsGrounded(inv: Invocation, rank: Rank, saved: SavedState, prior: Files,
                                               files: Files,
                                               plan: Plan, n: Name)
    requires EligibleButFor(inv, rank, saved, prior, files) && PlanFor(inv, saved, files, plan)
    requires n in plan.selected && !Excused(inv.recipe, files, n)
    ensures Grounded(inv.recipe, rank, plan.selected, files, n)
    decreases rank[n]
  {
    var g := DepGraph(inv.recipe.ws);
    ClosureIsClosed(g, inv.roots);
    forall d | Edge(g, n, d)
      ensures if d in plan.selected then Grounded(inv.recipe, rank, plan.selected, files, d)
              else HasClean(inv.recipe, rank, files, files, d)
    {
      if Excused(inv.recipe, files, d) {
        ExcuseClimbs(inv.recipe, files, n, d);
      }
      if d in plan.selected {
        UnexcusedIsGrounded(inv, rank, saved, prior, files, plan, d);
      } else {
        assert !NeedsOutput(inv.recipe.ws, files, n, d);
        UnselectedIsRight(inv, rank, saved, prior, files, plan, d);
      }
    }
  }

  /** However the run goes, what is written of it is right. */
  lemma {:induction false} UnexcusedEnds(inv: Invocation, rank: Rank, saved: SavedState, prior: Files, files: Files,
                                         plan: Plan, res: RunResult, after: Files, log: seq<Event>, n: Name)
    requires EligibleButFor(inv, rank, saved, prior, files) && Built(inv, rank, saved, files, plan, res, after, log)
    requires n in inv.Scope() && !Excused(inv.recipe, files, n)
    ensures EndsClean(JobOf(inv, files, plan), rank, after, log, n)
  {
    var job := JobOf(inv, files, plan);
    PlanIsSound(inv, rank, saved, files, plan);
    FinishedAreStarted(job.Graph(), job.slots, log);
    if n in plan.selected {
      UnexcusedIsGrounded(inv, rank, saved, prior, files, plan, n);
    }
    GroundedEnds(job, rank, after, log, n);
  }

  /** A build that ran to its end leaves every output on disk right, but for the excused ones. */
  lemma {:induction false} FinishedIsRight(inv: Invocation, rank: Rank, saved: SavedState, prior: Files, files: Files,
                                           plan: Plan, res: RunResult, after: Files, log: seq<Event>, n: Name)
    requires EligibleButFor(inv, rank, saved, prior, files) && Built(inv, rank, saved, files, plan, res, after, log)
    requires res.Finished? && n in inv.Scope() && !Excused(inv.recipe, files, n)
    ensures inv.recipe.ws.targets[n].out in after <==> inv.recipe.ws.targets[n].out in files || n in plan.selected
    ensures inv.recipe.ws.targets[n].out in after ==> HasClean(inv.recipe, rank, files, after, n)
  {
    var job := JobOf(inv, files, plan);
    UnexcusedEnds(inv, rank, saved, prior, files, plan, res, after, log, n);
    PlanIsSound(inv, rank, saved, files, plan);
    DoomedExactly(job, rank, inv.Scope(), res, after, log, n);
    if n in plan.selected {
      if Doomed(job, n) {
        DoomedIsExcused(job, n);
      }
      assert n in FinishedIn(log, true);
    } else if inv.recipe.ws.targets[n].out in files {
      UnselectedIsRight(inv, rank, saved, prior, files, plan, n);
    }
  }

  lemma {:induction false} ExcusedAfter(inv: Invocation, rank: Rank, saved: SavedState, files: Files, plan: Plan,
                                        res: RunResult, after: Files, log: seq<Event>, n: Name)
    requires Proper(inv, rank) && Built(inv, rank, saved, files, plan, res, after, log) && n in inv.Scope()
    ensures Excused(inv.recipe, after, n) == Excused(inv.recipe, files, n)
  {
    RunEnds(inv, rank, saved, files, plan, res, after, log);
    ClosureIsClosed(DepGraph(inv.recipe.ws), inv.roots);
    SameExcuse(inv.recipe, inv.Scope(), after, files, n);
  }

  ghost predicate LeavesTrackedButFor(inv: Invocation, rank: Rank, saved: SavedState, prior: Files, plan: Plan,
                                      res: RunResult, after: Files, depfiles: map<Name, seq<Path>>)
    requires Proper(inv, rank)
  {
    TrackedButFor(inv, rank, SavedAfter(inv, saved, depfiles, plan, res, after), PriorAfter(plan, res, prior, after),
                  after)
  }

  /** So every build that runs to its end hands on what the next one needs, failures or not. */
  lemma {:induction false} FinishedHandsOn(inv: Invocation, rank: Rank, saved: SavedState, prior: Files, files: Files,
                                           plan: Plan, res: RunResult, after: Files, log: seq<Event>,
                                           depfiles: map<Name, seq<Path>>)
    requires EligibleButFor(inv, rank, saved, prior, files) && TrackedButFor(inv, rank, saved, prior, files)
    requires Built(inv, rank, saved, files, plan, res, after, log) && res.Finished?
    ensures LeavesTrackedButFor(inv, rank, saved, prior, plan, res, after, depfiles)
  {
    if plan.selected == {} {
      NothingSelected(inv, rank, saved, files, plan, res, after, log);
    } else {
      forall n | n in inv.Scope() && inv.recipe.ws.targets[n].out in after && !Excused(inv.recipe, after, n)
        ensures HasClean(inv.recipe, rank, after, after, n)
      {
        ExcusedAfter(inv, rank, saved, files, plan, res, after, log, n);
        RunEnds(inv, rank, saved, files, plan, res, after, log);
        FinishedIsRight(inv, rank, saved, prior, files, plan, res, after, log, n);
      }
    }
  }

  /** If the run gives up, the edit makes no difference to what it may write before that and was not
      excused. */
  ghost predicate Mild(inv: Invocation, rank: Rank, saved: SavedState, prior: Files, files: Files, plan: Plan)
    requires Proper(inv, rank)
  {
    GivesUp(JobOf(inv, files, plan)) && saved.Saved? ==>
      forall n :: n in Fine(JobOf(inv, files, plan)) && n in inv.Scope() && !Excused(inv.recipe, prior, n) ==>
        Clean(inv.recipe, rank, prior, n) == Clean(inv.recipe, rank, files, n)
  }

  lemma {:induction false} AbortedIsMild(inv: Invocation, rank: Rank, saved: SavedState, prior: Files, files: Files,
                                         plan: Plan, res: RunResult, after: Files, log: seq<Event>, n: Name)
    requires EligibleButFor(inv, rank, saved, prior, files) && Built(inv, rank, saved, files, plan, res, after, log)
    requires n in inv.Scope() && inv.recipe.ws.targets[n].out in after && !Excused(inv.recipe, prior, n)
    requires MatchButFor(inv.recipe, rank, inv.Scope(), prior, files)
    requires n in Fine(JobOf(inv, files, plan)) ==>
              Clean(inv.recipe, rank, prior, n) == Clean(inv.recipe, rank, files, n)
    ensures HasClean(inv.recipe, rank, prior, after, n)
  {
    if Untouched(inv.recipe.ws, files, after, n) {
      assert HasClean(inv.recipe, rank, prior, files, n);
    } else {
      EligibleIsWatched(inv, rank, saved, prior, files);
      OnlyFineIsWritten(inv, rank, saved, files, plan, res, after, log);
      assert n in Written(inv, rank, files, after);
      FineIsUnexcused(inv, rank, saved, prior, files, plan, n);
      UnexcusedEnds(inv, rank, saved, prior, files, plan, res, after, log, n);
    }
  }

  lemma {:induction false} AbortedHandsOn(inv: Invocation, rank: Rank, saved: SavedState, prior: Files, files: Files,
                                          plan: Plan, res: RunResult, after: Files, log: seq<Event>)
    requires EligibleButFor(inv, rank, saved, prior, files) && Built(inv, rank, saved, files, plan, res, after, log)
    requires MatchButFor(inv.recipe, rank, inv.Scope(), prior, files)
    requires saved.Saved? && GivesUp(JobOf(inv, files, plan)) && Mild(inv, rank, saved, prior, files, plan)
    ensures MatchButFor(inv.recipe, rank, inv.Scope(), prior, after)
  {
    forall n | n in inv.Scope() && inv.recipe.ws.targets[n].out in after && !Excused(inv.recipe, prior, n)
      ensures HasClean(inv.recipe, rank, prior, after, n)
    {
      AbortedIsMild(inv, rank, saved, prior, files, plan, res, after, log, n);
    }
  }

  lemma {:induction false} MildHandsOn(inv: Invocation, rank: Rank, saved: SavedState, prior: Files, files: Files,
                                       plan: Plan, res: RunResult, after: Files, log: seq<Event>,
                                       depfiles: map<Name, seq<Path>>)
    requires EligibleButFor(inv, rank, saved, prior, files) && TrackedButFor(inv, rank, saved, prior, files)
    requires Built(inv, rank, saved, files, plan, res, after, log) && Mild(inv, rank, saved, prior, files, plan)
    ensures LeavesTrackedButFor(inv, rank, saved, prior, plan, res, after, depfiles)
  {
    WhichEnd(inv, rank, saved, files, plan, res, after, log);
    if res.Finished? {
      FinishedHandsOn(inv, rank, saved, prior, files, plan, res, after, log, depfiles);
    } else if saved.Saved? {
      AbortedHandsOn(inv, rank, saved, prior, files, plan, res, after, log);
    }
  }

  /** A run cut short as late as possible shows whether the edit was mild. */
  lemma {:induction false} LateAbortIsMild(inv: Invocation, rank: Rank, saved: SavedState, prior: Files, files: Files,
                                           plan: Plan, res: RunResult, after: Files, log: seq<Event>, n: Name)
    requires EligibleButFor(inv, rank, saved, prior, files) && Built(inv, rank, saved, files, plan, res, after, log)
    requires Fine(JobOf(inv, files, plan)) == FinishedIn(log, true)
    requires MatchButFor(inv.recipe, rank, inv.Scope(), prior, after)
    requires n in Fine(JobOf(inv, files, plan)) && n in inv.Scope() && !Excused(inv.recipe, prior, n)
    ensures Clean(inv.recipe, rank, prior, n) == Clean(inv.recipe, rank, files, n)
  {
    EligibleIsWatched(inv, rank, saved, prior, files);
    FineIsUnexcused(inv, rank, saved, prior, files, plan, n);
    UnexcusedEnds(inv, rank, saved, prior, files, plan, res, after, log, n);
    assert HasClean(inv.recipe, rank, prior, after, n);
  }

  /** Every build of this plan hands on what the next one needs. */
  ghost predicate StaysTrackedButFor(inv: Invocation, picks: Picks, rank: Rank, saved: SavedState, prior: Files,
                                     files: Files, plan: Plan, depfiles: map<Name, seq<Path>>)
    requires Proper(inv, rank)
  {
    forall res, after, log :: BuiltBy(inv, picks, rank, saved, files, plan, res, after, log) ==>
      LeavesTrackedButFor(inv, rank, saved, prior, plan, res, after, depfiles)
  }

  lemma {:induction false} MildStaysTracked(inv: Invocation, picks: Picks, rank: Rank, saved: SavedState, prior: Files,
                                            files: Files, plan: Plan, depfiles: map<Name, seq<Path>>)
    requires EligibleButFor(inv, rank, saved, prior, files) && TrackedButFor(inv, rank, saved, prior, files)
    requires Mild(inv, rank, saved, prior, files, plan)
    ensures StaysTrackedButFor(inv, picks, rank, saved, prior, files, plan, depfiles)
  {
    forall res, after, log | BuiltBy(inv, picks, rank, saved, files, plan, res, after, log)
      ensures LeavesTrackedButFor(inv, rank, saved, prior, plan, res, after, depfiles)
    {
      BuiltByAny(inv, picks, rank, saved, files, plan, res, after, log);
      MildHandsOn(inv, rank, saved, prior, files, plan, res, after, log, depfiles);
    }
  }

  /** The exact condition on the files before the build, for an invocation that does not give up, and
      then meets it, or has more slots than culprits. */
  lemma {:induction false} MildWithSlots(inv: Invocation, picks: Picks, rank: Rank, saved: SavedState, prior: Files,
                                         files: Files, plan: Plan, depfiles: map<Name, seq<Path>>)
    requires EligibleButFor(inv, rank, saved, prior, files) && TrackedButFor(inv, rank, saved, prior, files)
    requires PlanFor(inv, saved, files, plan) && Legal(picks, inv.policy)
    requires GivesUp(JobOf(inv, files, plan)) ==> |Culprits(JobOf(inv, files, plan))| < inv.slots
    ensures Mild(inv, rank, saved, prior, files, plan)
            <==> StaysTrackedButFor(inv, picks, rank, saved, prior, files, plan, depfiles)
  {
    if Mild(inv, rank, saved, prior, files, plan) {
      MildStaysTracked(inv, picks, rank, saved, prior, files, plan, depfiles);
    } else if StaysTrackedButFor(inv, picks, rank, saved, prior, files, plan, depfiles) {
      StayingIsMild(inv, picks, rank, saved, prior, files, plan, depfiles);
    }
  }

  lemma {:induction false} StayingIsMild(inv: Invocation, picks: Picks, rank: Rank, saved: SavedState, prior: Files,
                                         files: Files, plan: Plan, depfiles: map<Name, seq<Path>>)
    requires EligibleButFor(inv, rank, saved, prior, files) && TrackedButFor(inv, rank, saved, prior, files)
    requires PlanFor(inv, saved, files, plan) && Legal(picks, inv.policy)
    requires GivesUp(JobOf(inv, files, plan)) ==> |Culprits(JobOf(inv, files, plan))| < inv.slots
    requires StaysTrackedButFor(inv, picks, rank, saved, prior, files, plan, depfiles)
    ensures Mild(inv, rank, saved, prior, files, plan)
  {
    var job := JobOf(inv, files, plan);
    if GivesUp(job) && saved.Saved? {
      PlanIsSound(inv, rank, saved, files, plan);
      var res, after, log := LateAbortExists(job, rank, inv.Scope(), picks);
      ExecutionsKeepPromise(job, rank, inv.Scope(), picks, res, after, log);
      assert BuiltBy(inv, picks, rank, saved, files, plan, res, after, log);
      BuiltByAny(inv, picks, rank, saved, files, plan, res, after, log);
      forall n | n in Fine(job) && n in inv.Scope() && !Excused(inv.recipe, prior, n)
        ensures Clean(inv.recipe, rank, prior, n) == Clean(inv.recipe, rank, files, n)
      {
        LateAbortIsMild(inv, rank, saved, prior, files, plan, res, after, log, n);
      }
    }
  }

  lemma {:induction false} MildWithOtherSlots(inv: Invocation, slots: nat, rank: Rank, saved: SavedState, prior: Files,
                                              files: Files, plan: Plan)
    requires EligibleButFor(inv, rank, saved, prior, files) && TrackedButFor(inv, rank, saved, prior, files)
    requires PlanFor(inv, saved, files, plan) && slots >= 1
    ensures var other := inv.(slots := slots);
            && EligibleButFor(other, rank, saved, prior, files) && TrackedButFor(other, rank, saved, prior, files)
            && PlanFor(other, saved, files, plan)
            && Mild(other, rank, saved, prior, files, plan) == Mild(inv, rank, saved, prior, files, plan)
            && Culprits(JobOf(other, files, plan)) == Culprits(JobOf(inv, files, plan))
  {
    assert inv.(slots := slots).Scope() == inv.Scope();
    SlotsDoNotMatter(inv, slots, rank, saved, prior, files, plan);
  }

  /** The exact condition for every invocation, over all numbers of slots. */
  lemma {:induction false} MildExactly(inv: Invocation, picks: Picks, rank: Rank, saved: SavedState, prior: Files,
                                       files: Files, plan: Plan, depfiles: map<Name, seq<Path>>)
    requires EligibleButFor(inv, rank, saved, prior, files) && TrackedButFor(inv, rank, saved, prior, files)
    requires PlanFor(inv, saved, files, plan) && Legal(picks, inv.policy)
    ensures forall slots: nat :: slots >= 1 ==> Proper(inv.(slots := slots), rank)
    ensures Mild(inv, rank, saved, prior, files, plan)
            <==> forall slots: nat :: slots >= 1 ==>
                   StaysTrackedButFor(inv.(slots := slots), picks, rank, saved, prior, files, plan, depfiles)
  {
    forall slots: nat | slots >= 1
      ensures Proper(inv.(slots := slots), rank)
      ensures Mild(inv, rank, saved, prior, files, plan) ==>
                StaysTrackedButFor(inv.(slots := slots), picks, rank, saved, prior, files, plan, depfiles)
    {
      MildWithOtherSlots(inv, slots, rank, saved, prior, files, plan);
      if Mild(inv, rank, saved, prior, files, plan) {
        MildStaysTracked(inv.(slots := slots), picks, rank, saved, prior, files, plan, depfiles);
      }
    }
    var enough := |Culprits(JobOf(inv, files, plan))| + 1;
    MildWithOtherSlots(inv, enough, rank, saved, prior, files, plan);
    MildWithSlots(inv.(slots := enough), picks, rank, saved, prior, files, plan, depfiles);
  }

  // ------------------------------------------------------------- the verdict

  lemma {:induction false} NobodyIsExcused(inv: Invocation, rank: Rank, files: Files, n: Name)
    requires Proper(inv, rank) && NoneFails(inv, rank, files) && n in inv.Scope()
    ensures !Excused(inv.recipe, files, n)
  {
    ClosureIsClosed(DepGraph(inv.recipe.ws), inv.roots);
    forall m
      ensures !AsksUnder(inv.recipe, files, n, m)
    {
      if Reaches(DepGraph(inv.recipe.ws), n, m) {
        ReachesStaysInside(DepGraph(inv.recipe.ws), inv.Scope(), n, m);
      }
    }
  }

  lemma {:induction false} RepairedSucceeds(inv: Invocation, rank: Rank, saved: SavedState, files: Files, plan: Plan,
                                            res: RunResult, after: Files, log: seq<Event>)
    requires Proper(inv, rank) && Built(inv, rank, saved, files, plan, res, after, log)
    requires NoneFails(inv, rank, files)
    ensures res.Finished? && res.failed == {}
  {
    var job := JobOf(inv, files, plan);
    assert plan.selected <= inv.Scope();
    assert !GivesUp(job);
    WhichEnd(inv, rank, saved, files, plan, res, after, log);
    LostExactly(inv, rank, saved, files, plan, res, after, log);
    forall n | n in plan.selected
      ensures n in Fine(job)
    {
      NobodyIsExcused(inv, rank, files, n);
      if Doomed(job, n) {
        DoomedIsExcused(job, n);
      }
    }
  }

  /** Once no source of the closure asks for failure, the build succeeds, and everything is right
      again, whatever failed before. */
  lemma {:induction false} RepairedIsClean(inv: Invocation, rank: Rank, saved: SavedState, prior: Files, files: Files,
                                           plan: Plan, res: RunResult, after: Files, log: seq<Event>)
    requires EligibleButFor(inv, rank, saved, prior, files) && Built(inv, rank, saved, files, plan, res, after, log)
    requires NoneFails(inv, rank, files)
    ensures res.Finished? && res.failed == {} && CleanAfter(inv, rank, files, plan, after)
  {
    RepairedSucceeds(inv, rank, saved, files, plan, res, after, log);
    forall n | n in inv.Scope()
      ensures inv.recipe.ws.targets[n].out in after <==> inv.recipe.ws.targets[n].out in files || n in plan.selected
      ensures inv.recipe.ws.targets[n].out in after ==> HasClean(inv.recipe, rank, files, after, n)
    {
      NobodyIsExcused(inv, rank, files, n);
      FinishedIsRight(inv, rank, saved, prior, files, plan, res, after, log, n);
    }
  }

  /** A success leaves unreported only failures that were asked for before, too. */
  lemma {:induction false} SuccessHidesOldFailures(inv: Invocation, rank: Rank, saved: SavedState, prior: Files,
                                                   files: Files, plan: Plan, res: RunResult, after: Files,
                                                   log: seq<Event>, m: Name)
    requires Watched(inv, rank, saved, prior, files) && Built(inv, rank, saved, files, plan, res, after, log)
    requires res.Finished? && res.failed == {} && m in inv.Scope() && Fails(inv.recipe, files, m)
    ensures !Cold(inv, saved) && m !in plan.selected && Fails(inv.recipe, prior, m)
  {
    RunEnds(inv, rank, saved, files, plan, res, after, log);
    assert EndsAs(JobOf(inv, files, plan), rank, after, log, m);
    assert m !in plan.selected;
    assert m !in plan.affected by {
      assert m in plan.affected ==> m in OfKinds(inv.recipe.ws, plan.affected, inv.kinds);
    }
    UnaffectedSources(inv, rank, saved, prior, files, plan, m);
    UnaffectedIsUnchanged(inv, rank, saved, prior, files, plan, m);
  }

  // ---------------------------------------------------------------- sessions

  /** Any sequence of edits and builds; a project that was never built is a start. */
  ghost predicate LongSession(rounds: seq<Round>, rank: Rank, prior: Files) {
    && Rounds(rounds, rank, prior)
    && (rounds != [] ==> TrackedButFor(rounds[0].inv, rank, rounds[0].saved, prior, rounds[0].files))
  }

  ghost predicate MildAt(rounds: seq<Round>, rank: Rank, prior: Files, k: nat)
    requires k < |rounds|
  {
    Proper(rounds[k].inv, rank)
    && Mild(rounds[k].inv, rank, rounds[k].saved, PriorAt(rounds, prior, k), rounds[k].files, rounds[k].plan)
  }

  lemma {:induction false} SameProjectExcuse(a: Invocation, b: Invocation, depfiles: map<Name, seq<Path>>, files: Files,
                                             n: Name)
    requires SameProject(a, b, depfiles)
    ensures Excused(b.recipe, files, n) == Excused(a.recipe, files, n)
  {
    SameProjectScope(a, b, depfiles);
    forall m
      ensures AsksUnder(b.recipe, files, n, m) == AsksUnder(a.recipe, files, n, m)
    {
    }
  }

  lemma {:induction false} FollowsTrackedButFor(r: Round, next: Round, rank: Rank, prior: Files)
    requires Follows(r, next) && Proper(r.inv, rank) && Proper(next.inv, rank)
    requires TrackedButFor(r.inv, rank, r.Saved(), prior, r.after)
    ensures TrackedButFor(next.inv, rank, next.saved, prior, next.files)
  {
    if next.saved.Saved? {
      SameProjectScope(r.inv, next.inv, r.depfiles);
      forall n | n in next.inv.Scope() && next.inv.recipe.ws.targets[n].out in next.files
                 && !Excused(next.inv.recipe, prior, n)
        ensures HasClean(next.inv.recipe, rank, prior, next.files, n)
      {
        SameProjectExcuse(r.inv, next.inv, r.depfiles, prior, n);
        assert HasClean(r.inv.recipe, rank, prior, r.after, n);
        CleanIgnoresDepfiles(r.inv.recipe, r.depfiles, rank, prior, n);
      }
    }
  }

  lemma {:induction false} TrackedButForAt(rounds: seq<Round>, rank: Rank, prior: Files, k: nat)
    requires LongSession(rounds, rank, prior) && k < |rounds|
    requires forall i :: 0 <= i < k ==> MildAt(rounds, rank, prior, i)
    ensures Proper(rounds[k].inv, rank)
    ensures TrackedButFor(rounds[k].inv, rank, rounds[k].saved, PriorAt(rounds, prior, k), rounds[k].files)
  {
    assert RoundOk(rank, PriorAt(rounds, prior, k), rounds[k]);
    if k > 0 {
      TrackedButForAt(rounds, rank, prior, k - 1);
      var r, p := rounds[k - 1], PriorAt(rounds, prior, k - 1);
      assert RoundOk(rank, p, r) && Follows(r, rounds[k]) && MildAt(rounds, rank, prior, k - 1);
      MildHandsOn(r.inv, rank, r.saved, p, r.files, r.plan, r.res, r.after, r.log, r.depfiles);
      FollowsTrackedButFor(r, rounds[k], rank, PriorAt(rounds, prior, k));
    }
  }

  /** Every output on disk that no source at or below it excuses is as a full build would write it. */
  ghost predicate RightButFor(r: Recipe, rank: Rank, scope: set<Name>, files: Files, after: Files)
    requires Buildable(r.ws, rank) && scope <= r.ws.targets.Keys
  {
    forall n :: n in scope && !Excused(r, files, n) && r.ws.targets[n].out in after ==>
        HasClean(r, rank, files, after, n)
  }

  /** The promise over a whole session, failures and all, output by output, as long as no build so
      far gave up over an edit that was not mild.  Any build that runs to its end leaves each output
      right unless a source at or below it asks for failure; a success hides only failures that the
      sources of the last complete build asked for as well; and as soon as no source asks for
      failure the build succeeds and every output on disk is right. */
  lemma {:induction false} LongSessionIsRight(rounds: seq<Round>, rank: Rank, prior: Files, k: nat)
    requires LongSession(rounds, rank, prior) && k < |rounds|
    requires forall i :: 0 <= i < k ==> MildAt(rounds, rank, prior, i)
    ensures Proper(rounds[k].inv, rank)
    ensures var r := rounds[k];
            && (r.res.Finished? ==> RightButFor(r.inv.recipe, rank, r.inv.Scope(), r.files, r.after))
            && (r.Succeeded() ==> forall m :: m in r.inv.Scope() && Fails(r.inv.recipe, r.files, m) ==>
                                    !Cold(r.inv, r.saved) && Fails(r.inv.recipe, PriorAt(rounds, prior, k), m))
            && (NoneFails(r.inv, rank, r.files) ==>
                  r.Succeeded() && CleanAfter(r.inv, rank, r.files, r.plan, r.after))
  {
    var r, p := rounds[k], PriorAt(rounds, prior, k);
    assert RoundOk(rank, p, r);
    TrackedButForAt(rounds, rank, prior, k);
    EligibleIsWatched(r.inv, rank, r.saved, p, r.files);
    forall n | r.res.Finished? && n in r.inv.Scope() && !Excused(r.inv.recipe, r.files, n)
               && r.inv.recipe.ws.targets[n].out in r.after
      ensures HasClean(r.inv.recipe, rank, r.files, r.after, n)
    {
      FinishedIsRight(r.inv, rank, r.saved, p, r.files, r.plan, r.res, r.after, r.log, n);
    }
    forall m | r.Succeeded() && m in r.inv.Scope() && Fails(r.inv.recipe, r.files, m)
      ensures !Cold(r.inv, r.saved) && Fails(r.inv.recipe, p, m)
    {
      SuccessHidesOldFailures(r.inv, rank, r.saved, p, r.files, r.plan, r.res, r.after, r.log, m);
    }
    if NoneFails(r.inv, rank, r.files) {
      RepairedIsClean(r.inv, rank, r.saved, p, r.files, r.plan, r.res, r.after, r.log);
    }
  }
}
