/** Two targets that have nothing to do with each other, and one slot.  The failing one goes first, so
    the other is never started, and an edit that a build with more slots could write ahead of the saved
    digests is harmless: how many slots there are decides whether the bound on them is needed. */
module Slots {
  import opened Digraph
  import opened Planner
  import opened Scheduler
  import opened Executor
  import opened Endings
  import opened Runs
  import opened Incremental
  import opened Mishaps

  /** Neither depends on the other; their files are four different ones. */
  ghost predicate AreTwins(p: Pair, ws: Workspace) {
    && p.app != p.lib && ws.targets.Keys == {p.app, p.lib}
    && ws.targets[p.app].deps == [] && ws.targets[p.lib].deps == []
    && var app, lib := ws.targets[p.app], ws.targets[p.lib];
    && AllSources(ws) == {app.src, lib.src}
    && app.out != lib.out && app.out != app.src && app.out != lib.src && lib.out != app.src && lib.out != lib.src
  }

  /** A plain build of both, one at a time, the application first. */
  ghost predicate BuildsTwins(p: Pair, inv: Invocation) {
    && AreTwins(p, inv.recipe.ws) && inv.roots == {p.app, p.lib} && inv.explicit == {} && !inv.forceAll
    && inv.slots == 1 && !inv.keepGoing && PriorityOf(inv.policy, p.lib) < PriorityOf(inv.policy, p.app)
    && inv.recipe.ws.targets[p.app].kind in inv.kinds && inv.recipe.ws.targets[p.lib].kind in inv.kinds
  }

  /** Both outputs are those of the sources in prior; both sources have been edited since, the
      application's to fail, the library's to give another output. */
  ghost predicate BothEdited(p: Pair, r: Recipe, prior: Files, files: Files)
    requires AreTwins(p, r.ws)
  {
    var app, lib := r.ws.targets[p.app], r.ws.targets[p.lib];
    && app.src in prior && lib.src in prior && app.src in files && lib.src in files
    && app.out in files && files[app.out] == r.emit(p.app, prior[app.src], [])
    && lib.out in files && files[lib.out] == r.emit(p.lib, prior[lib.src], [])
    && prior[app.src] != files[app.src] && prior[lib.src] != files[lib.src]
    && Fails(r, files, p.app) && !Fails(r, files, p.lib)
    && r.emit(p.lib, files[lib.src], []) != files[lib.out]
  }

  lemma {:induction false} TwinsHaveNoEdges(p: Pair, ws: Workspace)
    requires AreTwins(p, ws)
    ensures forall a, b :: !Edge(DepGraph(ws), a, b)
    ensures Buildable(ws, Order(p))
  {
    var g := DepGraph(ws);
    forall a, b
      ensures !Edge(g, a, b)
    {
      assert a in g <==> a == p.app || a == p.lib;
    }
  }

  lemma {:induction false} TwinIsCleanAlone(p: Pair, r: Recipe, files: Files, n: Name)
    requires AreTwins(p, r.ws) && Buildable(r.ws, Order(p)) && n in r.ws.targets
    ensures Clean(r, Order(p), files, n) == r.emit(n, SourceText(r.ws, files, n), [])
  {
    assert r.ws.targets[n].deps == [];
    assert CleanDeps(r, Order(p), files, n, 0) == [];
  }

  lemma {:induction false} TwinsScope(p: Pair, ws: Workspace, roots: set<Name>)
    requires AreTwins(p, ws) && roots == {p.app, p.lib}
    ensures DepClosure(DepGraph(ws), roots) == ws.targets.Keys
  {
    ReachesSelf(DepGraph(ws), p.app);
    ReachesSelf(DepGraph(ws), p.lib);
  }

  lemma {:induction false} TwinsAreSeparate(p: Pair, ws: Workspace)
    requires AreTwins(p, ws)
    ensures SeparateOutputs(ws, ws.targets.Keys)
  {
  }

  lemma {:induction false} TwinKinds(p: Pair, inv: Invocation)
    requires BuildsTwins(p, inv)
    ensures forall n :: n in inv.recipe.ws.targets.Keys ==> inv.recipe.ws.targets[n].kind in inv.kinds
  {
  }

  lemma {:induction false} TwinsAreProper(p: Pair, inv: Invocation)
    requires BuildsTwins(p, inv)
    ensures inv.Scope() == inv.recipe.ws.targets.Keys && Proper(inv, Order(p))
  {
    var ws := inv.recipe.ws;
    TwinsHaveNoEdges(p, ws);
    TwinsScope(p, ws, inv.roots);
    TwinsAreSeparate(p, ws);
    TwinKinds(p, inv);
    ProperWhen(inv, Order(p), ws.targets.Keys);
  }

  lemma {:induction false} TwinMatches(p: Pair, r: Recipe, prior: Files, files: Files)
    requires AreTwins(p, r.ws) && BothEdited(p, r, prior, files) && Buildable(r.ws, Order(p))
    ensures PresentMatch(r, Order(p), r.ws.targets.Keys, prior, files)
  {
    TwinIsCleanAlone(p, r, prior, p.app);
    TwinIsCleanAlone(p, r, prior, p.lib);
    assert HasClean(r, Order(p), prior, files, p.app) && HasClean(r, Order(p), prior, files, p.lib);
  }

  lemma {:induction false} TwinsAreTracked(p: Pair, inv: Invocation, prior: Files, files: Files)
    requires BuildsTwins(p, inv) && BothEdited(p, inv.recipe, prior, files) && Proper(inv, Order(p))
    requires inv.Scope() == inv.recipe.ws.targets.Keys
    ensures Tracked(inv, Order(p), Digests(inv, prior), prior, files)
  {
    TwinMatches(p, inv.recipe, prior, files);
  }

  lemma {:induction false} TwinsAreEligible(p: Pair, inv: Invocation, prior: Files, files: Files)
    requires BuildsTwins(p, inv) && BothEdited(p, inv.recipe, prior, files)
    requires NoCollision(inv.recipe.ws, inv.sha, inv.recipe.ws.targets.Keys, prior, files)
    ensures inv.Scope() == inv.recipe.ws.targets.Keys
    ensures Eligible(inv, Order(p), Digests(inv, prior), prior, files)
    ensures Tracked(inv, Order(p), Digests(inv, prior), prior, files)
  {
    TwinsAreProper(p, inv);
    TwinsAreTracked(p, inv, prior, files);
  }

  /** Every source of the closure has been edited since the digests were saved. */
  ghost predicate AllEdited(inv: Invocation, rank: Rank, saved: SavedState, prior: Files, files: Files, plan: Plan) {
    && Watched(inv, rank, saved, prior, files) && PlanFor(inv, saved, files, plan) && !Cold(inv, saved)
    && forall n :: n in inv.Scope() ==> !SameAt(prior, files, inv.recipe.ws.targets[n].src)
  }

  lemma {:induction false} AllAreSelected(inv: Invocation, rank: Rank, saved: SavedState, prior: Files, files: Files,
                                          plan: Plan)
    requires AllEdited(inv, rank, saved, prior, files, plan)
    ensures plan.selected == inv.Scope()
  {
    forall n | n in inv.Scope()
      ensures n in plan.selected
    {
      ChangedIsSelected(inv, rank, saved, prior, files, plan, n);
    }
  }

  lemma {:induction false} TwinsAreEdited(p: Pair, r: Recipe, prior: Files, files: Files)
    requires AreTwins(p, r.ws) && BothEdited(p, r, prior, files)
    ensures forall n :: n in r.ws.targets.Keys ==> !SameAt(prior, files, r.ws.targets[n].src)
  {
  }

  lemma {:induction false} TwinsAreSelected(p: Pair, inv: Invocation, prior: Files, files: Files, plan: Plan)
    requires BuildsTwins(p, inv) && BothEdited(p, inv.recipe, prior, files)
    requires NoCollision(inv.recipe.ws, inv.sha, inv.recipe.ws.targets.Keys, prior, files)
    requires PlanFor(inv, Digests(inv, prior), files, plan)
    ensures plan.selected == inv.recipe.ws.targets.Keys
  {
    TwinsAreEligible(p, inv, prior, files);
    TwinsAreEdited(p, inv.recipe, prior, files);
    AllAreSelected(inv, Order(p), Digests(inv, prior), prior, files, plan);
  }

  lemma {:induction false} TwinsCrowd(p: Pair, job: Job)
    requires AreTwins(p, job.recipe.ws) && job.selected == {p.app, p.lib} && job.slots == 1 && !job.keepGoing
    requires PriorityOf(job.policy, p.lib) < PriorityOf(job.policy, p.app)
    requires Fails(job.recipe, job.before, p.app) && !Fails(job.recipe, job.before, p.lib)
    ensures Crowd(job, {p.app}) && GivesUp(job) && p.lib in Fine(job)
  {
    var g := job.Graph();
    TwinsHaveNoEdges(p, job.recipe.ws);
    InducedClosed(DepGraph(job.recipe.ws), job.selected);
    assert Deps(g, p.app) == {};
    forall d
      ensures !Edge(g, p.lib, d)
    {
      assert !Edge(DepGraph(job.recipe.ws), p.lib, d);
    }
    if Doomed(job, p.lib) {
      DoomBottom(job, p.lib);
    }
  }

  lemma {:induction false} EditShows(p: Pair, r: Recipe, prior: Files, files: Files)
    requires AreTwins(p, r.ws) && BothEdited(p, r, prior, files) && Buildable(r.ws, Order(p))
    ensures Clean(r, Order(p), prior, p.lib) != Clean(r, Order(p), files, p.lib)
  {
    TwinIsCleanAlone(p, r, prior, p.lib);
    TwinIsCleanAlone(p, r, files, p.lib);
  }

  /** A crowd takes the slots, and the edit does make a difference to some other target. */
  ghost predicate CrowdedOut(inv: Invocation, rank: Rank, saved: SavedState, prior: Files, files: Files, plan: Plan,
                             first: set<Name>, n: Name)
  {
    && Eligible(inv, rank, saved, prior, files) && Tracked(inv, rank, saved, prior, files) && saved.Saved?
    && PlanFor(inv, saved, files, plan) && Crowd(JobOf(inv, files, plan), first) && GivesUp(JobOf(inv, files, plan))
    && n in Fine(JobOf(inv, files, plan)) && n in inv.Scope()
    && Clean(inv.recipe, rank, prior, n) != Clean(inv.recipe, rank, files, n)
  }

  /** The plan is not honest, and yet every run of it leaves the state in step with the disk. */
  ghost predicate HarmlessAllTheSame(inv: Invocation, picks: Picks, rank: Rank, saved: SavedState, prior: Files,
                                     files: Files, plan: Plan, depfiles: map<Name, seq<Path>>)
  {
    && Proper(inv, rank)
    && !Honest(inv, rank, saved, prior, files, plan)
    && StaysTracked(inv, picks, rank, saved, prior, files, plan, depfiles)
  }

  lemma {:induction false} CrowdedOutIsHarmless(inv: Invocation, picks: Picks, rank: Rank, saved: SavedState,
                                                prior: Files, files: Files, plan: Plan,
                                                depfiles: map<Name, seq<Path>>, first: set<Name>, n: Name)
    requires CrowdedOut(inv, rank, saved, prior, files, plan, first, n)
    ensures HarmlessAllTheSame(inv, picks, rank, saved, prior, files, plan, depfiles)
  {
    CrowdStaysTracked(inv, picks, rank, saved, prior, files, plan, depfiles, first);
  }

  lemma {:induction false} TwinsAreCrowdedOut(p: Pair, inv: Invocation, prior: Files, files: Files, plan: Plan)
    requires BuildsTwins(p, inv) && BothEdited(p, inv.recipe, prior, files)
    requires NoCollision(inv.recipe.ws, inv.sha, inv.recipe.ws.targets.Keys, prior, files)
    requires PlanFor(inv, Digests(inv, prior), files, plan)
    ensures CrowdedOut(inv, Order(p), Digests(inv, prior), prior, files, plan, {p.app}, p.lib)
  {
    TwinsAreEligible(p, inv, prior, files);
    TwinsAreSelected(p, inv, prior, files, plan);
    TwinsCrowd(p, JobOf(inv, files, plan));
    EditShows(p, inv.recipe, prior, files);
  }

  /** So it is with the twins. */
  lemma {:induction false} HarmlessForWantOfSlots(p: Pair, inv: Invocation, picks: Picks, prior: Files, files: Files,
                                                  plan: Plan, depfiles: map<Name, seq<Path>>)
    requires BuildsTwins(p, inv) && BothEdited(p, inv.recipe, prior, files)
    requires NoCollision(inv.recipe.ws, inv.sha, inv.recipe.ws.targets.Keys, prior, files)
    requires PlanFor(inv, Digests(inv, prior), files, plan)
    ensures HarmlessAllTheSame(inv, picks, Order(p), Digests(inv, prior), prior, files, plan, depfiles)
  {
    TwinsAreCrowdedOut(p, inv, prior, files, plan);
    CrowdedOutIsHarmless(inv, picks, Order(p), Digests(inv, prior), prior, files, plan, depfiles, {p.app}, p.lib);
  }

  function Twins(p: Pair, f: Paths): Workspace {
    Workspace(map[p.app := Target("bin", f.appSrc, [], f.appOut, []),
                  p.lib := Target("bin", f.libSrc, [], f.libOut, [])],
              map[])
  }

  function TwinBuild(p: Pair, f: Paths, bad: Content): Invocation {
    Invocation(Recipe(Twins(p, f), Copy, (n, text) => text == bad), Itself, {p.app, p.lib}, {"bin"}, {}, false, 1,
               false, CriticalPath(map[p.app := 100, p.lib := 1]))
  }

  /** Such a project, by any choice of names, paths and texts. */
  lemma {:induction false} TwinExampleFits(p: Pair, f: Paths, good: Content, better: Content, bad: Content,
                                           prior: Files, files: Files)
    requires p.app != p.lib && Apart(f) && f.appSrc != f.libSrc && good != bad && better != bad && good != better
    requires prior == map[f.appSrc := good, f.libSrc := good]
    requires files == map[f.appSrc := bad, f.libSrc := better, f.appOut := good, f.libOut := good]
    ensures var inv := TwinBuild(p, f, bad);
            && BuildsTwins(p, inv) && BothEdited(p, inv.recipe, prior, files)
            && NoCollision(inv.recipe.ws, inv.sha, inv.recipe.ws.targets.Keys, prior, files)
  {
    var ws := Twins(p, f);
    assert ws.targets.Keys == {p.app, p.lib};
    assert ws.targets[p.app].src == f.appSrc && ws.targets[p.lib].src == f.libSrc;
    assert ws.targets[p.app].out == f.appOut && ws.targets[p.lib].out == f.libOut;
    assert AllSources(ws) == {f.appSrc, f.libSrc};
  }

  lemma {:induction false} TwinsAreWellFormed(p: Pair, inv: Invocation)
    requires BuildsTwins(p, inv)
    ensures WellFormed(inv.recipe.ws, inv.roots)
  {
    TwinsHaveNoEdges(p, inv.recipe.ws);
  }

  lemma {:induction false} OnlyTheFirstRuns(inv: Invocation, rank: Rank, saved: SavedState, prior: Files, files: Files,
                                            plan: Plan, res: RunResult, after: Files, log: seq<Event>, f: Name, n: Name)
    requires CrowdedOut(inv, rank, saved, prior, files, plan, {f}, n)
    requires Built(inv, rank, saved, files, plan, res, after, log)
    ensures res == Aborted(f) && Untouched(inv.recipe.ws, files, after, n)
  {
    PlanIsSound(inv, rank, saved, files, plan);
    CrowdWritesNothing(JobOf(inv, files, plan), rank, inv.Scope(), {f}, AnyTop, res, after, log);
  }

  /** It happens: the application fails, the library is never started. */
  method TwinExample(p: Pair, f: Paths, good: Content, better: Content, bad: Content)
    returns (plan: Plan, res: RunResult, after: Files)
    requires p.app != p.lib && Apart(f) && f.appSrc != f.libSrc && good != bad && better != bad && good != better
    ensures res == Aborted(p.app) && f.libOut in after && after[f.libOut] == good
    ensures var inv, prior := TwinBuild(p, f, bad), map[f.appSrc := good, f.libSrc := good];
            var files := map[f.appSrc := bad, f.libSrc := better, f.appOut := good, f.libOut := good];
            HarmlessAllTheSame(inv, AnyTop, Order(p), Digests(inv, prior), prior, files, plan, map[])
  {
    var inv := TwinBuild(p, f, bad);
    var prior: Files := map[f.appSrc := good, f.libSrc := good];
    var files: Files := map[f.appSrc := bad, f.libSrc := better, f.appOut := good, f.libOut := good];
    TwinExampleFits(p, f, good, better, bad, prior, files);
    var saved := Digests(inv, prior);
    plan, res, after := BuildOfTwins(p, inv, saved, prior, files);
    assert inv.recipe.ws.targets[p.lib].out == f.libOut;
  }

  method BuildOfTwins(p: Pair, inv: Invocation, saved: SavedState, ghost prior: Files, files: Files)
    returns (plan: Plan, res: RunResult, after: Files)
    requires BuildsTwins(p, inv) && BothEdited(p, inv.recipe, prior, files) && saved == Digests(inv, prior)
    requires NoCollision(inv.recipe.ws, inv.sha, inv.recipe.ws.targets.Keys, prior, files)
    ensures res == Aborted(p.app) && Untouched(inv.recipe.ws, files, after, p.lib)
    ensures HarmlessAllTheSame(inv, AnyTop, Order(p), saved, prior, files, plan, map[])
  {
    TwinsAreWellFormed(p, inv);
    ghost var log;
    var saved';
    plan, res, after, log, saved' := Build(inv, saved, files, map[], Order(p), prior);
    TwinsAreCrowdedOut(p, inv, prior, files, plan);
    CrowdedOutIsHarmless(inv, AnyTop, Order(p), saved, prior, files, plan, map[], {p.app}, p.lib);
    OnlyTheFirstRuns(inv, Order(p), saved, prior, files, plan, res, after, log, p.app, p.lib);
  }
}
