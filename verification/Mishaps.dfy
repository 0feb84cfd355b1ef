/** An application and the library it depends on: inputs on which the incremental build of
    frost.py is wrong. */
module Mishaps {
  import opened Digraph
  import opened Planner
  import opened Scheduler
  import opened Executor
  import opened Incremental
  import opened Sessions

  datatype Pair = Pair(app: Name, lib: Name)

  /** The project has just these two targets; their files are four different ones. */
  ghost predicate IsPair(p: Pair, ws: Workspace) {
    && p.app != p.lib && ws.targets.Keys == {p.app, p.lib}
    && ws.targets[p.app].deps == [p.lib] && ws.targets[p.lib].deps == []
    && var app, lib := ws.targets[p.app], ws.targets[p.lib];
    && AllSources(ws) == {app.src, lib.src}
    && app.out != lib.out && app.out != app.src && app.out != lib.src && lib.out != app.src && lib.out != lib.src
  }

  /** A plain `build app`. */
  ghost predicate Builds(p: Pair, inv: Invocation) {
    && IsPair(p, inv.recipe.ws) && inv.roots == {p.app} && inv.explicit == {} && !inv.forceAll && inv.slots >= 1
    && inv.recipe.ws.targets[p.app].kind in inv.kinds && inv.recipe.ws.targets[p.lib].kind in inv.kinds
  }

  ghost function Order(p: Pair): Rank {
    map[p.lib := 0, p.app := 1]
  }

  lemma {:induction false} PairEdges(p: Pair, ws: Workspace)
    requires IsPair(p, ws)
    ensures forall a, b :: Edge(DepGraph(ws), a, b) <==> a == p.app && b == p.lib
    ensures Buildable(ws, Order(p))
  {
    var g := DepGraph(ws);
    forall a, b
      ensures Edge(g, a, b) <==> a == p.app && b == p.lib
    {
      assert a in g <==> a == p.app || a == p.lib;
    }
  }

  lemma {:induction false} PairScope(p: Pair, ws: Workspace, roots: set<Name>)
    requires IsPair(p, ws) && roots == {p.app}
    ensures DepClosure(DepGraph(ws), roots) == ws.targets.Keys
  {
    var g := DepGraph(ws);
    PairEdges(p, ws);
    ReachesSelf(g, p.app);
    ReachesEdge(g, p.app, p.lib);
  }

  lemma {:induction false} ProperWhen(inv: Invocation, rank: Rank, scope: set<Name>)
    requires DepClosure(DepGraph(inv.recipe.ws), inv.roots) == scope && inv.slots >= 1
    requires Buildable(inv.recipe.ws, rank) && inv.roots <= inv.recipe.ws.targets.Keys
    requires scope <= inv.recipe.ws.targets.Keys && SeparateOutputs(inv.recipe.ws, scope)
    requires forall n :: n in scope ==> inv.recipe.ws.targets[n].kind in inv.kinds
    ensures inv.Scope() == scope && Proper(inv, rank)
  {
  }

  lemma {:induction false} PairIsSeparate(p: Pair, ws: Workspace)
    requires IsPair(p, ws)
    ensures SeparateOutputs(ws, ws.targets.Keys)
  {
  }

  lemma {:induction false} PairKinds(p: Pair, inv: Invocation)
    requires Builds(p, inv)
    ensures forall n :: n in inv.recipe.ws.targets.Keys ==> inv.recipe.ws.targets[n].kind in inv.kinds
  {
  }

  lemma {:induction false} PairIsProper(p: Pair, inv: Invocation)
    requires Builds(p, inv)
    ensures inv.Scope() == inv.recipe.ws.targets.Keys && Proper(inv, Order(p))
  {
    PairScope(p, inv.recipe.ws, inv.roots);
    PairEdges(p, inv.recipe.ws);
    PairIsSeparate(p, inv.recipe.ws);
    PairKinds(p, inv);
    ProperWhen(inv, Order(p), inv.recipe.ws.targets.Keys);
  }

  lemma {:induction false} PairClean(p: Pair, r: Recipe, files: Files)
    requires IsPair(p, r.ws) && Buildable(r.ws, Order(p))
    ensures var lib := r.emit(p.lib, SourceText(r.ws, files, p.lib), []);
            && Clean(r, Order(p), files, p.lib) == lib
            && Clean(r, Order(p), files, p.app) == r.emit(p.app, SourceText(r.ws, files, p.app), [lib])
  {
    assert CleanDeps(r, Order(p), files, p.lib, 0) == [];
    assert CleanDeps(r, Order(p), files, p.app, 0) == [];
    assert CleanDeps(r, Order(p), files, p.app, 1) == [Clean(r, Order(p), files, p.lib)];
  }

  /** Both sources exist, both outputs are those of the sources in prior. */
  ghost predicate InStep(p: Pair, r: Recipe, prior: Files, files: Files)
    requires IsPair(p, r.ws)
  {
    var app, lib := r.ws.targets[p.app], r.ws.targets[p.lib];
    && app.src in prior && lib.src in prior && app.src in files && lib.src in files
    && app.out in files && lib.out in files
    && files[lib.out] == r.emit(p.lib, prior[lib.src], [])
    && files[app.out] == r.emit(p.app, prior[app.src], [files[lib.out]])
  }

  lemma {:induction false} PairHasClean(p: Pair, r: Recipe, prior: Files, files: Files)
    requires IsPair(p, r.ws) && InStep(p, r, prior, files) && Buildable(r.ws, Order(p))
    ensures HasClean(r, Order(p), prior, files, p.app) && HasClean(r, Order(p), prior, files, p.lib)
  {
    PairClean(p, r, prior);
  }

  lemma {:induction false} PairMatches(p: Pair, r: Recipe, prior: Files, files: Files)
    requires IsPair(p, r.ws) && InStep(p, r, prior, files) && Buildable(r.ws, Order(p))
    ensures PresentMatch(r, Order(p), r.ws.targets.Keys, prior, files)
  {
    PairHasClean(p, r, prior, files);
  }

  lemma {:induction false} PairIsTracked(p: Pair, inv: Invocation, prior: Files, files: Files)
    requires Builds(p, inv) && InStep(p, inv.recipe, prior, files) && Proper(inv, Order(p))
    requires inv.Scope() == inv.recipe.ws.targets.Keys
    ensures Tracked(inv, Order(p), Saved(CurrentHashes(inv.recipe.ws, inv.sha, prior)), prior, files)
  {
    PairMatches(p, inv.recipe, prior, files);
  }

  function Digests(inv: Invocation, files: Files): SavedState {
    Saved(CurrentHashes(inv.recipe.ws, inv.sha, files))
  }

  lemma {:induction false} PairIsEligible(p: Pair, inv: Invocation, prior: Files, files: Files)
    requires Builds(p, inv) && InStep(p, inv.recipe, prior, files)
    requires NoCollision(inv.recipe.ws, inv.sha, inv.recipe.ws.targets.Keys, prior, files)
    ensures inv.Scope() == inv.recipe.ws.targets.Keys
    ensures Eligible(inv, Order(p), Digests(inv, prior), prior, files)
  {
    PairIsProper(p, inv);
    PairIsTracked(p, inv, prior, files);
  }

  ghost predicate NoneAsks(r: Recipe, files: Files) {
    NoFailure(r, r.ws.targets.Keys, files)
  }

  lemma {:induction false} PairIsWellFormed(p: Pair, inv: Invocation)
    requires Builds(p, inv)
    ensures WellFormed(inv.recipe.ws, inv.roots)
  {
    PairEdges(p, inv.recipe.ws);
  }

  /** A source starts to ask for failure.  A keep-going build reports it; the next build, of the
      very same sources, reports success. */
  method ForgottenFailure(p: Pair, inv: Invocation, ghost prior: Files, files: Files, saved: SavedState)
    returns (first: RunResult, second: RunResult, after: Files)
    requires Builds(p, inv) && inv.keepGoing && InStep(p, inv.recipe, prior, files) && saved == Digests(inv, prior)
    requires NoCollision(inv.recipe.ws, inv.sha, inv.recipe.ws.targets.Keys, prior, files)
    requires NoneAsks(inv.recipe, prior) && !NoneAsks(inv.recipe, files)
    ensures first.Finished? && first.failed != {}
    ensures second == Finished({}, {}, {})
    ensures !NoneAsks(inv.recipe, after)
    ensures LeftAlone(inv.recipe, first.failed, files, after)
  {
    var depfiles := inv.recipe.ws.dynamicDeps;
    PairIsWellFormed(p, inv);
    var plan, disk, saved', plan', saved'';
    ghost var log, log';
    plan, first, disk, log, saved' := Build(inv, saved, files, depfiles, Order(p), prior);
    plan', second, after, log', saved'' := Build(inv, saved', disk, depfiles, Order(p), disk);
    Forgotten(p, inv, prior, Round(inv, saved, files, plan, first, disk, log, depfiles),
              Round(inv, saved', disk, plan', second, after, log', depfiles));
  }

  lemma {:induction false} AsksInScope(inv: Invocation, rank: Rank, files: Files)
    requires Proper(inv, rank) && inv.Scope() == inv.recipe.ws.targets.Keys
    ensures NoneFails(inv, rank, files) == NoneAsks(inv.recipe, files)
  {
  }

  lemma {:induction false} BuiltAgain(r: Round, next: Round)
    requires next.inv == r.inv && next.saved == r.Saved() && next.files == r.after
    requires r.depfiles == r.inv.recipe.ws.dynamicDeps
    ensures Follows(r, next)
  {
  }

  lemma {:induction false} Forgotten(p: Pair, inv: Invocation, prior: Files, r: Round, next: Round)
    requires Builds(p, inv) && inv.keepGoing && InStep(p, inv.recipe, prior, r.files) && r.saved == Digests(inv, prior)
    requires NoCollision(inv.recipe.ws, inv.sha, inv.recipe.ws.targets.Keys, prior, r.files)
    requires NoneAsks(inv.recipe, prior) && !NoneAsks(inv.recipe, r.files)
    requires r.inv == next.inv == inv && next.saved == r.Saved() && next.files == r.after
    requires r.depfiles == inv.recipe.ws.dynamicDeps
    requires Built(inv, Order(p), r.saved, r.files, r.plan, r.res, r.after, r.log)
    requires Built(inv, Order(p), next.saved, next.files, next.plan, next.res, next.after, next.log)
    ensures r.res.Finished? && r.res.failed != {}
    ensures next.res == Finished({}, {}, {}) && !NoneAsks(inv.recipe, next.after)
    ensures LeftAlone(inv.recipe, r.res.failed, r.files, next.after)
  {
    PairIsEligible(p, inv, prior, r.files);
    AsksInScope(inv, Order(p), prior);
    AsksInScope(inv, Order(p), r.files);
    AsksInScope(inv, Order(p), next.after);
    BuiltAgain(r, next);
    FailureIsForgotten(r, next, Order(p), prior);
  }

  /** The paths of a two-target project. */
  datatype Paths = Paths(appSrc: Path, libSrc: Path, appOut: Path, libOut: Path)

  predicate Apart(f: Paths) {
    f.appOut != f.libOut && f.appOut != f.appSrc && f.appOut != f.libSrc && f.libOut != f.appSrc && f.libOut != f.libSrc
  }

  function ProjectOf(p: Pair, f: Paths): Workspace {
    Workspace(map[p.app := Target("bin", f.appSrc, [p.lib], f.appOut, []),
                  p.lib := Target("bin", f.libSrc, [], f.libOut, [])],
              map[])
  }

  lemma {:induction false} ProjectIsPair(p: Pair, f: Paths)
    requires p.app != p.lib && Apart(f)
    ensures IsPair(p, ProjectOf(p, f))
  {
    var ws := ProjectOf(p, f);
    assert ws.targets.Keys == {p.app, p.lib};
    assert ws.targets[p.app].src == f.appSrc && ws.targets[p.lib].src == f.libSrc;
    assert AllSources(ws) == {f.appSrc, f.libSrc};
  }

  function Copy(n: Name, text: Content, inputs: seq<Content>): Content {
    text
  }

  function Itself(text: Content): Digest {
    text
  }

  function Example(p: Pair, f: Paths, bad: Content): Invocation {
    Invocation(Recipe(ProjectOf(p, f), Copy, (n, text) => text == bad), Itself, {p.app}, {"bin"}, {}, false, 1, true,
               Fifo)
  }

  lemma {:induction false} ExampleFits(p: Pair, f: Paths, good: Content, bad: Content, prior: Files, files: Files)
    requires p.app != p.lib && Apart(f) && f.appSrc != f.libSrc && good != bad
    requires prior == map[f.appSrc := good, f.libSrc := good]
    requires files == map[f.appSrc := good, f.libSrc := bad, f.appOut := good, f.libOut := good]
    ensures var inv := Example(p, f, bad);
            && Builds(p, inv) && InStep(p, inv.recipe, prior, files)
            && NoCollision(inv.recipe.ws, inv.sha, inv.recipe.ws.targets.Keys, prior, files)
            && NoneAsks(inv.recipe, prior) && !NoneAsks(inv.recipe, files)
  {
    ProjectIsPair(p, f);
    var r := Example(p, f, bad).recipe;
    assert r.ws.targets[p.app].src == f.appSrc && r.ws.targets[p.lib].src == f.libSrc;
    assert r.ws.targets[p.app].out == f.appOut && r.ws.targets[p.lib].out == f.libOut;
    assert Fails(r, files, p.lib);
  }

  /** The smallest case: the library's text turns bad. */
  method ForgottenExample(p: Pair, f: Paths, good: Content, bad: Content) returns (first: RunResult, second: RunResult)
    requires p.app != p.lib && Apart(f) && f.appSrc != f.libSrc && good != bad
    ensures first.Finished? && first.failed != {} && second == Finished({}, {}, {})
  {
    var inv := Example(p, f, bad);
    var prior: Files := map[f.appSrc := good, f.libSrc := good];
    var files: Files := map[f.appSrc := good, f.libSrc := bad, f.appOut := good, f.libOut := good];
    ExampleFits(p, f, good, bad, prior, files);
    var after;
    first, second, after := ForgottenFailure(p, inv, prior, files, Digests(inv, prior));
  }

  /** Both sources are edited; the new library builds, the new application asks for failure. */
  ghost predicate HalfGood(p: Pair, r: Recipe, prior: Files, files: Files)
    requires IsPair(p, r.ws)
  {
    && InStep(p, r, prior, files) && NoneAsks(r, prior)
    && Fails(r, files, p.app) && !Fails(r, files, p.lib)
    && r.emit(p.lib, files[r.ws.targets[p.lib].src], []) != files[r.ws.targets[p.lib].out]
  }

  lemma {:induction false} OnlyTheApplication(p: Pair, r: Recipe, prior: Files, files: Files)
    requires IsPair(p, r.ws) && HalfGood(p, r, prior, files)
    ensures Edge(DepGraph(r.ws), p.app, p.lib) && !SameAt(prior, files, r.ws.targets[p.lib].src)
    ensures Askers(r, r.ws.targets.Keys, files) == {p.app}
  {
    PairEdges(p, r.ws);
  }

  lemma {:induction false} NewLibraryDiffers(p: Pair, r: Recipe, prior: Files, files: Files, after: Files)
    requires IsPair(p, r.ws) && Buildable(r.ws, Order(p)) && HalfGood(p, r, prior, files)
    requires HasClean(r, Order(p), files, after, p.lib)
    ensures !Untouched(r.ws, files, after, p.lib)
  {
    PairClean(p, r, files);
  }

  /** Without keep_going the build stops at the application, when the library has been written. */
  lemma {:induction false} StopsHalfway(p: Pair, inv: Invocation, saved: SavedState, prior: Files, files: Files,
                                        plan: Plan,
                                        res: RunResult, after: Files, log: seq<Event>)
    requires Builds(p, inv) && HalfGood(p, inv.recipe, prior, files) && saved == Digests(inv, prior) && !inv.keepGoing
    requires NoCollision(inv.recipe.ws, inv.sha, inv.recipe.ws.targets.Keys, prior, files)
    requires Built(inv, Order(p), saved, files, plan, res, after, log)
    ensures res == Aborted(p.app) && Buildable(inv.recipe.ws, Order(p))
    ensures HasClean(inv.recipe, Order(p), files, after, p.lib)
  {
    PairIsEligible(p, inv, prior, files);
    AsksInScope(inv, Order(p), prior);
    OnlyTheApplication(p, inv.recipe, prior, files);
    StopsAt(inv, Order(p), saved, prior, files, plan, res, after, log, p.app, p.lib);
  }

  /** The edit is taken back: both sources as they were, the outputs left alone. */
  function TakenBack(p: Pair, ws: Workspace, prior: Files, files: Files): Files
    requires p.app in ws.targets && p.lib in ws.targets
    requires ws.targets[p.app].src in prior && ws.targets[p.lib].src in prior
  {
    var app, lib := ws.targets[p.app].src, ws.targets[p.lib].src;
    files[app := prior[app]][lib := prior[lib]]
  }

  lemma {:induction false} TakenBackIsPrior(p: Pair, ws: Workspace, prior: Files, files: Files)
    requires IsPair(p, ws) && ws.targets[p.app].src in prior && ws.targets[p.lib].src in prior
    ensures SameSources(ws, prior, TakenBack(p, ws, prior, files))
    ensures forall n :: n in ws.targets.Keys ==> Untouched(ws, files, TakenBack(p, ws, prior, files), n)
  {
  }

  /** The library is edited, and the application is, too, but for the worse: the build stops at the
      application, without saving digests.  With both edits taken back the next build does nothing
      and reports success, over the output of the edited library. */
  method OutputAhead(p: Pair, inv: Invocation, prior: Files, files: Files, saved: SavedState)
    returns (first: RunResult, second: RunResult, restored: Files, after: Files)
    requires Builds(p, inv) && !inv.keepGoing && HalfGood(p, inv.recipe, prior, files) && saved == Digests(inv, prior)
    requires NoCollision(inv.recipe.ws, inv.sha, inv.recipe.ws.targets.Keys, prior, files)
    ensures first == Aborted(p.app) && second == Finished({}, {}, {})
    ensures SameSources(inv.recipe.ws, prior, after)
    ensures Buildable(inv.recipe.ws, Order(p)) && !HasClean(inv.recipe, Order(p), after, after, p.lib)
  {
    var depfiles := inv.recipe.ws.dynamicDeps;
    PairIsWellFormed(p, inv);
    var plan, disk, saved', plan', saved'';
    ghost var log, log';
    plan, first, disk, log, saved' := Build(inv, saved, files, depfiles, Order(p), prior);
    restored := TakenBack(p, inv.recipe.ws, prior, disk);
    plan', second, after, log', saved'' := Build(inv, saved', restored, depfiles, Order(p), restored);
    Ahead(p, prior, Round(inv, saved, files, plan, first, disk, log, depfiles),
          Round(inv, saved', restored, plan', second, after, log', depfiles));
  }

  lemma {:induction false} AheadExampleFits(p: Pair, f: Paths, good: Content, better: Content, bad: Content,
                                            prior: Files, files: Files)
    requires p.app != p.lib && Apart(f) && f.appSrc != f.libSrc && good != bad && better != bad && good != better
    requires prior == map[f.appSrc := good, f.libSrc := good]
    requires files == map[f.appSrc := bad, f.libSrc := better, f.appOut := good, f.libOut := good]
    ensures var inv := Example(p, f, bad).(keepGoing := false);
            && Builds(p, inv) && HalfGood(p, inv.recipe, prior, files)
            && NoCollision(inv.recipe.ws, inv.sha, inv.recipe.ws.targets.Keys, prior, files)
  {
    ProjectIsPair(p, f);
    var r := Example(p, f, bad).recipe;
    assert r.ws.targets[p.app].src == f.appSrc && r.ws.targets[p.lib].src == f.libSrc;
    assert r.ws.targets[p.app].out == f.appOut && r.ws.targets[p.lib].out == f.libOut;
  }

  /** The smallest case: the library's text gets better, the application's bad, and both edits are
      undone. */
  method AheadExample(p: Pair, f: Paths, good: Content, better: Content, bad: Content)
    returns (first: RunResult, second: RunResult, after: Files)
    requires p.app != p.lib && Apart(f) && f.appSrc != f.libSrc && good != bad && better != bad && good != better
    ensures first == Aborted(p.app) && second == Finished({}, {}, {})
    ensures var r := Example(p, f, bad).recipe;
            && SameSources(r.ws, map[f.appSrc := good, f.libSrc := good], after)
            && Buildable(r.ws, Order(p)) && !HasClean(r, Order(p), after, after, p.lib)
  {
    var inv := Example(p, f, bad).(keepGoing := false);
    var prior: Files := map[f.appSrc := good, f.libSrc := good];
    var files: Files := map[f.appSrc := bad, f.libSrc := better, f.appOut := good, f.libOut := good];
    AheadExampleFits(p, f, good, better, bad, prior, files);
    var restored;
    first, second, restored, after := OutputAhead(p, inv, prior, files, Digests(inv, prior));
  }

  lemma {:induction false} Ahead(p: Pair, prior: Files, r: Round, next: Round)
    requires Builds(p, r.inv) && !r.inv.keepGoing && HalfGood(p, r.inv.recipe, prior, r.files)
    requires r.saved == Digests(r.inv, prior)
    requires NoCollision(r.inv.recipe.ws, r.inv.sha, r.inv.recipe.ws.targets.Keys, prior, r.files)
    requires next.inv == r.inv && next.saved == r.Saved() && r.depfiles == r.inv.recipe.ws.dynamicDeps
    requires next.files == TakenBack(p, r.inv.recipe.ws, prior, r.after)
    requires Built(r.inv, Order(p), r.saved, r.files, r.plan, r.res, r.after, r.log)
    requires Built(r.inv, Order(p), next.saved, next.files, next.plan, next.res, next.after, next.log)
    ensures r.res == Aborted(p.app) && next.res == Finished({}, {}, {})
    ensures SameSources(r.inv.recipe.ws, prior, next.after)
    ensures Buildable(r.inv.recipe.ws, Order(p)) && !HasClean(r.inv.recipe, Order(p), next.after, next.after, p.lib)
  {
    StopsHalfway(p, r.inv, r.saved, prior, r.files, r.plan, r.res, r.after, r.log);
    NewLibraryDiffers(p, r.inv.recipe, prior, r.files, r.after);
    StaysAhead(p, prior, r, next);
    StaleLibrary(p, r.inv.recipe, prior, r.files, next.after);
  }

  lemma {:induction false} StaysAhead(p: Pair, prior: Files, r: Round, next: Round)
    requires Builds(p, r.inv) && InStep(p, r.inv.recipe, prior, r.files) && r.saved == Digests(r.inv, prior)
    requires NoCollision(r.inv.recipe.ws, r.inv.sha, r.inv.recipe.ws.targets.Keys, prior, r.files)
    requires next.inv == r.inv && next.saved == r.Saved() && r.depfiles == r.inv.recipe.ws.dynamicDeps
    requires next.files == TakenBack(p, r.inv.recipe.ws, prior, r.after)
    requires Built(r.inv, Order(p), r.saved, r.files, r.plan, r.res, r.after, r.log) && r.res.Aborted?
    requires Built(r.inv, Order(p), next.saved, next.files, next.plan, next.res, next.after, next.log)
    requires !Untouched(r.inv.recipe.ws, r.files, r.after, p.lib) && r.inv.recipe.ws.targets[p.lib].out in r.after
    ensures next.res == Finished({}, {}, {}) && SameSources(r.inv.recipe.ws, prior, next.after)
    ensures Buildable(r.inv.recipe.ws, Order(p)) && HasClean(r.inv.recipe, Order(p), r.files, next.after, p.lib)
    ensures Clean(r.inv.recipe, Order(p), next.after, p.lib) == Clean(r.inv.recipe, Order(p), prior, p.lib)
  {
    PairIsEligible(p, r.inv, prior, r.files);
    TakenBackIsPrior(p, r.inv.recipe.ws, prior, r.after);
    TakenBackFollows(r, next);
    InterruptedIsForgotten(r, next, Order(p), prior, p.lib);
  }

  lemma {:induction false} TakenBackFollows(r: Round, next: Round)
    requires next.inv == r.inv && next.saved == r.Saved() && r.depfiles == r.inv.recipe.ws.dynamicDeps
    requires forall n :: n in r.inv.recipe.ws.targets.Keys ==> Untouched(r.inv.recipe.ws, r.after, next.files, n)
    ensures Follows(r, next)
  {
  }

  lemma {:induction false} StaleLibrary(p: Pair, r: Recipe, prior: Files, files: Files, after: Files)
    requires IsPair(p, r.ws) && Buildable(r.ws, Order(p)) && HalfGood(p, r, prior, files)
    requires HasClean(r, Order(p), files, after, p.lib)
    requires Clean(r, Order(p), after, p.lib) == Clean(r, Order(p), prior, p.lib)
    ensures !HasClean(r, Order(p), after, after, p.lib)
  {
    PairClean(p, r, files);
    PairClean(p, r, prior);
  }
}
