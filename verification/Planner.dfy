/** The planner of frost.py: which targets does a source change touch, and which of them
    have to run?  Files are a map from path to text; SHA-256 is an uninterpreted function. */
module Planner {
  import opened Digraph

  type Path = string
  type Content = string
  type Digest = string
  type Files = map<Path, Content>
  type Sha = Content -> Digest

  /** Recorded for a path with no file. */
  const MISSING: Digest := "MISSING"

  datatype Target = Target(kind: string, src: Path, deps: seq<Name>, out: Path, declaredInputs: seq<Path>)

  /** dynamicDeps is the depfile store; it may still name targets that are gone. */
  datatype Workspace = Workspace(targets: map<Name, Target>, dynamicDeps: map<Name, seq<Path>>)

  /** state.json: absent, or the source digests saved by the last build. */
  datatype SavedState = NoState | Saved(hashes: map<Path, Digest>)

  datatype Plan = Plan(changedSources: set<Path>, changedTargets: set<Name>, affected: set<Name>,
                       selected: set<Name>, pruned: set<Name>)

  function DepGraph(ws: Workspace): Graph {
    map n | n in ws.targets :: ws.targets[n].deps
  }

  function HashOf(sha: Sha, files: Files, rel: Path): Digest {
    if rel in files then sha(files[rel]) else MISSING
  }

  function AllSources(ws: Workspace): set<Path> {
    (set n | n in ws.targets :: ws.targets[n].src)
    + (set n, rel | n in ws.targets && rel in ws.targets[n].declaredInputs :: rel)
    + (set n, rel | n in ws.dynamicDeps && rel in ws.dynamicDeps[n] :: rel)
  }

  /** One entry of the inverted index from sources to targets. */
  predicate UsesSource(ws: Workspace, n: Name, rel: Path) {
    || (n in ws.targets && (ws.targets[n].src == rel || rel in ws.targets[n].declaredInputs))
    || (n in ws.dynamicDeps && rel in ws.dynamicDeps[n])
  }

  function TargetsOf(ws: Workspace, rel: Path): set<Name> {
    set n | n in ws.targets.Keys + ws.dynamicDeps.Keys && UsesSource(ws, n, rel)
  }

  // ------------------------------------------------------------- closures

  ghost function DepClosure(g: Graph, roots: set<Name>): set<Name> {
    set b | b in g.Keys && exists a :: a in roots && Reaches(g, a, b)
  }

  ghost predicate ReachesSome(g: Graph, b: Name, roots: set<Name>) {
    exists a :: a in roots && Reaches(g, b, a)
  }

  /** s is exactly the set of nodes that depend, directly or not, on a member of roots. */
  ghost predicate IsReverseClosure(g: Graph, roots: set<Name>, s: set<Name>) {
    forall b :: b in s <==> ReachesSome(g, b, roots)
  }

  method Visit(g: Graph, n: Name, seen: set<Name>) returns (all: set<Name>)
    requires Closed(g) && n in g
    ensures seen + {n} <= all <= seen + g.Keys
    ensures forall a, b :: a in all - seen && Edge(g, a, b) ==> b in all
    ensures forall a :: a in all - seen ==> Reaches(g, n, a)
    decreases g.Keys - seen
  {
    all := seen;
    if n in seen {
      return;
    }
    all := all + {n};
    ReachesSelf(g, n);
    var deps := g[n];
    for i := 0 to |deps|
      invariant seen + {n} <= all <= seen + g.Keys
      invariant forall j :: 0 <= j < i ==> deps[j] in all
      invariant forall a, b :: a in all - seen - {n} && Edge(g, a, b) ==> b in all
      invariant forall a :: a in all - seen ==> Reaches(g, n, a)
    {
      assert Edge(g, n, deps[i]);
      var before := all;
      all := Visit(g, deps[i], before);
      ReachesEdge(g, n, deps[i]);
      forall a | a in all - before
        ensures Reaches(g, n, a)
      {
        ReachesTransitive(g, n, deps[i], a);
      }
    }
  }

  /** Workspace.target_closure. */
  method TargetClosure(g: Graph, roots: set<Name>) returns (seen: set<Name>)
    requires Closed(g) && roots <= g.Keys
    ensures seen == DepClosure(g, roots)
  {
    seen := {};
    var todo := roots;
    while todo != {}
      invariant todo <= roots && roots - todo <= seen <= g.Keys
      invariant ClosedUnder(g, seen)
      invariant forall b :: b in seen ==> exists a :: a in roots && Reaches(g, a, b)
    {
      var r :| r in todo;
      seen := Visit(g, r, seen);
      todo := todo - {r};
    }
    forall b | b in DepClosure(g, roots)
      ensures b in seen
    {
      var a :| a in roots && Reaches(g, a, b);
      ReachesStaysInside(g, seen, a, b);
    }
  }

  function Users(g: Graph, n: Name): set<Name> {
    set p | p in g.Keys && Edge(g, p, n)
  }

  function Elems<T>(q: seq<T>): set<T> {
    set x | x in q
  }

  lemma {:induction false} ElemsAppend<T>(q: seq<T>, r: seq<T>)
    ensures Elems(q + r) == Elems(q) + Elems(r)
  {
    forall x | x in Elems(q) + Elems(r)
      ensures x in q + r
    {
      if x in q {
        var i :| 0 <= i < |q| && q[i] == x;
        assert (q + r)[i] == x;
      } else {
        var i :| 0 <= i < |r| && r[i] == x;
        assert (q + r)[|q| + i] == x;
      }
    }
  }

  ghost predicate UsersInside(g: Graph, inner: set<Name>, outer: set<Name>) {
    forall a, b :: Edge(g, a, b) && b in inner ==> a in outer
  }

  /** Once every user of a member is a member, nothing that reaches the set is outside it. */
  lemma {:induction false} UsersClosedIsReverseClosed(g: Graph, s: set<Name>, p: seq<Name>)
    requires Walk(g, p) && p[|p| - 1] in s && UsersInside(g, s, s)
    ensures p[0] in s
    decreases |p|
  {
    if |p| > 1 {
      var q := p[..|p| - 1];
      assert Edge(g, p[|p| - 2], p[|p| - 1]);
      assert p[|p| - 2] in Users(g, p[|p| - 1]);
      forall i | 0 <= i < |q| - 1
        ensures Edge(g, q[i], q[i + 1])
      {
        assert Edge(g, p[i], p[i + 1]);
      }
      UsersClosedIsReverseClosed(g, s, q);
    }
  }

  lemma {:induction false} UserReachesSome(g: Graph, parent: Name, n: Name, roots: set<Name>)
    requires Edge(g, parent, n) && ReachesSome(g, n, roots)
    ensures ReachesSome(g, parent, roots)
  {
    var a :| a in roots && Reaches(g, n, a);
    ReachesEdge(g, parent, n);
    ReachesTransitive(g, parent, n, a);
  }

  /** The body of the queue loop: every user of n not seen before is marked and queued. */
  method EnqueueUsers(parents: set<Name>, seen: set<Name>, queue: seq<Name>)
    returns (seen': set<Name>, queue': seq<Name>)
    ensures seen' == seen + parents
    ensures Elems(queue') == Elems(queue) + (parents - seen)
    ensures seen' == seen ==> queue' == queue
  {
    seen', queue' := seen, queue;
    var todo := parents;
    while todo != {}
      invariant todo <= parents && seen' == seen + (parents - todo)
      invariant Elems(queue') == Elems(queue) + ((parents - todo) - seen)
      invariant seen' == seen ==> queue' == queue
    {
      var parent :| parent in todo;
      todo := todo - {parent};
      if parent !in seen' {
        seen' := seen' + {parent};
        ElemsAppend(queue', [parent]);
        queue' := queue' + [parent];
      }
    }
  }

  lemma {:induction false} UsersClosedIsReverseClosure(g: Graph, roots: set<Name>, seen: set<Name>)
    requires roots <= seen && UsersInside(g, seen, seen)
    requires forall b :: b in seen ==> ReachesSome(g, b, roots)
    ensures IsReverseClosure(g, roots, seen)
  {
    forall b | ReachesSome(g, b, roots)
      ensures b in seen
    {
      var a :| a in roots && Reaches(g, b, a);
      var p :| WalkBetween(g, p, b, a);
      UsersClosedIsReverseClosed(g, seen, p);
    }
  }

  /** The breadth-first invariant: the seen nodes are the queued ones and the expanded ones. */
  ghost predicate Frontier(g: Graph, roots: set<Name>, seen: set<Name>, queued: set<Name>, expanded: set<Name>) {
    && roots <= seen <= roots + g.Keys
    && seen == expanded + queued
    && UsersInside(g, expanded, seen)
    && forall b :: b in seen ==> ReachesSome(g, b, roots)
  }

  lemma {:induction false} ExpandFrontier(g: Graph, roots: set<Name>, seen: set<Name>, queued: set<Name>,
                                          rest: set<Name>,
                       expanded: set<Name>, n: Name)
    requires Frontier(g, roots, seen, queued, expanded) && queued == {n} + rest
    ensures Frontier(g, roots, seen + Users(g, n), rest + (Users(g, n) - seen), expanded + {n})
    ensures seen + Users(g, n) == seen || g.Keys - (seen + Users(g, n)) < g.Keys - seen
  {
    var all := seen + Users(g, n);
    forall b | b in Users(g, n)
      ensures ReachesSome(g, b, roots)
    {
      UserReachesSome(g, b, n, roots);
    }
    if b :| b in Users(g, n) && b !in seen {
      assert b in g.Keys - seen && b !in g.Keys - all;
    }
  }

  /** Workspace.reverse_closure: breadth-first over the inverted edges. */
  method ReverseClosure(g: Graph, roots: set<Name>) returns (seen: set<Name>)
    ensures IsReverseClosure(g, roots, seen)
  {
    seen := roots;
    var queue := SetToSeq(roots);
    forall b | b in roots
      ensures ReachesSome(g, b, roots)
    {
      ReachesSelf(g, b);
    }
    ghost var expanded: set<Name> := {};
    while queue != []
      invariant Frontier(g, roots, seen, Elems(queue), expanded)
      decreases g.Keys - seen, |queue|
    {
      var n := queue[0];
      ExpandFrontier(g, roots, seen, Elems(queue), Elems(queue[1..]), expanded, n);
      seen, queue := EnqueueUsers(Users(g, n), seen, queue[1..]);
      expanded := expanded + {n};
    }
    assert expanded == seen;
    UsersClosedIsReverseClosure(g, roots, seen);
  }

  /** Some enumeration of a set (Python iterates a set in an arbitrary order). */
  method SetToSeq<T(==)>(s: set<T>) returns (q: seq<T>)
    ensures Elems(q) == s
    ensures forall i, j :: 0 <= i < j < |q| ==> q[i] != q[j]
  {
    q := [];
    var todo := s;
    while todo != {}
      invariant todo <= s
      invariant Elems(q) == s - todo
      invariant forall i, j :: 0 <= i < j < |q| ==> q[i] != q[j]
    {
      var x :| x in todo;
      ElemsAppend(q, [x]);
      q := q + [x];
      todo := todo - {x};
    }
  }

  // ------------------------------------------------------- change detection

  predicate NoPrevious(saved: SavedState) {
    saved.NoState? || saved.hashes == map[]
  }

  function ChangedSources(ws: Workspace, sha: Sha, files: Files, saved: SavedState, explicit: set<Path>): set<Path> {
    if explicit != {} then explicit
    else if NoPrevious(saved) then AllSources(ws)
    else set rel | rel in AllSources(ws) && (rel !in saved.hashes || saved.hashes[rel] != HashOf(sha, files, rel))
  }

  /** detect_changed_sources, for already normalised explicit paths. */
  method DetectChangedSources(ws: Workspace, sha: Sha, files: Files, saved: SavedState, explicit: set<Path>)
    returns (changed: set<Path>, targets: set<Name>)
    ensures changed == ChangedSources(ws, sha, files, saved, explicit)
    ensures explicit == {} && NoPrevious(saved) ==> targets == ws.targets.Keys
    ensures !(explicit == {} && NoPrevious(saved)) ==>
              forall n :: n in targets <==> exists rel :: rel in changed && UsesSource(ws, n, rel)
  {
    changed := ChangedSources(ws, sha, files, saved, explicit);
    if explicit == {} && NoPrevious(saved) {
      targets := ws.targets.Keys;
      return;
    }
    targets := {};
    var todo := changed;
    while todo != {}
      invariant todo <= changed
      invariant forall n :: n in targets <==> exists rel :: rel in changed - todo && UsesSource(ws, n, rel)
    {
      var rel :| rel in todo;
      targets := targets + TargetsOf(ws, rel);
      todo := todo - {rel};
    }
  }

  // ------------------------------------------------------------------ plan

  /** dep is a dependency of n whose output is not on disk. */
  predicate NeedsOutput(ws: Workspace, files: Files, n: Name, dep: Name) {
    Edge(DepGraph(ws), n, dep) && dep in ws.targets && ws.targets[dep].out !in files
  }

  ghost predicate MissingDepsInside(ws: Workspace, files: Files, s: set<Name>) {
    forall n, dep :: n in s && NeedsOutput(ws, files, n, dep) ==> dep in s
  }

  ghost predicate WellFormed(ws: Workspace, roots: set<Name>) {
    Closed(DepGraph(ws)) && roots <= ws.targets.Keys
  }

  ghost function Affected(ws: Workspace, roots: set<Name>, saved: SavedState, forceAll: bool,
                          changed: set<Name>): set<Name> {
    set n | n in DepClosure(DepGraph(ws), roots) &&
            (forceAll || saved.NoState? || ReachesSome(DepGraph(ws), n, changed))
  }

  function OfKinds(ws: Workspace, names: set<Name>, kinds: set<string>): set<Name> {
    set n | n in names && n in ws.targets && ws.targets[n].kind in kinds
  }

  /** build_plan with use_catalog=False: the affected targets of the wanted kinds, plus the least
      set of dependencies whose outputs have to be brought back for them. */
  method BuildPlan(ws: Workspace, sha: Sha, files: Files, saved: SavedState, roots: set<Name>,
                   kinds: set<string>, explicit: set<Path>, forceAll: bool) returns (plan: Plan)
    requires WellFormed(ws, roots)
    ensures plan.changedSources == ChangedSources(ws, sha, files, saved, explicit)
    ensures explicit == {} && NoPrevious(saved) ==> plan.changedTargets == ws.targets.Keys
    ensures !(explicit == {} && NoPrevious(saved)) ==>
              forall n ::
                n in plan.changedTargets <==> exists rel :: rel in plan.changedSources && UsesSource(ws, n, rel)
    ensures plan.affected == Affected(ws, roots, saved, forceAll, plan.changedTargets)
    ensures OfKinds(ws, plan.affected, kinds) <= plan.selected <= DepClosure(DepGraph(ws), roots)
    ensures MissingDepsInside(ws, files, plan.selected)
    ensures forall s: set<Name> | OfKinds(ws, plan.affected, kinds) <= s && MissingDepsInside(ws, files, s) ::
            plan.selected <= s
    ensures plan.pruned == OfKinds(ws, DepClosure(DepGraph(ws), roots), kinds) - plan.selected
  {
    var g := DepGraph(ws);
    var changedSources, changedTargets := DetectChangedSources(ws, sha, files, saved, explicit);
    var closure := TargetClosure(g, roots);
    var affected: set<Name>;
    if forceAll || saved.NoState? {
      affected := closure;
    } else if changedTargets == {} {
      affected := {};
    } else {
      affected := ReverseClosure(g, changedTargets);
      affected := affected * closure;
    }
    assert affected == Affected(ws, roots, saved, forceAll, changedTargets);
    ClosureIsClosed(g, roots);
    var selected := CompleteSelection(ws, files, OfKinds(ws, affected, kinds), closure);
    plan := Plan(changedSources, changedTargets, affected, selected, OfKinds(ws, closure, kinds) - selected);
  }

  lemma {:induction false} ClosureIsClosed(g: Graph, roots: set<Name>)
    requires Closed(g)
    ensures ClosedUnder(g, DepClosure(g, roots))
  {
    forall a, b | a in DepClosure(g, roots) && Edge(g, a, b)
      ensures b in DepClosure(g, roots)
    {
      var r :| r in roots && Reaches(g, r, a);
      ReachesEdge(g, a, b);
      ReachesTransitive(g, r, a, b);
    }
  }

  /** The repair loop of build_plan: least extension of base that brings missing outputs back. */
  method CompleteSelection(ws: Workspace, files: Files, base: set<Name>, ghost closure: set<Name>)
    returns (selected: set<Name>)
    requires base <= closure <= ws.targets.Keys
    requires Closed(DepGraph(ws)) && ClosedUnder(DepGraph(ws), closure)
    ensures base <= selected <= closure
    ensures MissingDepsInside(ws, files, selected)
    ensures forall s: set<Name> | base <= s && MissingDepsInside(ws, files, s) :: selected <= s
  {
    selected := base;
    var changed := true;
    while changed
      invariant base <= selected <= closure
      invariant !changed ==> MissingDepsInside(ws, files, selected)
      invariant forall s: set<Name> | base <= s && MissingDepsInside(ws, files, s) :: selected <= s
      decreases closure - selected, changed
    {
      changed := false;
      ghost var start := selected;
      var todo := selected;
      while todo != {}
        invariant todo <= start <= selected <= closure && base <= selected
        invariant changed <==> selected != start
        invariant forall n, dep :: n in start - todo && NeedsOutput(ws, files, n, dep) ==> dep in selected
        invariant forall s: set<Name> | base <= s && MissingDepsInside(ws, files, s) :: selected <= s
        decreases todo
      {
        var n :| n in todo;
        todo := todo - {n};
        var deps := ws.targets[n].deps;
        for i := 0 to |deps|
          invariant todo <= start <= selected <= closure && base <= selected
          invariant changed <==> selected != start
          invariant forall m, dep :: m in start - todo - {n} && NeedsOutput(ws, files, m, dep) ==> dep in selected
          invariant forall j :: 0 <= j < i ==> deps[j] in selected || ws.targets[deps[j]].out in files
          invariant forall s: set<Name> | base <= s && MissingDepsInside(ws, files, s) :: selected <= s
        {
          assert Edge(DepGraph(ws), n, deps[i]);
          if deps[i] !in selected && ws.targets[deps[i]].out !in files {
            selected := selected + {deps[i]};
            changed := true;
          }
        }
      }
    }
  }
}
