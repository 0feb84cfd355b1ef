/** The target queries of graph.rs: dependency closure, reverse closure and one path. */
module Queries {
  import opened Digraph
  import opened Wrappers

  /** What a worklist search from root has established. */
  ghost predicate Sweeping(edges: Graph, root: Name, seen: set<Name>, stack: seq<Name>) {
    && (root in seen || root in stack)
    && (forall n :: n in seen || n in stack ==> Reaches(edges, root, n))
    && (forall a, b :: a in seen && Edge(edges, a, b) ==> b in seen || b in stack)
  }

  lemma {:induction false} SweepStep(edges: Graph, root: Name, seen: set<Name>, rest: seq<Name>, n: Name,
                                     more: seq<Name>)
    requires Sweeping(edges, root, seen, rest + [n])
    requires forall b :: Edge(edges, n, b) <==> b in more
    ensures Sweeping(edges, root, seen + {n}, rest + more)
  {
    assert (rest + [n])[|rest|] == n;
    forall b | b in more
      ensures Reaches(edges, root, b)
    {
      ReachesEdge(edges, n, b);
      ReachesTransitive(edges, root, n, b);
    }
    assert forall m :: m in rest + [n] ==> m in rest || m == n;
    assert forall m :: m in rest + more <==> m in rest || m in more;
  }

  /** The worklist loop both closures run, over the edges they run it on. */
  method Sweep(edges: Graph, root: Name, ghost all: set<Name>) returns (seen: set<Name>)
    requires root in all && forall a, b :: Edge(edges, a, b) ==> b in all
    ensures forall n :: n in seen <==> Reaches(edges, root, n)
  {
    seen := {};
    var stack := [root];
    ReachesSelf(edges, root);
    while stack != []
      invariant Sweeping(edges, root, seen, stack)
      invariant seen <= all && forall n :: n in stack ==> n in all
      decreases all - seen, |stack|
    {
      var n, rest := stack[|stack| - 1], stack[..|stack| - 1];
      assert stack == rest + [n];
      if n in seen {
        stack := rest;
      } else {
        var more := if n in edges then edges[n] else [];
        SweepStep(edges, root, seen, rest, n, more);
        assert forall b :: b in more ==> Edge(edges, n, b);
        assert n in all - seen && n !in all - (seen + {n});
        seen, stack := seen + {n}, rest + more;
      }
    }
    forall n | Reaches(edges, root, n)
      ensures n in seen
    {
      ReachesStaysInside(edges, seen, root, n);
    }
  }

  /** deps_closure. */
  method DepsClosure(g: Graph, root: Name) returns (r: Result<set<Name>>)
    requires Closed(g)
    ensures r.Err? <==> root !in g
    ensures r.Ok? ==> forall n :: n in r.value <==> Reaches(g, root, n)
  {
    if root !in g {
      return Err;
    }
    var seen := Sweep(g, root, g.Keys);
    return Ok(seen);
  }

  /** The index rdeps_closure builds: the targets that declare each dependency. */
  method Dependents(g: Graph) returns (users: Graph)
    ensures Reverses(g, users)
  {
    users := map[];
    var todo := g.Keys;
    while todo != {}
      invariant todo <= g.Keys
      invariant forall a, b :: Edge(users, b, a) <==> Edge(g, a, b) && a !in todo
    {
      var n :| n in todo;
      var deps := g[n];
      todo := todo - {n};
      for i := 0 to |deps|
        invariant forall a, b :: Edge(users, b, a) <==> Edge(g, a, b) && a !in todo && (a == n ==> b in deps[..i])
      {
        var before := users;
        var d := deps[i];
        users := users[d := (if d in users then users[d] else []) + [n]];
        forall a, b
          ensures Edge(users, b, a) <==> Edge(g, a, b) && a !in todo && (a == n ==> b in deps[..i + 1])
        {
          assert Edge(before, b, a) <==> Edge(g, a, b) && a !in todo && (a == n ==> b in deps[..i]);
          assert Edge(users, b, a) <==> Edge(before, b, a) || (b == d && a == n);
        }
      }
      assert deps[..|deps|] == deps;
    }
  }

  /** rdeps_closure. */
  method RdepsClosure(g: Graph, root: Name) returns (r: Result<set<Name>>)
    requires Closed(g)
    ensures r.Err? <==> root !in g
    ensures r.Ok? ==> forall n :: n in r.value <==> Reaches(g, n, root)
  {
    if root !in g {
      return Err;
    }
    var users := Dependents(g);
    forall a, b | Edge(users, b, a)
      ensures a in g.Keys
    {
      assert Edge(g, a, b);
    }
    var seen := Sweep(users, root, g.Keys);
    forall n
      ensures n in seen <==> Reaches(g, n, root)
    {
      ReachesReverses(g, users, n, root);
    }
    return Ok(seen);
  }

  // ----------------------------------------------------------------- somepath

  /** The members of a all have their dependencies in b. */
  ghost predicate DepsInside(g: Graph, a: set<Name>, b: set<Name>) {
    forall x, y :: x in a && Edge(g, x, y) ==> y in b
  }

  ghost predicate SimpleWalk(g: Graph, p: seq<Name>) {
    Distinct(p) && (p == [] || Walk(g, p))
  }

  class Finder {
    const g: Graph
    const goal: Name
    var path: seq<Name>
    var seen: set<Name>

    constructor (g: Graph, goal: Name)
      ensures this.g == g && this.goal == goal && path == [] && seen == {}
    {
      this.g, this.goal, path, seen := g, goal, [], {};
    }

    ghost predicate Inv()
      reads this
    {
      SimpleWalk(g, path) && seen <= g.Keys && goal !in seen && forall n :: n in path ==> n in seen
    }

    /** visit.  A failed visit leaves behind only targets whose dependencies were all seen too, so
        the branches may share one seen set. */
    method Visit(current: Name) returns (found: bool)
      requires Closed(g) && Inv() && current in g && (path != [] ==> Edge(g, path[|path| - 1], current))
      modifies this
      ensures found ==> SimpleWalk(g, path) && old(path) + [current] <= path && path[|path| - 1] == goal
      ensures !found ==>
                Inv() && path == old(path) && old(seen) + {current} <= seen && DepsInside(g, seen - old(seen), seen)
      decreases g.Keys - seen
    {
      if current in seen {
        return false;
      }
      ghost var before := seen;
      assert current in g.Keys - before && current !in g.Keys - (before + {current});
      seen, path := seen + {current}, path + [current];
      ghost var here := path;
      if current == goal {
        return true;
      }
      var deps := g[current];
      for i := 0 to |deps|
        invariant Inv() && path == here && before + {current} <= seen
        invariant forall j :: 0 <= j < i ==> deps[j] in seen
        invariant DepsInside(g, seen - before - {current}, seen)
      {
        assert Edge(g, current, deps[i]);
        ghost var mid := seen;
        found := Visit(deps[i]);
        if found {
          assert here <= here + [deps[i]] <= path;
          return;
        }
        assert DepsInside(g, seen - mid, seen);
      }
      path := path[..|path| - 1];
      return false;
    }
  }

  /** somepath. */
  method SomePath(g: Graph, a: Name, b: Name) returns (r: Result<Option<seq<Name>>>)
    requires Closed(g)
    ensures r.Err? <==> a !in g || b !in g
    ensures r.Ok? ==> (r.value.Some? <==> Reaches(g, a, b))
    ensures r.Ok? && r.value.Some? ==> WalkBetween(g, r.value.value, a, b) && Distinct(r.value.value)
  {
    if a !in g || b !in g {
      return Err;
    }
    var finder := new Finder(g, b);
    var found := finder.Visit(a);
    if found {
      assert finder.path[0] == a;
      assert WalkBetween(g, finder.path, a, b);
      return Ok(Some(finder.path));
    }
    if Reaches(g, a, b) {
      ReachesStaysInside(g, finder.seen, a, b);
    }
    return Ok(None);
  }

  /** The three queries agree. */
  method Agree(g: Graph, a: Name, b: Name)
      returns (deps: Result<set<Name>>, rdeps: Result<set<Name>>, path: Result<Option<seq<Name>>>)
    requires Closed(g)
    ensures a in g && b in g ==>
              && deps.Ok? && rdeps.Ok? && path.Ok?
              && (b in deps.value <==> a in rdeps.value) && (a in rdeps.value <==> path.value.Some?)
  {
    deps := DepsClosure(g, a);
    rdeps := RdepsClosure(g, b);
    path := SomePath(g, a, b);
  }
}
