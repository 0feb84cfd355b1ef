/** toposort_targets of graph.rs: a three-colour depth-first search that either orders the
    targets with dependencies first or reports a cycle. */
module Toposort {
  import opened Digraph
  import opened Wrappers

  datatype State = Unvisited | Visiting | Done

  datatype Outcome = Order(order: seq<Name>) | Cycle(names: seq<Name>)

  /** Each entry comes after everything it depends on. */
  predicate DepsFirst(g: Graph, order: seq<Name>) {
    forall i {:trigger order[i]} :: 0 <= i < |order| ==> Covered(g, order[i], order[..i])
  }

  predicate Covered(g: Graph, n: Name, before: seq<Name>) {
    n in g && forall b :: b in g[n] ==> b in before
  }

  /** A permutation of the targets in which every dependency precedes its users. */
  ghost predicate IsTopological(g: Graph, order: seq<Name>) {
    Distinct(order) && DepsFirst(g, order) && (forall n :: n in g <==> n in order)
  }

  function RankOf(order: seq<Name>): (rank: Rank)
    requires Distinct(order)
    ensures forall n :: n in rank <==> n in order
    ensures forall i :: 0 <= i < |order| ==> rank[order[i]] == i
  {
    if order == [] then map[] else RankOf(order[..|order| - 1])[order[|order| - 1] := |order| - 1]
  }

  lemma {:induction false} TopologicalIsAcyclic(g: Graph, order: seq<Name>)
    requires IsTopological(g, order)
    ensures Acyclic(g)
  {
    RankedIsAcyclic(g, RankOf(order));
  }

  lemma {:induction false} DepsFirstAppend(g: Graph, order: seq<Name>, n: Name)
    requires DepsFirst(g, order) && Covered(g, n, order)
    ensures DepsFirst(g, order + [n])
  {
    var after := order + [n];
    forall i | 0 <= i < |after|
      ensures Covered(g, after[i], after[..i])
    {
      assert after[..i] == order[..i];
      if i < |order| {
        assert Covered(g, order[i], order[..i]);
      } else {
        assert order[..i] == order;
      }
    }
  }

  /** Where the walk may go on from the current path. */
  ghost predicate Follows(g: Graph, path: seq<Name>, n: Name) {
    path == [] || (Walk(g, path) && Edge(g, path[|path| - 1], n))
  }

  /** The path holds the targets being visited, the order those done. */
  ghost predicate Coloured(g: Graph, states: map<Name, State>, path: seq<Name>, order: seq<Name>) {
    && states.Keys == g.Keys
    && (forall n {:trigger states[n]} :: n in states ==> ColourFits(states[n], n, path, order))
    && (forall n :: n in path ==> n in states) && (forall n :: n in order ==> n in states)
    && Distinct(path) && (path == [] || Walk(g, path))
    && Distinct(order) && DepsFirst(g, order)
  }

  predicate ColourFits(state: State, n: Name, path: seq<Name>, order: seq<Name>) {
    (state.Visiting? <==> n in path) && (state.Done? <==> n in order)
  }

  lemma {:induction false} EnterKeepsColours(g: Graph, states: map<Name, State>, path: seq<Name>, order: seq<Name>,
                                             n: Name)
    requires Coloured(g, states, path, order) && n in g && states[n].Unvisited? && Follows(g, path, n)
    ensures Coloured(g, states[n := Visiting], path + [n], order)
  {
    var after, longer := states[n := Visiting], path + [n];
    assert ColourFits(states[n], n, path, order);
    forall m | m in after
      ensures ColourFits(after[m], m, longer, order)
    {
      assert ColourFits(states[m], m, path, order);
    }
    forall i | 0 <= i < |longer| - 1
      ensures Edge(g, longer[i], longer[i + 1])
    {
      assert i < |path| - 1 ==> Edge(g, path[i], path[i + 1]);
    }
  }

  lemma {:induction false} LeaveKeepsColours(g: Graph, states: map<Name, State>, path: seq<Name>, order: seq<Name>,
                                             n: Name)
    requires Coloured(g, states, path + [n], order) && n in g && Covered(g, n, order)
    ensures Coloured(g, states[n := Done], path, order + [n])
  {
    var after, longer := states[n := Done], path + [n];
    assert longer[|path|] == n;
    assert ColourFits(states[n], n, longer, order);
    DepsFirstAppend(g, order, n);
    assert Distinct(path) && n !in path by {
      assert forall i :: 0 <= i < |path| ==> longer[i] == path[i];
    }
    forall m | m in after
      ensures ColourFits(after[m], m, path, order + [n])
    {
      assert ColourFits(states[m], m, longer, order);
      assert m in longer <==> m in path || m == n;
    }
    forall i | 0 <= i < |path| - 1
      ensures Edge(g, path[i], path[i + 1])
    {
      assert Edge(g, longer[i], longer[i + 1]);
    }
    forall m | m in path
      ensures m in after
    {
      assert m in longer;
    }
  }

  class Sorter {
    const g: Graph
    var states: map<Name, State>
    var path: seq<Name>
    var order: seq<Name>

    constructor (g: Graph)
      ensures this.g == g && Inv() && path == [] && order == [] && Unseen() == g.Keys
    {
      this.g := g;
      states := map n | n in g :: Unvisited;
      path, order := [], [];
    }

    ghost function Unseen(): set<Name>
      reads this
    {
      set n | n in states && states[n].Unvisited?
    }

    ghost predicate Inv()
      reads this
    {
      Coloured(g, states, path, order)
    }

    method Position(n: Name) returns (start: nat)
      requires n in path
      ensures start < |path| && path[start] == n
    {
      start := 0;
      while path[start] != n
        invariant start < |path| && n !in path[..start]
        decreases |path| - start
      {
        start := start + 1;
      }
    }

    /** visit. */
    method Visit(name: Name) returns (cycle: Option<seq<Name>>)
      requires Closed(g) && Inv() && name in g && Follows(g, path, name)
      modifies this
      ensures cycle.Some? ==> IsCycle(g, cycle.value)
      ensures cycle.None? ==>
                Inv() && path == old(path) && name in order && old(order) <= order && Unseen() <= old(Unseen())
      decreases Unseen()
    {
      match states[name] {
        case Done =>
          return None;
        case Visiting =>
          var start := Position(name);
          return Some(path[start..] + [name]);
        case Unvisited =>
      }
      ghost var unseen, before := Unseen(), path;
      EnterKeepsColours(g, states, path, order, name);
      states, path := states[name := Visiting], path + [name];
      assert name in unseen && name !in Unseen() && Unseen() <= unseen;
      ghost var here := path;
      var deps := g[name];
      for i := 0 to |deps|
        invariant Inv() && path == here && old(order) <= order && Unseen() < unseen
        invariant forall j :: 0 <= j < i ==> deps[j] in order
      {
        assert Edge(g, name, deps[i]);
        cycle := Visit(deps[i]);
        if cycle.Some? {
          return;
        }
      }
      LeaveKeepsColours(g, states, before, order, name);
      path := path[..|path| - 1];
      assert path == before;
      states, order := states[name := Done], order + [name];
      return None;
    }
  }

  /** The targets are tried in some order; the source takes them by name.  The search succeeds
      exactly on acyclic graphs, and what it reports otherwise is a cycle. */
  method ToposortTargets(g: Graph) returns (r: Outcome)
    requires Closed(g)
    ensures r.Order? <==> Acyclic(g)
    ensures r.Order? ==> IsTopological(g, r.order)
    ensures r.Cycle? ==> IsCycle(g, r.names)
  {
    var sorter := new Sorter(g);
    var pending := g.Keys;
    while pending != {}
      invariant fresh(sorter) && sorter.g == g && sorter.Inv() && sorter.path == [] && pending <= g.Keys
      invariant forall n :: n in g && n !in pending ==> n in sorter.order
      decreases |pending|
    {
      var n :| n in pending;
      var cycle := sorter.Visit(n);
      if cycle.Some? {
        return Cycle(cycle.value);
      }
      pending := pending - {n};
    }
    TopologicalIsAcyclic(g, sorter.order);
    return Order(sorter.order);
  }
}
