/** SharedSet of graph.rs: ordered string sets that share their parents structurally, and the
    stack loop that flattens one while visiting each shared node once. */
module SharedSets {
  import opened Digraph

  class SharedSet {
    const own: seq<string>
    const parents: seq<SharedSet>
    ghost const depth: nat

    /** join. */
    constructor (own: seq<string>, parents: seq<SharedSet>)
      requires AllValid(parents)
      ensures this.own == own && this.parents == parents && Valid()
    {
      this.own, this.parents, this.depth := own, parents, MaxDepth(parents) + 1;
      new;
      DepthBelowMax(parents);
    }

    /** Sets are built from sets that exist: sharing is a DAG. */
    ghost predicate Valid()
      decreases depth
    {
      forall i {:trigger parents[i]} :: 0 <= i < |parents| ==> parents[i].depth < depth && parents[i].Valid()
    }
  }

  ghost predicate AllValid(nodes: seq<SharedSet>) {
    forall i {:trigger nodes[i]} :: 0 <= i < |nodes| ==> nodes[i].Valid()
  }

  ghost function MaxDepth(nodes: seq<SharedSet>): nat {
    if nodes == [] then 0
    else
      var d := MaxDepth(nodes[1..]);
      if nodes[0].depth > d then nodes[0].depth else d
  }

  lemma {:induction false} DepthBelowMax(nodes: seq<SharedSet>)
    ensures forall i {:trigger nodes[i]} :: 0 <= i < |nodes| ==> nodes[i].depth <= MaxDepth(nodes)
  {
    if nodes != [] {
      DepthBelowMax(nodes[1..]);
      forall i | 0 <= i < |nodes|
        ensures nodes[i].depth <= MaxDepth(nodes)
      {
        assert i > 0 ==> nodes[i] == nodes[1..][i - 1];
      }
    }
  }

  // ---------------------------------------------------------- the naive expansion

  /** The whole tree in preorder: own entries, then every parent in order, shared or not. */
  ghost function Expand(node: SharedSet): seq<string>
    requires node.Valid()
    decreases node.depth, 1, 0
  {
    node.own + ExpandFrom(node, 0)
  }

  ghost function ExpandFrom(node: SharedSet, i: nat): seq<string>
    requires node.Valid() && i <= |node.parents|
    decreases node.depth, 0, |node.parents| - i
  {
    if i == |node.parents| then [] else Expand(node.parents[i]) + ExpandFrom(node, i + 1)
  }

  /** What a stack still stands for; its top is the last element. */
  ghost function ExpandStack(stack: seq<SharedSet>): seq<string>
    requires AllValid(stack)
  {
    if stack == [] then [] else Expand(stack[|stack| - 1]) + ExpandStack(stack[..|stack| - 1])
  }

  /** First occurrences, in order. */
  ghost function Firsts(s: seq<string>): seq<string> {
    if s == [] then []
    else
      var before, x := s[..|s| - 1], s[|s| - 1];
      if x in before then Firsts(before) else Firsts(before) + [x]
  }

  lemma {:induction false} FirstsMembers(s: seq<string>)
    ensures forall x :: x in Firsts(s) <==> x in s
  {
    if s != [] {
      FirstsMembers(s[..|s| - 1]);
      assert s == s[..|s| - 1] + [s[|s| - 1]];
    }
  }

  /** Deduplicating a prefix early changes nothing. */
  lemma {:induction false} FirstsOfFirsts(s: seq<string>, t: seq<string>)
    ensures Firsts(Firsts(s) + t) == Firsts(s + t)
    decreases |t|, |s|
  {
    if t != [] {
      var u, x := t[..|t| - 1], t[|t| - 1];
      FirstsOfFirsts(s, u);
      assert Firsts(s) + t == (Firsts(s) + u) + [x] && s + t == (s + u) + [x];
      FirstsMembers(s);
    } else if s != [] {
      var u, x := s[..|s| - 1], s[|s| - 1];
      FirstsOfFirsts(u, []);
      assert s + [] == s && Firsts(s) + [] == Firsts(s) && Firsts(u) + [] == Firsts(u) && u + [] == u;
      if x !in u {
        FirstsMembers(u);
      }
    }
  }

  /** A stretch of values that all occurred before can be dropped. */
  lemma {:induction false} DropSeen(s: seq<string>, mid: seq<string>, t: seq<string>)
    requires forall x :: x in mid ==> x in s
    ensures Firsts(s + mid + t) == Firsts(s + t)
    decreases |t|, |mid|
  {
    if t != [] {
      var u, x := t[..|t| - 1], t[|t| - 1];
      DropSeen(s, mid, u);
      assert s + mid + t == (s + mid + u) + [x] && s + t == (s + u) + [x];
    } else if mid != [] {
      var u, x := mid[..|mid| - 1], mid[|mid| - 1];
      assert mid == u + [x];
      DropSeen(s, u, []);
      assert s + mid + t == (s + u) + [x] && s + u + [] == s + u;
    } else {
      assert s + mid + t == s + t;
    }
  }

  // ------------------------------------------------------------------- the loop

  ghost function Weight(node: SharedSet): nat
    requires node.Valid()
    decreases node.depth, 1, 0
  {
    1 + WeightFrom(node, 0)
  }

  ghost function WeightFrom(node: SharedSet, i: nat): nat
    requires node.Valid() && i <= |node.parents|
    decreases node.depth, 0, |node.parents| - i
  {
    if i == |node.parents| then 0 else Weight(node.parents[i]) + WeightFrom(node, i + 1)
  }

  ghost function StackWeight(stack: seq<SharedSet>): nat
    requires AllValid(stack)
  {
    if stack == [] then 0 else Weight(stack[|stack| - 1]) + StackWeight(stack[..|stack| - 1])
  }

  /** Everything v expands to was output or lies above the given point of the stack. */
  ghost predicate Covered(v: SharedSet, out: seq<string>, above: seq<SharedSet>)
    requires v.Valid() && AllValid(above)
  {
    forall x :: x in Expand(v) ==> x in out || x in ExpandStack(above)
  }

  /** A visited node is covered above every stack entry that could still lead to it. */
  ghost predicate Shielded(visited: set<SharedSet>, stack: seq<SharedSet>, out: seq<string>)
    requires AllValid(stack) && forall v :: v in visited ==> v.Valid()
  {
    forall v, k {:trigger v in visited, stack[k]} :: v in visited && 0 <= k < |stack| && v.depth <= stack[k].depth ==>
      Covered(v, out, stack[k + 1..])
  }

  lemma {:induction false} ExpandStackAppend(low: seq<SharedSet>, high: seq<SharedSet>)
    requires AllValid(low) && AllValid(high) && AllValid(low + high)
    ensures ExpandStack(low + high) == ExpandStack(high) + ExpandStack(low)
  {
    if high == [] {
      assert low + high == low;
    } else {
      var top, rest := high[|high| - 1], high[..|high| - 1];
      assert (low + high)[..|low + high| - 1] == low + rest;
      ExpandStackAppend(low, rest);
    }
  }

  lemma {:induction false} StackWeightAppend(low: seq<SharedSet>, high: seq<SharedSet>)
    requires AllValid(low) && AllValid(high) && AllValid(low + high)
    ensures StackWeight(low + high) == StackWeight(high) + StackWeight(low)
  {
    if high == [] {
      assert low + high == low;
    } else {
      var rest := high[..|high| - 1];
      assert (low + high)[..|low + high| - 1] == low + rest;
      StackWeightAppend(low, rest);
    }
  }

  /** The parents from i on, reversed as the loop pushes them. */
  function Pushed(parents: seq<SharedSet>, i: nat): (r: seq<SharedSet>)
    requires i <= |parents|
    ensures |r| == |parents| - i && forall k {:trigger r[k]} :: 0 <= k < |r| ==> r[k] == parents[|parents| - 1 - k]
    decreases |parents| - i
  {
    if i == |parents| then [] else Pushed(parents, i + 1) + [parents[i]]
  }

  lemma {:induction false} PushedExpands(node: SharedSet, i: nat)
    requires node.Valid() && i <= |node.parents|
    ensures AllValid(Pushed(node.parents, i))
    ensures ExpandStack(Pushed(node.parents, i)) == ExpandFrom(node, i)
    ensures StackWeight(Pushed(node.parents, i)) == WeightFrom(node, i)
    decreases |node.parents| - i
  {
    if i < |node.parents| {
      PushedExpands(node, i + 1);
      var below := Pushed(node.parents, i + 1);
      assert (below + [node.parents[i]])[..|below|] == below;
    }
  }

  ghost predicate VisitedValid(visited: set<SharedSet>) {
    forall v :: v in visited ==> v.Valid()
  }

  lemma {:induction false} TopIsCovered(visited: set<SharedSet>, rest: seq<SharedSet>, x: SharedSet, v: SharedSet,
                                        out: seq<string>)
    requires AllValid(rest + [x]) && VisitedValid(visited) && Shielded(visited, rest + [x], out)
    requires v in visited && v.depth <= x.depth
    ensures forall y :: y in Expand(v) ==> y in out
  {
    var stack := rest + [x];
    assert stack[|rest|] == x && stack[|rest| + 1..] == [];
    assert Covered(v, out, stack[|rest| + 1..]);
  }

  /** Popping a node seen before. */
  lemma {:induction false} SkipKeepsShield(visited: set<SharedSet>, rest: seq<SharedSet>, x: SharedSet,
                                           out: seq<string>)
    requires AllValid(rest + [x]) && AllValid(rest) && VisitedValid(visited) && Shielded(visited, rest + [x], out)
    requires x in visited
    ensures Shielded(visited, rest, out)
    ensures Firsts(out + ExpandStack(rest + [x])) == Firsts(out + ExpandStack(rest))
  {
    assert (rest + [x])[|rest|] == x;
    var stack := rest + [x];
    TopIsCovered(visited, rest, x, x, out);
    forall v, k | v in visited && 0 <= k < |rest| && v.depth <= rest[k].depth
      ensures Covered(v, out, rest[k + 1..])
    {
      assert stack[k] == rest[k];
      assert Covered(v, out, stack[k + 1..]);
      assert stack[k + 1..] == rest[k + 1..] + [x];
      assert stack[k + 1..][..|rest| - k - 1] == rest[k + 1..];
    }
    assert stack[..|rest|] == rest;
    DropSeen(out, Expand(x), ExpandStack(rest));
    assert out + (Expand(x) + ExpandStack(rest)) == out + Expand(x) + ExpandStack(rest);
  }

  lemma {:induction false} AboveAfterVisit(rest: seq<SharedSet>, x: SharedSet, k: nat)
    requires AllValid(rest + [x]) && k < |rest| && x.Valid()
    ensures AllValid(rest[k + 1..]) && AllValid(Pushed(x.parents, 0)) && AllValid(rest[k + 1..] + Pushed(x.parents, 0))
    ensures AllValid((rest + [x])[k + 1..])
    ensures ExpandStack((rest + [x])[k + 1..]) == x.own + ExpandStack(rest[k + 1..] + Pushed(x.parents, 0))
  {
    var low, high := rest[k + 1..], Pushed(x.parents, 0);
    PushedExpands(x, 0);
    assert forall i :: 0 <= i < |rest| ==> (rest + [x])[i] == rest[i];
    assert AllValid(low) && AllValid(low + high);
    ExpandStackAppend(low, high);
    assert (rest + [x])[k + 1..] == low + [x];
    assert (low + [x])[..|low|] == low;
    assert ExpandStack(low + [x]) == Expand(x) + ExpandStack(low);
    assert x.own + ExpandFrom(x, 0) + ExpandStack(low) == x.own + (ExpandFrom(x, 0) + ExpandStack(low));
  }

  /** Visiting a node for the first time. */
  lemma {:induction false} VisitKeepsShield(visited: set<SharedSet>, rest: seq<SharedSet>, x: SharedSet,
                                            out: seq<string>, after: seq<string>)
    requires AllValid(rest + [x]) && VisitedValid(visited) && Shielded(visited, rest + [x], out) && x.Valid()
    requires forall y :: y in after <==> y in out || y in x.own
    ensures AllValid(rest + Pushed(x.parents, 0))
    ensures Shielded(visited + {x}, rest + Pushed(x.parents, 0), after)
  {
    var high := Pushed(x.parents, 0);
    var stack := rest + high;
    PushedExpands(x, 0);
    assert forall i :: 0 <= i < |rest| ==> (rest + [x])[i] == rest[i];
    assert AllValid(stack);
    forall v, k | v in visited + {x} && 0 <= k < |stack| && v.depth <= stack[k].depth
      ensures Covered(v, after, stack[k + 1..])
    {
      if k < |rest| {
        AboveAfterVisit(rest, x, k);
        assert stack[k + 1..] == rest[k + 1..] + high;
        if v in visited {
          assert (rest + [x])[k] == rest[k];
          assert Covered(v, out, (rest + [x])[k + 1..]);
        } else {
          ExpandStackAppend(rest[k + 1..], high);
        }
      } else {
        assert stack[k] == high[k - |rest|];
        assert v in visited;
        TopIsCovered(visited, rest, x, v, out);
      }
    }
  }

  /** The own entries of one node, appended when new. */
  method Emit(own: seq<string>, out: seq<string>, seen: set<string>) returns (out': seq<string>, seen': set<string>)
    requires Firsts(out) == out && forall x :: x in seen <==> x in out
    ensures out' == Firsts(out + own) && Firsts(out') == out' && forall x :: x in seen' <==> x in out'
  {
    out', seen' := out, seen;
    assert out + own[..0] == out;
    for i := 0 to |own|
      invariant out' == Firsts(out + own[..i]) && forall x :: x in seen' <==> x in out'
    {
      FirstsStep(out, own, i);
      if own[i] !in seen' {
        out', seen' := out' + [own[i]], seen' + {own[i]};
      }
    }
    assert own[..|own|] == own;
    FirstsTwice(out + own);
  }

  lemma {:induction false} FirstsStep(out: seq<string>, own: seq<string>, i: nat)
    requires i < |own|
    ensures var done := Firsts(out + own[..i]);
            Firsts(out + own[..i + 1]) == if own[i] in done then done else done + [own[i]]
  {
    FirstsMembers(out + own[..i]);
    assert out + own[..i + 1] == out + own[..i] + [own[i]];
  }

  lemma {:induction false} FirstsTwice(s: seq<string>)
    ensures Firsts(Firsts(s)) == Firsts(s)
  {
    FirstsOfFirsts(s, []);
    assert Firsts(s) + [] == Firsts(s) && s + [] == s;
  }

  /** The parents go on the stack in reverse, so that the first is popped first. */
  method Push(rest: seq<SharedSet>, parents: seq<SharedSet>) returns (stack: seq<SharedSet>)
    ensures stack == rest + Pushed(parents, 0)
  {
    stack := rest;
    assert rest + [] == rest;
    var i := |parents|;
    while i > 0
      invariant 0 <= i <= |parents| && stack == rest + Pushed(parents, i)
    {
      i := i - 1;
      stack := stack + [parents[i]];
    }
  }

  /** What the loop keeps. */
  ghost predicate Flattening(root: SharedSet, visited: set<SharedSet>, stack: seq<SharedSet>, out: seq<string>)
    requires root.Valid()
  {
    && AllValid(stack) && VisitedValid(visited) && Shielded(visited, stack, out)
    && Firsts(out + ExpandStack(stack)) == Firsts(Expand(root))
  }

  lemma {:induction false} SkipStep(root: SharedSet, visited: set<SharedSet>, rest: seq<SharedSet>, x: SharedSet,
                                    out: seq<string>)
    requires root.Valid() && Flattening(root, visited, rest + [x], out) && x in visited
    ensures Flattening(root, visited, rest, out) && StackWeight(rest) < StackWeight(rest + [x])
  {
    InitValid(rest, x);
    SkipKeepsShield(visited, rest, x, out);
    assert (rest + [x])[..|rest|] == rest;
  }

  lemma {:induction false} VisitStep(root: SharedSet, visited: set<SharedSet>, rest: seq<SharedSet>, x: SharedSet,
                                     out: seq<string>)
    requires root.Valid() && Flattening(root, visited, rest + [x], out)
    ensures x.Valid() && Flattening(root, visited + {x}, rest + Pushed(x.parents, 0), Firsts(out + x.own))
    ensures StackWeight(rest + Pushed(x.parents, 0)) < StackWeight(rest + [x])
  {
    InitValid(rest, x);
    FirstsMembers(out + x.own);
    VisitKeepsShield(visited, rest, x, out, Firsts(out + x.own));
    VisitKeepsTotal(rest, x, out);
    VisitIsLighter(rest, x);
  }

  lemma {:induction false} InitValid(rest: seq<SharedSet>, x: SharedSet)
    requires AllValid(rest + [x])
    ensures AllValid(rest) && x.Valid()
  {
    assert (rest + [x])[|rest|] == x && forall i :: 0 <= i < |rest| ==> (rest + [x])[i] == rest[i];
  }

  /** v is x or one of the sets it was joined from, directly or not. */
  ghost predicate Above(x: SharedSet, v: SharedSet)
    requires x.Valid()
    decreases x.depth
  {
    x == v || exists i {:trigger x.parents[i]} :: 0 <= i < |x.parents| && Above(x.parents[i], v)
  }

  lemma {:induction false} AboveParent(root: SharedSet, x: SharedSet, i: nat)
    requires root.Valid() && x.Valid() && Above(root, x) && i < |x.parents|
    ensures Above(root, x.parents[i])
    decreases root.depth
  {
    if root == x {
      assert Above(x.parents[i], x.parents[i]);
    } else {
      var k :| 0 <= k < |root.parents| && Above(root.parents[k], x);
      AboveParent(root.parents[k], x, i);
    }
  }

  /** The search so far: everything met is above the root, and the parents of every expanded set
      are expanded or waiting. */
  ghost predicate Exploring(root: SharedSet, visited: set<SharedSet>, stack: seq<SharedSet>)
    requires root.Valid()
  {
    && (root in visited || root in stack)
    && (forall v :: v in visited ==> Above(root, v))
    && (forall v :: v in stack ==> Above(root, v))
    && (forall v, i {:trigger v in visited, v.parents[i]} :: v in visited && 0 <= i < |v.parents| ==>
          v.parents[i] in visited || v.parents[i] in stack)
  }

  lemma {:induction false} ExploreSkip(root: SharedSet, visited: set<SharedSet>, rest: seq<SharedSet>, x: SharedSet)
    requires root.Valid() && Exploring(root, visited, rest + [x]) && x in visited
    ensures Exploring(root, visited, rest)
  {
    forall v | v in rest
      ensures Above(root, v)
    {
      assert v in rest + [x];
    }
  }

  lemma {:induction false} ExploreVisit(root: SharedSet, visited: set<SharedSet>, rest: seq<SharedSet>, x: SharedSet)
    requires root.Valid() && x.Valid() && Exploring(root, visited, rest + [x])
    ensures Exploring(root, visited + {x}, rest + Pushed(x.parents, 0))
  {
    var high := Pushed(x.parents, 0);
    assert x in rest + [x];
    forall v | v in rest + high
      ensures Above(root, v)
    {
      if v in rest {
        assert v in rest + [x];
      } else {
        var k :| 0 <= k < |high| && high[k] == v;
        AboveParent(root, x, |x.parents| - 1 - k);
      }
    }
    forall v, i | v in visited + {x} && 0 <= i < |v.parents|
      ensures v.parents[i] in visited + {x} || v.parents[i] in rest + high
    {
      if v == x {
        assert high[|x.parents| - 1 - i] == v.parents[i];
      }
    }
  }

  lemma {:induction false} AllExplored(root: SharedSet, visited: set<SharedSet>, x: SharedSet, v: SharedSet)
    requires root.Valid() && Exploring(root, visited, []) && x.Valid() && x in visited && Above(x, v)
    ensures v in visited
    decreases x.depth
  {
    if x != v {
      var i :| 0 <= i < |x.parents| && Above(x.parents[i], v);
      AllExplored(root, visited, x.parents[i], v);
    }
  }

  /** The list is the set, each member once. */
  ghost predicate Enlists(visited: set<SharedSet>, expanded: seq<SharedSet>) {
    Distinct(expanded) && visited == set v | v in expanded
  }

  lemma {:induction false} Enlist(visited: set<SharedSet>, expanded: seq<SharedSet>, x: SharedSet)
    requires Enlists(visited, expanded) && x !in visited
    ensures Enlists(visited + {x}, expanded + [x])
  {
    assert x !in expanded;
  }

  lemma {:induction false} ExploredExactly(root: SharedSet, visited: set<SharedSet>)
    requires root.Valid() && Exploring(root, visited, [])
    ensures forall v: SharedSet :: v in visited <==> Above(root, v)
  {
    forall v: SharedSet | Above(root, v)
      ensures v in visited
    {
      AllExplored(root, visited, root, v);
    }
  }

  /** flatten: the first-occurrence order of the whole expansion, though the sets above the root are
      expanded once each. */
  method Flatten(root: SharedSet) returns (out: seq<string>, ghost expanded: seq<SharedSet>)
    requires root.Valid()
    ensures out == Firsts(Expand(root))
    ensures Distinct(expanded) && forall v: SharedSet :: v in expanded <==> Above(root, v)
  {
    out, expanded := [], [];
    var seen: set<string> := {};
    var visited: set<SharedSet> := {};
    var stack := [root];
    assert out + ExpandStack(stack) == Expand(root);
    while stack != []
      invariant Flattening(root, visited, stack, out)
      invariant Firsts(out) == out && forall x :: x in seen <==> x in out
      invariant Enlists(visited, expanded)
      invariant Exploring(root, visited, stack)
      decreases StackWeight(stack)
    {
      var x, rest := stack[|stack| - 1], stack[..|stack| - 1];
      assert stack == rest + [x];
      if x in visited {
        SkipStep(root, visited, rest, x, out);
        ExploreSkip(root, visited, rest, x);
        stack := rest;
      } else {
        VisitStep(root, visited, rest, x, out);
        ExploreVisit(root, visited, rest, x);
        out, seen := Emit(x.own, out, seen);
        Enlist(visited, expanded, x);
        visited, expanded := visited + {x}, expanded + [x];
        stack := Push(rest, x.parents);
      }
    }
    assert out + [] == out;
    ExploredExactly(root, visited);
  }

  lemma {:induction false} VisitKeepsTotal(rest: seq<SharedSet>, x: SharedSet, out: seq<string>)
    requires AllValid(rest + [x]) && AllValid(rest) && x.Valid() && AllValid(rest + Pushed(x.parents, 0))
    ensures Firsts(Firsts(out + x.own) + ExpandStack(rest + Pushed(x.parents, 0)))
            == Firsts(out + ExpandStack(rest + [x]))
  {
    var high := Pushed(x.parents, 0);
    PushedExpands(x, 0);
    ExpandStackAppend(rest, high);
    assert (rest + [x])[..|rest|] == rest;
    FirstsOfFirsts(out + x.own, ExpandStack(rest + high));
    Regroup(out, x.own, ExpandFrom(x, 0), ExpandStack(rest));
  }

  lemma {:induction false} Regroup(a: seq<string>, b: seq<string>, c: seq<string>, d: seq<string>)
    ensures a + b + (c + d) == a + (b + c + d)
  {
  }

  lemma {:induction false} VisitIsLighter(rest: seq<SharedSet>, x: SharedSet)
    requires AllValid(rest + [x]) && AllValid(rest) && x.Valid() && AllValid(rest + Pushed(x.parents, 0))
    ensures StackWeight(rest + Pushed(x.parents, 0)) < StackWeight(rest + [x])
  {
    PushedExpands(x, 0);
    StackWeightAppend(rest, Pushed(x.parents, 0));
    assert (rest + [x])[..|rest|] == rest;
  }
}
