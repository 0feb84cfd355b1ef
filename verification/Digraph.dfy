/** Finite directed graphs given by dependency lists, and the facts about walks,
    cycles and ranks that the planner, the scheduler and the graph queries share. */
module Digraph {
  type Name = string
  type Graph = map<Name, seq<Name>>

  predicate Edge(g: Graph, a: Name, b: Name) {
    a in g && b in g[a]
  }

  /** Every dependency names a declared node. */
  ghost predicate Closed(g: Graph) {
    forall a, b :: Edge(g, a, b) ==> b in g
  }

  /** A non-empty list of nodes in which each entry depends on the next one. */
  ghost predicate Walk(g: Graph, p: seq<Name>) {
    |p| > 0 && forall i :: 0 <= i < |p| - 1 ==> Edge(g, p[i], p[i + 1])
  }

  ghost predicate WalkBetween(g: Graph, p: seq<Name>, a: Name, b: Name) {
    Walk(g, p) && p[0] == a && p[|p| - 1] == b
  }

  /** a depends on b through zero or more dependency edges. */
  ghost predicate Reaches(g: Graph, a: Name, b: Name) {
    exists p :: WalkBetween(g, p, a, b)
  }

  /** No entry occurs twice. */
  predicate Distinct<T(==)>(s: seq<T>) {
    forall i, j :: 0 <= i < j < |s| ==> s[i] != s[j]
  }

  ghost predicate IsCycle(g: Graph, p: seq<Name>) {
    |p| >= 2 && Walk(g, p) && p[0] == p[|p| - 1]
  }

  ghost predicate Acyclic(g: Graph) {
    forall p :: !IsCycle(g, p)
  }

  /** s contains every dependency of its members. */
  ghost predicate ClosedUnder(g: Graph, s: set<Name>) {
    forall a, b :: a in s && Edge(g, a, b) ==> b in s
  }

  lemma {:induction false} ReachesSelf(g: Graph, a: Name)
    ensures Reaches(g, a, a)
  {
    assert WalkBetween(g, [a], a, a);
  }

  lemma {:induction false} ReachesEdge(g: Graph, a: Name, b: Name)
    requires Edge(g, a, b)
    ensures Reaches(g, a, b)
  {
    assert WalkBetween(g, [a, b], a, b);
  }

  lemma {:induction false} ReachesTransitive(g: Graph, a: Name, b: Name, c: Name)
    requires Reaches(g, a, b) && Reaches(g, b, c)
    ensures Reaches(g, a, c)
  {
    var p :| WalkBetween(g, p, a, b);
    var q :| WalkBetween(g, q, b, c);
    var r := p + q[1..];
    forall i | 0 <= i < |r| - 1
      ensures Edge(g, r[i], r[i + 1])
    {
      if i >= |p| - 1 {
        var j := i - (|p| - 1);
        assert r[i] == q[j] && r[i + 1] == q[j + 1];
      }
    }
    assert WalkBetween(g, r, a, c);
  }

  /** A first edge out of any non-trivial dependency. */
  lemma {:induction false} ReachesFirstEdge(g: Graph, a: Name, c: Name) returns (b: Name)
    requires Reaches(g, a, c) && a != c
    ensures Edge(g, a, b) && Reaches(g, b, c)
  {
    var p :| WalkBetween(g, p, a, c);
    b := p[1];
    assert Edge(g, p[0], p[1]);
    var q := p[1..];
    forall i | 0 <= i < |q| - 1
      ensures Edge(g, q[i], q[i + 1])
    {
      assert Edge(g, p[i + 1], p[i + 2]);
    }
    assert WalkBetween(g, q, b, c);
  }

  lemma {:induction false} WalkStaysInside(g: Graph, s: set<Name>, p: seq<Name>, k: nat)
    requires ClosedUnder(g, s) && Walk(g, p) && p[0] in s && k < |p|
    ensures p[k] in s
  {
    if k > 0 {
      WalkStaysInside(g, s, p, k - 1);
      assert Edge(g, p[k - 1], p[k]);
    }
  }

  lemma {:induction false} ReachesStaysInside(g: Graph, s: set<Name>, a: Name, b: Name)
    requires ClosedUnder(g, s) && a in s && Reaches(g, a, b)
    ensures b in s
  {
    var p :| WalkBetween(g, p, a, b);
    WalkStaysInside(g, s, p, |p| - 1);
  }

  /** h has the edges of g turned round. */
  ghost predicate Reverses(g: Graph, h: Graph) {
    forall a, b :: Edge(h, b, a) <==> Edge(g, a, b)
  }

  lemma {:induction false} WalkReverses(g: Graph, h: Graph, p: seq<Name>)
    requires Reverses(g, h) && Walk(g, p)
    ensures Reaches(h, p[|p| - 1], p[0])
  {
    if |p| == 1 {
      ReachesSelf(h, p[0]);
    } else {
      var q := p[1..];
      forall i | 0 <= i < |q| - 1
        ensures Edge(g, q[i], q[i + 1])
      {
        assert Edge(g, p[i + 1], p[i + 2]);
      }
      WalkReverses(g, h, q);
      assert Edge(g, p[0], p[1]);
      ReachesEdge(h, p[1], p[0]);
      ReachesTransitive(h, p[|p| - 1], p[1], p[0]);
    }
  }

  /** Reaching along the reversed edges is being reached. */
  lemma {:induction false} ReachesReverses(g: Graph, h: Graph, a: Name, b: Name)
    requires Reverses(g, h)
    ensures Reaches(h, b, a) <==> Reaches(g, a, b)
  {
    if Reaches(g, a, b) {
      var p :| WalkBetween(g, p, a, b);
      WalkReverses(g, h, p);
    }
    if Reaches(h, b, a) {
      var p :| WalkBetween(h, p, b, a);
      WalkReverses(h, g, p);
    }
  }

  // ---------------------------------------------------------------- ranks

  type Rank = map<Name, nat>

  /** Dependencies always have smaller rank. */
  ghost predicate Ranked(g: Graph, rank: Rank) {
    && g.Keys <= rank.Keys
    && forall a, b :: Edge(g, a, b) ==> b in rank && rank[b] < rank[a]
  }

  lemma {:induction false} RankFallsAlongWalk(g: Graph, rank: Rank, p: seq<Name>, k: nat)
    requires Ranked(g, rank) && Walk(g, p) && 0 < k < |p|
    ensures p[0] in rank && p[k] in rank && rank[p[k]] < rank[p[0]]
  {
    assert Edge(g, p[k - 1], p[k]);
    if k > 1 {
      RankFallsAlongWalk(g, rank, p, k - 1);
    }
  }

  lemma {:induction false} RankedIsAcyclic(g: Graph, rank: Rank)
    requires Ranked(g, rank)
    ensures Acyclic(g)
  {
    forall p | IsCycle(g, p)
      ensures false
    {
      RankFallsAlongWalk(g, rank, p, |p| - 1);
    }
  }

  lemma {:induction false} DuplicateInLongSeq(s: set<Name>, p: seq<Name>) returns (i: nat, j: nat)
    requires forall k :: 0 <= k < |p| ==> p[k] in s
    requires |p| > |s|
    ensures i < j < |p| && p[i] == p[j]
  {
    if k :| 1 <= k < |p| && p[k] == p[0] {
      i, j := 0, k;
    } else {
      var rest := s - {p[0]};
      assert forall k :: 0 <= k < |p[1..]| ==> p[1..][k] == p[k + 1];
      var a, b := DuplicateInLongSeq(rest, p[1..]);
      i, j := a + 1, b + 1;
    }
  }

  lemma {:induction false} WalkInside(g: Graph, s: set<Name>, n: Name, len: nat) returns (p: seq<Name>)
    requires n in s
    requires forall a :: a in s ==> HasEdgeInto(g, a, s)
    ensures |p| == len + 1 && Walk(g, p) && p[0] == n
    ensures forall k :: 0 <= k < |p| ==> p[k] in s
    decreases len
  {
    if len == 0 {
      p := [n];
    } else {
      var b :| Edge(g, n, b) && b in s;
      var q := WalkInside(g, s, b, len - 1);
      p := [n] + q;
    }
  }

  lemma {:induction false} RepeatIsCycle(g: Graph, p: seq<Name>, i: nat, j: nat)
    requires Walk(g, p) && i < j < |p| && p[i] == p[j]
    ensures IsCycle(g, p[i..j + 1])
  {
    var c := p[i..j + 1];
    forall k | 0 <= k < |c| - 1
      ensures Edge(g, c[k], c[k + 1])
    {
      assert Edge(g, p[i + k], p[i + k + 1]);
    }
  }

  ghost predicate HasEdgeInto(g: Graph, a: Name, s: set<Name>) {
    exists b :: Edge(g, a, b) && b in s
  }

  /** In an acyclic graph every non-empty set has a member with no dependency in it. */
  lemma {:induction false} MinimalMember(g: Graph, s: set<Name>) returns (n: Name)
    requires Acyclic(g) && s != {}
    ensures n in s && forall b :: Edge(g, n, b) ==> b !in s
  {
    if forall a :: a in s ==> HasEdgeInto(g, a, s) {
      var m :| m in s;
      var p := WalkInside(g, s, m, |s|);
      var i, j := DuplicateInLongSeq(s, p);
      RepeatIsCycle(g, p, i, j);
      assert false;
    } else {
      n :| n in s && !HasEdgeInto(g, n, s);
    }
  }

  lemma {:induction false} ExtendRank(g: Graph, todo: set<Name>, rank: Rank) returns (full: Rank)
    requires Closed(g) && Acyclic(g)
    requires todo <= g.Keys && rank.Keys == g.Keys - todo
    requires ClosedUnder(g, rank.Keys)
    requires forall n :: n in rank ==> rank[n] < |rank|
    requires forall a, b :: a in rank && Edge(g, a, b) ==> b in rank && rank[b] < rank[a]
    ensures Ranked(g, full)
    decreases todo
  {
    if todo == {} {
      full := rank;
    } else {
      var n := MinimalMember(g, todo);
      var next := rank[n := |rank|];
      assert next.Keys == rank.Keys + {n};
      full := ExtendRank(g, todo - {n}, next);
    }
  }

  /** Acyclicity is exactly the existence of a rank. */
  lemma {:induction false} RankExists(g: Graph) returns (rank: Rank)
    requires Closed(g) && Acyclic(g)
    ensures Ranked(g, rank)
  {
    rank := ExtendRank(g, g.Keys, map[]);
  }
}
