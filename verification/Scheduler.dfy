/** The ledger of execute_plan in frost.py: which actions are waiting, ready, running,
    completed, failed or skipped, and the log of starts and finishes a run leaves behind.
    All statements are about the dependency graph induced by the selected targets. */
module Scheduler {
  import opened Digraph
  import opened Planner

  function Keep(deps: seq<Name>, s: set<Name>): (r: seq<Name>)
    ensures forall d :: d in r <==> d in deps && d in s
  {
    if deps == [] then []
    else if deps[0] in s then [deps[0]] + Keep(deps[1..], s)
    else Keep(deps[1..], s)
  }

  /** deps_in_subset: the dependencies of selected targets that are selected themselves. */
  function Induced(g: Graph, selected: set<Name>): Graph {
    map n | n in g && n in selected :: Keep(g[n], selected)
  }

  function Deps(g: Graph, n: Name): set<Name>
    requires n in g
  {
    set d | d in g[n]
  }

  lemma {:induction false} InducedRanked(g: Graph, selected: set<Name>, rank: Rank)
    requires Ranked(g, rank)
    ensures Ranked(Induced(g, selected), rank)
  {
    forall a, b | Edge(Induced(g, selected), a, b)
      ensures b in rank && rank[b] < rank[a]
    {
      assert Edge(g, a, b);
    }
  }

  // ---------------------------------------------------------------- ledger

  datatype Ledger = Ledger(waiting: map<Name, set<Name>>, ready: set<Name>, running: set<Name>,
                           completed: set<Name>, failed: set<Name>, skipped: set<Name>)
  {
    function Started(): set<Name> {
      running + completed + failed
    }
  }

  /** Python's heap pops a smallest (-priority, name); the queue pops the oldest entry. */
  datatype Policy = Fifo | CriticalPath(priority: map<Name, nat>)

  function PriorityOf(policy: Policy, n: Name): nat {
    if policy.CriticalPath? && n in policy.priority then policy.priority[n] else 0
  }

  ghost predicate Disjoint(l: Ledger) {
    && l.ready !! l.running && l.ready !! l.completed && l.ready !! l.failed
    && l.running !! l.completed && l.running !! l.failed && l.completed !! l.failed
  }

  /** What the ledger says about one target. */
  ghost predicate NodeOk(g: Graph, l: Ledger, p: Name)
    requires p in g && p in l.waiting
  {
    && (p !in l.skipped ==> l.waiting[p] == Deps(g, p) - l.completed)
    && (p in l.ready + l.Started() <==> Deps(g, p) <= l.completed)
    && (p in l.skipped <==> Deps(g, p) * l.failed != {})
  }

  ghost predicate LedgerInv(g: Graph, l: Ledger) {
    && l.waiting.Keys == g.Keys
    && l.ready + l.Started() <= g.Keys && l.skipped <= g.Keys
    && Disjoint(l)
    && forall p {:trigger NodeOk(g, l, p)} :: p in g ==> NodeOk(g, l, p)
  }

  function InitialLedger(g: Graph): (l: Ledger)
    ensures LedgerInv(g, l) && l.Started() == {}
  {
    var l := Ledger(map n | n in g :: Deps(g, n), set n | n in g && Deps(g, n) == {}, {}, {}, {}, {});
    assert forall p :: p in g ==> NodeOk(g, l, p);
    l
  }

  /** No ready action has a higher priority. */
  predicate IsTop(policy: Policy, ready: set<Name>, n: Name) {
    n in ready && forall m :: m in ready ==> PriorityOf(policy, m) <= PriorityOf(policy, n)
  }

  lemma {:induction false} HighestPriority(policy: Policy, ready: set<Name>) returns (n: Name)
    requires ready != {}
    ensures IsTop(policy, ready, n)
  {
    var x :| x in ready;
    if ready == {x} {
      n := x;
    } else {
      var y := HighestPriority(policy, ready - {x});
      n := if PriorityOf(policy, x) <= PriorityOf(policy, y) then y else x;
    }
  }

  method PopReady(policy: Policy, ready: set<Name>) returns (n: Name)
    requires ready != {}
    ensures IsTop(policy, ready, n)
  {
    ghost var best := HighestPriority(policy, ready);
    n :| n in ready && IsTop(policy, ready, n);
  }

  lemma {:induction false} LaunchKeepsInv(g: Graph, l: Ledger, n: Name)
    requires LedgerInv(g, l) && n in l.ready
    ensures LedgerInv(g, l.(ready := l.ready - {n}, running := l.running + {n}))
  {
    var k := l.(ready := l.ready - {n}, running := l.running + {n});
    assert k.ready + k.Started() == l.ready + l.Started();
    forall p | p in g
      ensures NodeOk(g, k, p)
    {
      assert NodeOk(g, l, p);
    }
  }

  /** n was the last thing p was waiting for. */
  predicate Freed(g: Graph, l: Ledger, n: Name, p: Name) {
    Edge(g, p, n) && p !in l.skipped && p in l.waiting && l.waiting[p] - {n} == {}
  }

  /** The ledger once n has succeeded. */
  function Released(g: Graph, l: Ledger, n: Name): Ledger {
    Ledger(map p | p in l.waiting :: if p in Users(g, n) && p !in l.skipped then l.waiting[p] - {n} else l.waiting[p],
           l.ready + (set p | p in g && Freed(g, l, n, p)),
           l.running - {n}, l.completed + {n}, l.failed, l.skipped)
  }

  /** And once it has failed. */
  function FailedOn(g: Graph, l: Ledger, n: Name): Ledger {
    l.(failed := l.failed + {n}, running := l.running - {n}, skipped := l.skipped + Users(g, n))
  }

  /** Each user of n that is not skipped stops waiting for it; users left with nothing to
      wait for become ready. */
  method ReleaseUsers(g: Graph, l: Ledger, n: Name) returns (waiting: map<Name, set<Name>>, ready: set<Name>)
    requires l.waiting.Keys == g.Keys
    ensures waiting == Released(g, l, n).waiting && ready == Released(g, l, n).ready
  {
    waiting, ready := l.waiting, l.ready;
    var users := Users(g, n);
    var todo := users;
    while todo != {}
      invariant todo <= users
      invariant waiting.Keys == g.Keys
      invariant forall p :: p in g ==>
                  waiting[p] == if p in users && p !in l.skipped && p !in todo then l.waiting[p] - {n} else l.waiting[p]
      invariant forall p :: p in ready <==> p in l.ready || (p !in todo && Freed(g, l, n, p))
    {
      var parent :| parent in todo;
      todo := todo - {parent};
      if parent !in l.skipped {
        var rest := waiting[parent] - {n};
        waiting := waiting[parent := rest];
        if rest == {} {
          ready := ready + {parent};
        }
      }
    }
  }

  /** The success branch of the completion loop. */
  method Complete(g: Graph, l: Ledger, n: Name) returns (k: Ledger)
    requires LedgerInv(g, l) && n in l.running
    ensures LedgerInv(g, k) && k == Released(g, l, n)
    ensures k.completed == l.completed + {n} && k.running == l.running - {n}
    ensures k.failed == l.failed && k.skipped == l.skipped && l.ready <= k.ready
  {
    var waiting, ready := ReleaseUsers(g, l, n);
    k := Ledger(waiting, ready, l.running - {n}, l.completed + {n}, l.failed, l.skipped);
    CompleteKeepsInv(g, l, n);
  }

  /** Completing n satisfies the dependencies of p exactly when they already were or p is freed. */
  lemma {:induction false} CompleteFrees(g: Graph, l: Ledger, n: Name, p: Name)
    requires LedgerInv(g, l) && n in l.running && p in g
    ensures Deps(g, p) <= l.completed + {n} <==> Deps(g, p) <= l.completed || Freed(g, l, n, p)
    ensures Freed(g, l, n, p) ==> p !in l.Started() + l.ready
  {
    assert NodeOk(g, l, p);
    if n in Deps(g, p) {
      if p in l.skipped {
        var f :| f in Deps(g, p) * l.failed;
        assert f !in l.completed + {n};
      } else {
        assert l.waiting[p] - {n} == Deps(g, p) - (l.completed + {n});
      }
    }
  }

  lemma {:induction false} CompleteKeepsInv(g: Graph, l: Ledger, n: Name)
    requires LedgerInv(g, l) && n in l.running
    ensures LedgerInv(g, Released(g, l, n))
  {
    var k := Released(g, l, n);
    assert k.Started() == l.Started();
    forall p | p in g
      ensures NodeOk(g, k, p)
      ensures p in k.ready ==> p !in k.Started()
    {
      assert NodeOk(g, l, p);
      CompleteFrees(g, l, n, p);
      assert p in Users(g, n) <==> n in Deps(g, p);
    }
  }

  /** The failure branch: every direct user of n is skipped. */
  method Fail(g: Graph, l: Ledger, n: Name) returns (k: Ledger)
    requires LedgerInv(g, l) && n in l.running
    ensures LedgerInv(g, k) && k == FailedOn(g, l, n)
    ensures k.failed == l.failed + {n} && k.running == l.running - {n}
    ensures k.completed == l.completed && k.ready == l.ready
  {
    var skipped := l.skipped;
    var users := Users(g, n);
    var todo := users;
    while todo != {}
      invariant todo <= users && skipped == l.skipped + (users - todo)
    {
      var parent :| parent in todo;
      todo := todo - {parent};
      skipped := skipped + {parent};
    }
    assert skipped == l.skipped + users;
    k := l.(failed := l.failed + {n}, running := l.running - {n}, skipped := skipped);
    FailKeepsInv(g, l, n);
  }

  lemma {:induction false} FailKeepsInv(g: Graph, l: Ledger, n: Name)
    requires LedgerInv(g, l) && n in l.running
    ensures LedgerInv(g, FailedOn(g, l, n))
  {
    var k := FailedOn(g, l, n);
    assert k.Started() == l.Started();
    forall p | p in g
      ensures NodeOk(g, k, p)
    {
      assert NodeOk(g, l, p);
      assert Deps(g, p) * k.failed == Deps(g, p) * l.failed + Deps(g, p) * {n};
      assert n in Deps(g, p) ==> n in Deps(g, p) * k.failed;
    }
  }

  // ------------------------------------------------------- the final ledger

  /** Completed actions only ever depend on completed actions. */
  lemma {:induction false} NothingStartedIsBlocked(g: Graph, l: Ledger, n: Name)
    requires LedgerInv(g, l) && n in l.Started() && n !in l.failed
    ensures !ReachesSome(g, n, l.failed)
  {
    if ReachesSome(g, n, l.failed) {
      var f :| f in l.failed && Reaches(g, n, f);
      var d := ReachesFirstEdge(g, n, f);
      assert NodeOk(g, l, n) && d in Deps(g, n);
      CompletedClosed(g, l, d, f);
    }
  }

  lemma {:induction false} CompletedClosed(g: Graph, l: Ledger, d: Name, f: Name)
    requires LedgerInv(g, l) && d in l.completed && Reaches(g, d, f)
    ensures f in l.completed
  {
    forall a, b | a in l.completed && Edge(g, a, b)
      ensures b in l.completed
    {
      assert NodeOk(g, l, a) && b in Deps(g, a);
    }
    ReachesStaysInside(g, l.completed, d, f);
  }

  /** When the loop has nothing ready and nothing running, whatever neither completed nor
      failed is waiting, perhaps far down, for something that failed. */
  lemma {:induction false} QuietMeansBlocked(g: Graph, rank: Rank, l: Ledger, n: Name)
    requires LedgerInv(g, l) && l.ready == {} && l.running == {}
    requires Closed(g) && Ranked(g, rank) && n in g
    ensures n in l.completed || ReachesSome(g, n, l.failed)
    decreases rank[n]
  {
    if n in l.failed {
      ReachesSelf(g, n);
    } else if n !in l.completed {
      assert NodeOk(g, l, n);
      var d :| d in Deps(g, n) && d !in l.completed;
      assert Edge(g, n, d);
      QuietMeansBlocked(g, rank, l, d);
      UserReachesSome(g, n, d, l.failed);
    }
  }

  // ------------------------------------------------------------------- log

  datatype Event = Start(name: Name) | Finish(name: Name, ok: bool)

  function StartedIn(log: seq<Event>): set<Name> {
    if log == [] then {}
    else
      var e := log[|log| - 1];
      StartedIn(log[..|log| - 1]) + if e.Start? then {e.name} else {}
  }

  function FinishedIn(log: seq<Event>, ok: bool): set<Name> {
    if log == [] then {}
    else
      var e := log[|log| - 1];
      FinishedIn(log[..|log| - 1], ok) + if e.Finish? && e.ok == ok then {e.name} else {}
  }

  function RunningIn(log: seq<Event>): set<Name> {
    StartedIn(log) - FinishedIn(log, true) - FinishedIn(log, false)
  }

  /** May e happen after log?  No restart, dependencies completed first, a slot is free. */
  ghost predicate Allowed(g: Graph, slots: nat, log: seq<Event>, e: Event) {
    match e
    case Start(n) => n in g && n !in StartedIn(log) && Deps(g, n) <= FinishedIn(log, true) && |RunningIn(log)| < slots
    case Finish(n, _) => n in RunningIn(log)
  }

  ghost predicate AllowedAt(g: Graph, slots: nat, log: seq<Event>, i: nat)
    requires i < |log|
  {
    Allowed(g, slots, log[..i], log[i])
  }

  ghost predicate GoodLog(g: Graph, slots: nat, log: seq<Event>) {
    forall i {:trigger AllowedAt(g, slots, log, i)} :: 0 <= i < |log| ==> AllowedAt(g, slots, log, i)
  }

  /** The ledger is the log, summarised. */
  ghost predicate LogMatches(log: seq<Event>, l: Ledger) {
    && StartedIn(log) == l.Started()
    && FinishedIn(log, true) == l.completed
    && FinishedIn(log, false) == l.failed
  }

  lemma {:induction false} GoodLogAppend(g: Graph, slots: nat, log: seq<Event>, e: Event)
    requires GoodLog(g, slots, log) && Allowed(g, slots, log, e)
    ensures GoodLog(g, slots, log + [e])
  {
    var longer := log + [e];
    forall i | 0 <= i < |longer|
      ensures AllowedAt(g, slots, longer, i)
    {
      if i < |log| {
        assert AllowedAt(g, slots, log, i) && longer[..i] == log[..i];
      } else {
        assert longer[..i] == log;
      }
    }
  }

  lemma {:induction false} GoodLogPrefix(g: Graph, slots: nat, log: seq<Event>, n: nat)
    requires GoodLog(g, slots, log) && n <= |log|
    ensures GoodLog(g, slots, log[..n])
  {
    forall i | 0 <= i < n
      ensures AllowedAt(g, slots, log[..n], i)
    {
      assert AllowedAt(g, slots, log, i) && log[..n][..i] == log[..i];
    }
  }

  lemma {:induction false} StartIsIn(log: seq<Event>, i: nat)
    requires i < |log| && log[i].Start?
    ensures log[i].name in StartedIn(log)
  {
    if i < |log| - 1 {
      StartIsIn(log[..|log| - 1], i);
    }
  }

  lemma {:induction false} FinishIndex(log: seq<Event>, ok: bool, n: Name) returns (k: nat)
    requires n in FinishedIn(log, ok)
    ensures k < |log| && log[k] == Finish(n, ok)
  {
    if log[|log| - 1] == Finish(n, ok) {
      k := |log| - 1;
    } else {
      k := FinishIndex(log[..|log| - 1], ok, n);
    }
  }

  lemma {:induction false} StartsOnce(g: Graph, slots: nat, log: seq<Event>, i: nat, j: nat)
    requires GoodLog(g, slots, log) && i < j < |log| && log[i].Start? && log[j].Start?
    ensures log[i].name != log[j].name
  {
    assert AllowedAt(g, slots, log, j);
    StartIsIn(log[..j], i);
  }

  lemma {:induction false} StartsAfterDeps(g: Graph, slots: nat, log: seq<Event>, i: nat, d: Name) returns (k: nat)
    requires GoodLog(g, slots, log) && i < |log| && log[i].Start? && Edge(g, log[i].name, d)
    ensures k < i && log[k] == Finish(d, true)
  {
    assert AllowedAt(g, slots, log, i);
    assert d in Deps(g, log[i].name);
    k := FinishIndex(log[..i], true, d);
  }

  /** What a good log means, event by event: at most one start per action, each start after
      a successful finish of every selected dependency, and never more than `slots` running. */
  lemma {:induction false} GoodLogMeaning(g: Graph, slots: nat, log: seq<Event>)
    requires GoodLog(g, slots, log)
    ensures forall i, j :: 0 <= i < j < |log| && log[i].Start? && log[j].Start? ==> log[i].name != log[j].name
    ensures forall i, d :: 0 <= i < |log| && log[i].Start? && Edge(g, log[i].name, d) ==> Finish(d, true) in log[..i]
    ensures forall k :: 0 <= k <= |log| ==> |RunningIn(log[..k])| <= slots
  {
    forall i, j | 0 <= i < j < |log| && log[i].Start? && log[j].Start?
      ensures log[i].name != log[j].name
    {
      StartsOnce(g, slots, log, i, j);
    }
    forall i, d | 0 <= i < |log| && log[i].Start? && Edge(g, log[i].name, d)
      ensures Finish(d, true) in log[..i]
    {
      var k := StartsAfterDeps(g, slots, log, i, d);
      assert log[..i][k] == Finish(d, true);
    }
    forall k | 0 <= k <= |log|
      ensures |RunningIn(log[..k])| <= slots
    {
      GoodLogPrefix(g, slots, log, k);
      RunningBounded(g, slots, log[..k]);
    }
  }

  lemma {:induction false} StartIndex(log: seq<Event>, n: Name) returns (k: nat)
    requires n in StartedIn(log)
    ensures k < |log| && log[k] == Start(n)
  {
    if log[|log| - 1] == Start(n) {
      k := |log| - 1;
    } else {
      k := StartIndex(log[..|log| - 1], n);
    }
  }

  lemma {:induction false} FinishIsIn(log: seq<Event>, ok: bool, i: nat)
    requires i < |log| && log[i].Finish? && log[i].ok == ok
    ensures log[i].name in FinishedIn(log, ok)
  {
    if i < |log| - 1 {
      FinishIsIn(log[..|log| - 1], ok, i);
    }
  }

  /** What was started has all its dependencies among the successes. */
  lemma {:induction false} StartedMeansDepsCompleted(g: Graph, slots: nat, log: seq<Event>, n: Name, d: Name)
    requires GoodLog(g, slots, log) && n in StartedIn(log) && Edge(g, n, d)
    ensures d in FinishedIn(log, true)
  {
    var i := StartIndex(log, n);
    var k := StartsAfterDeps(g, slots, log, i, d);
    FinishIsIn(log, true, k);
  }

  lemma {:induction false} FinishedWasStarted(g: Graph, slots: nat, log: seq<Event>, ok: bool, n: Name)
    requires GoodLog(g, slots, log) && n in FinishedIn(log, ok)
    ensures n in StartedIn(log)
  {
    var k := FinishIndex(log, ok, n);
    assert AllowedAt(g, slots, log, k);
    var i := StartIndex(log[..k], n);
    StartIsIn(log, i);
  }

  /** And so has everything below it. */
  lemma {:induction false} StartedMeansBelowCompleted(g: Graph, slots: nat, log: seq<Event>, n: Name, f: Name)
    requires GoodLog(g, slots, log) && n in StartedIn(log) && Reaches(g, n, f) && f != n
    ensures f in FinishedIn(log, true)
  {
    var completed := FinishedIn(log, true);
    forall a, b | a in completed && Edge(g, a, b)
      ensures b in completed
    {
      FinishedWasStarted(g, slots, log, true, a);
      StartedMeansDepsCompleted(g, slots, log, a, b);
    }
    var d := ReachesFirstEdge(g, n, f);
    StartedMeansDepsCompleted(g, slots, log, n, d);
    ReachesStaysInside(g, completed, d, f);
  }

  lemma {:induction false} RunningBounded(g: Graph, slots: nat, log: seq<Event>)
    requires GoodLog(g, slots, log)
    ensures |RunningIn(log)| <= slots
  {
    if log != [] {
      var before, e := log[..|log| - 1], log[|log| - 1];
      assert AllowedAt(g, slots, log, |log| - 1);
      GoodLogPrefix(g, slots, log, |log| - 1);
      RunningBounded(g, slots, before);
      if e.Start? {
        SubsetSize(RunningIn(log), RunningIn(before) + {e.name});
      } else {
        SubsetSize(RunningIn(log), RunningIn(before));
      }
    }
  }

  lemma {:induction false} SubsetSize<T>(a: set<T>, b: set<T>)
    requires a <= b
    ensures |a| <= |b|
  {
    if x :| x in a {
      SubsetSize(a - {x}, b - {x});
    }
  }

}
