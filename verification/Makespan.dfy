/** How good is the greedy schedule of execute_plan?  Actions take a positive whole number of
    time units and never fail; launching and collecting take no time. */
module Makespan {
  import opened Digraph
  import opened Planner
  import opened Scheduler

  type Durations = map<Name, nat>

  ghost predicate Timed(g: Graph, dur: Durations) {
    g.Keys <= dur.Keys && forall n :: n in g ==> dur[n] > 0
  }

  // ------------------------------------------------- critical-path priorities

  /** The defining equation of a priority: own duration plus the largest priority of a user. */
  ghost predicate ScoreAt(g: Graph, dur: Durations, score: map<Name, nat>, n: Name)
    requires n in dur
  {
    && n in score
    && (forall p :: p in Users(g, n) ==> p in score && score[p] + dur[n] <= score[n])
    && if Users(g, n) == {} then score[n] == dur[n]
       else exists p :: p in Users(g, n) && p in score && score[n] == dur[n] + score[p]
  }

  ghost predicate IsScore(g: Graph, dur: Durations, score: map<Name, nat>)
    requires Timed(g, dur)
  {
    g.Keys <= score.Keys && forall n {:trigger ScoreAt(g, dur, score, n)} :: n in g ==> ScoreAt(g, dur, score, n)
  }

  ghost function Above(g: Graph, rank: Rank, n: Name): set<Name>
    requires Ranked(g, rank)
  {
    set m | m in g && (n in rank ==> rank[m] > rank[n])
  }

  ghost predicate MemoOk(g: Graph, dur: Durations, memo: map<Name, nat>)
    requires Timed(g, dur)
  {
    memo.Keys <= g.Keys && forall m {:trigger ScoreAt(g, dur, memo, m)} :: m in memo ==> ScoreAt(g, dur, memo, m)
  }

  ghost predicate Extends(memo: map<Name, nat>, memo': map<Name, nat>) {
    forall m :: m in memo ==> m in memo' && memo'[m] == memo[m]
  }

  /** best is the largest priority among the names in done, or 0 when there are none. */
  ghost predicate BestOf(done: set<Name>, memo: map<Name, nat>, best: nat) {
    && (forall p :: p in done ==> p in memo && memo[p] <= best)
    && if done == {} then best == 0 else exists p :: p in done && p in memo && memo[p] == best
  }

  lemma {:induction false} MemoInsert(g: Graph, dur: Durations, memo: map<Name, nat>, n: Name, best: nat)
    requires Timed(g, dur) && MemoOk(g, dur, memo) && n in g && n !in memo
    requires BestOf(Users(g, n), memo, best)
    ensures MemoOk(g, dur, memo[n := dur[n] + best])
  {
    var memo' := memo[n := dur[n] + best];
    forall m | m in memo
      ensures ScoreAt(g, dur, memo', m)
    {
      assert ScoreAt(g, dur, memo, m);
    }
    assert ScoreAt(g, dur, memo', n);
  }

  /** The memoised recursion of critical_path_priorities. */
  method ScoreFrom(g: Graph, dur: Durations, n: Name, memo: map<Name, nat>, ghost rank: Rank)
    returns (memo': map<Name, nat>)
    requires Timed(g, dur) && Ranked(g, rank) && n in g && MemoOk(g, dur, memo)
    ensures n in memo' && Extends(memo, memo') && MemoOk(g, dur, memo')
    decreases Above(g, rank, n)
  {
    if n in memo {
      return memo;
    }
    memo' := memo;
    var users := Users(g, n);
    var todo, best := users, 0;
    while todo != {}
      invariant todo <= users && Extends(memo, memo') && MemoOk(g, dur, memo')
      invariant BestOf(users - todo, memo', best)
      decreases todo
    {
      var parent :| parent in todo;
      assert parent in Above(g, rank, n) && parent !in Above(g, rank, parent);
      ghost var before := memo';
      memo' := ScoreFrom(g, dur, parent, memo', rank);
      assert users - todo + {parent} == users - (todo - {parent});
      todo := todo - {parent};
      best := if memo'[parent] > best then memo'[parent] else best;
    }
    if n !in memo' {
      assert users - todo == users;
      MemoInsert(g, dur, memo', n, best);
      memo' := memo'[n := dur[n] + best];
    }
  }

  method CriticalPathPriorities(g: Graph, dur: Durations, ghost rank: Rank) returns (score: map<Name, nat>)
    requires Timed(g, dur) && Ranked(g, rank)
    ensures IsScore(g, dur, score) && score.Keys == g.Keys
  {
    score := map[];
    var todo := g.Keys;
    while todo != {}
      invariant todo <= g.Keys && g.Keys - todo <= score.Keys
      invariant MemoOk(g, dur, score)
    {
      var n :| n in todo;
      todo := todo - {n};
      score := ScoreFrom(g, dur, n, score, rank);
    }
  }

  /** A chain of actions, each one a user of the one before it. */
  ghost predicate Chain(g: Graph, c: seq<Name>) {
    |c| > 0 && (forall i :: 0 <= i < |c| ==> c[i] in g) && forall i :: 0 <= i < |c| - 1 ==> c[i + 1] in Users(g, c[i])
  }

  ghost function Weight(dur: Durations, c: seq<Name>): nat
    requires forall i :: 0 <= i < |c| ==> c[i] in dur
  {
    if c == [] then 0 else dur[c[0]] + Weight(dur, c[1..])
  }

  /** No chain of dependent actions is longer than the priority of its first action. */
  lemma {:induction false} ChainBelowScore(g: Graph, dur: Durations, score: map<Name, nat>, c: seq<Name>)
    requires Timed(g, dur) && IsScore(g, dur, score) && Chain(g, c)
    ensures Weight(dur, c) <= score[c[0]]
  {
    assert ScoreAt(g, dur, score, c[0]);
    if |c| > 1 {
      assert c[1] in Users(g, c[0]);
      ChainBelowScore(g, dur, score, c[1..]);
    } else {
      assert c[1..] == [];
    }
  }

  /** Some chain reaches it. */
  lemma {:induction false} ScoreIsAttained(g: Graph, rank: Rank, dur: Durations, score: map<Name, nat>, n: Name)
    returns (c: seq<Name>)
    requires Timed(g, dur) && IsScore(g, dur, score) && Ranked(g, rank) && n in g
    ensures Chain(g, c) && c[0] == n && Weight(dur, c) == score[n]
    decreases Above(g, rank, n)
  {
    assert ScoreAt(g, dur, score, n);
    if Users(g, n) == {} {
      c := [n];
      assert c[1..] == [];
    } else {
      var p :| p in Users(g, n) && p in score && score[n] == dur[n] + score[p];
      assert p in Above(g, rank, n) && p !in Above(g, rank, p);
      var rest := ScoreIsAttained(g, rank, dur, score, p);
      c := [n] + rest;
      assert c[1..] == rest;
    }
  }

  // ------------------------------------------------------------- the timed run

  /** Outstanding work: every action once for each time unit it still needs. */
  type Load = multiset<Name>

  ghost predicate IsTotalLoad(g: Graph, dur: Durations, load: Load)
    requires Timed(g, dur)
  {
    forall n :: load[n] == if n in g then dur[n] else 0
  }

  ghost function Pick(s: set<Name>): (n: Name)
    requires s != {}
    ensures n in s
  {
    var n :| n in s;
    n
  }

  /** The durations of s added up. */
  ghost function TotalTime(dur: Durations, s: set<Name>): nat
    requires s <= dur.Keys
  {
    if s == {} then 0 else dur[Pick(s)] + TotalTime(dur, s - {Pick(s)})
  }

  /** In whatever order. */
  lemma {:induction false} TotalTimeSplits(dur: Durations, s: set<Name>, n: Name)
    requires s <= dur.Keys && n in s
    ensures TotalTime(dur, s) == dur[n] + TotalTime(dur, s - {n})
    decreases s
  {
    var p := Pick(s);
    if n != p {
      TotalTimeSplits(dur, s - {p}, n);
      TotalTimeSplits(dur, s - {n}, p);
      assert s - {p} - {n} == s - {n} - {p};
    }
  }

  /** The total load exists, and its size is the sum of the durations. */
  lemma {:induction false} LoadOf(dur: Durations, s: set<Name>) returns (load: Load)
    requires s <= dur.Keys
    ensures forall n :: load[n] == if n in s then dur[n] else 0
    ensures |load| == TotalTime(dur, s)
    decreases s
  {
    if s == {} {
      load := multiset{};
    } else {
      var p := Pick(s);
      var rest := LoadOf(dur, s - {p});
      load := rest[p := dur[p]];
    }
  }

  /** k added up n times. */
  ghost function Times(k: nat, n: nat): nat {
    if n == 0 then 0 else Times(k, n - 1) + k
  }

  lemma {:induction false} TimesIsProduct(k: nat, n: nat)
    ensures Times(k, n) == k * n
  {
    if n > 0 {
      TimesIsProduct(k, n - 1);
    }
  }

  lemma {:induction false} TimesMonotone(k: nat, a: nat, b: nat)
    requires a <= b
    ensures Times(k, a) <= Times(k, b)
  {
    if a < b {
      TimesMonotone(k, a, b - 1);
    }
  }

  /** Who ran and who was left waiting for a slot during one time unit. */
  datatype Instant = Instant(running: set<Name>, ready: set<Name>)

  /** The schedule so far, measured: the instants that passed, those of them with a free slot,
      the unfinished actions and their outstanding work. */
  datatype Meter = Meter(clock: nat, idle: nat, unfinished: set<Name>, load: Load)

  /** A problem instance: priorities, total work and critical path belong to graph and durations. */
  datatype Instance = Instance(g: Graph, dur: Durations, slots: nat, score: map<Name, nat>, work: nat, critical: nat)
  {
    ghost predicate Valid() {
      slots >= 1 && Closed(g) && Timed(g, dur) && IsScore(g, dur, score)
    }
  }

  /** What is left of the longest chain that starts at n: its priority minus the time spent on n. */
  ghost function Tail(inst: Instance, load: Load, n: Name): int
    requires n in inst.dur && n in inst.score
  {
    var s: int := inst.score[n];
    s - inst.dur[n] + load[n]
  }

  ghost predicate TailAtMost(inst: Instance, load: Load, n: Name, bound: int) {
    n in inst.g && n in inst.dur && n in inst.score && Tail(inst, load, n) <= bound
  }

  ghost predicate TailAtLeast(inst: Instance, load: Load, n: Name, bound: int) {
    n in inst.g && n in inst.dur && n in inst.score && Tail(inst, load, n) >= bound
  }

  ghost predicate Accounts(inst: Instance, m: Meter)
    requires inst.Valid()
  {
    && m.idle <= inst.critical
    && Times(inst.slots, m.clock) + |m.load| <= inst.work + Times(inst.slots - 1, m.idle)
    && inst.work <= Times(inst.slots, m.clock) + |m.load|
    && (forall n :: n in m.unfinished ==> TailAtMost(inst, m.load, n, inst.critical - m.idle))
    && (m.clock >= inst.critical
        || exists n :: n in m.unfinished && TailAtLeast(inst, m.load, n, inst.critical - m.clock))
  }

  /** The critical path is as long as the largest score. */
  ghost predicate IsCriticalPath(g: Graph, score: map<Name, nat>, critical: nat) {
    && (forall n :: n in g && n in score ==> score[n] <= critical)
    && (critical == 0 || exists n :: n in g && n in score && score[n] == critical)
  }

  /** Every running action gets one time unit. */
  ghost function Tick(m: Meter, running: set<Name>, full: bool): Meter {
    Meter(m.clock + 1, if full then m.idle else m.idle + 1, m.unfinished, m.load - multiset(running))
  }

  ghost predicate CanTick(m: Meter, running: set<Name>) {
    running <= m.unfinished && running != {} && forall n :: n in m.unfinished ==> m.load[n] > 0
  }

  /** A time unit in which every slot is busy. */
  lemma {:induction false} FullTick(inst: Instance, m: Meter, running: set<Name>)
    requires inst.Valid() && Accounts(inst, m) && CanTick(m, running) && |running| == inst.slots
    ensures Accounts(inst, Tick(m, running, true))
  {
    forall n | n in m.unfinished
      ensures TailAtMost(inst, Tick(m, running, true).load, n, inst.critical - m.idle)
    {
      assert TailAtMost(inst, m.load, n, inst.critical - m.idle);
    }
  }

  /** Unfinished actions that are not running wait for unfinished dependencies. */
  ghost predicate AllBlocked(g: Graph, unfinished: set<Name>, running: set<Name>) {
    forall n :: n in unfinished && n !in running ==> exists d :: d in unfinished && Edge(g, n, d)
  }

  lemma {:induction false} IdleTickTails(inst: Instance, m: Meter, running: set<Name>)
    requires inst.Valid() && Accounts(inst, m) && CanTick(m, running) && |running| <= inst.slots
    requires AllBlocked(inst.g, m.unfinished, running)
    requires forall n :: n in m.unfinished && n !in running ==> n in inst.dur && m.load[n] <= inst.dur[n]
    ensures forall n :: n in m.unfinished ==>
              TailAtMost(inst, Tick(m, running, false).load, n, inst.critical - (m.idle + 1))
  {
    forall n | n in m.unfinished
      ensures TailAtMost(inst, Tick(m, running, false).load, n, inst.critical - (m.idle + 1))
    {
      assert TailAtMost(inst, m.load, n, inst.critical - m.idle);
      if n !in running {
        var d :| d in m.unfinished && Edge(inst.g, n, d);
        TailBehind(inst, m, n, d);
      }
    }
  }

  /** With a free slot nothing is ready, so every unfinished action that is not running waits
      behind a longer tail: all tails shrink together. */
  lemma {:induction false} IdleTick(inst: Instance, m: Meter, running: set<Name>)
    requires inst.Valid() && Accounts(inst, m) && CanTick(m, running) && |running| <= inst.slots
    requires AllBlocked(inst.g, m.unfinished, running)
    requires forall n :: n in m.unfinished && n !in running ==> n in inst.dur && m.load[n] <= inst.dur[n]
    ensures Accounts(inst, Tick(m, running, false))
  {
    IdleTickTails(inst, m, running);
    var x :| x in running;
    assert |running| >= 1;
    assert TailAtMost(inst, m.load, x, inst.critical - m.idle);
    assert ScoreAt(inst.g, inst.dur, inst.score, x);
    ScoreCoversOwnTime(inst, x);
  }

  lemma {:induction false} ScoreCoversOwnTime(inst: Instance, n: Name)
    requires inst.Valid() && n in inst.g && n in inst.score
    ensures inst.score[n] >= inst.dur[n]
  {
    assert ScoreAt(inst.g, inst.dur, inst.score, n);
  }

  lemma {:induction false} TailBehind(inst: Instance, m: Meter, n: Name, d: Name)
    requires inst.Valid() && Accounts(inst, m)
    requires n in m.unfinished && d in m.unfinished && Edge(inst.g, n, d)
    requires n in inst.dur && m.load[n] <= inst.dur[n] && m.load[d] > 0
    ensures TailAtMost(inst, m.load, n, inst.critical - m.idle - 1)
  {
    assert TailAtMost(inst, m.load, n, inst.critical - m.idle);
    assert TailAtMost(inst, m.load, d, inst.critical - m.idle);
    assert ScoreAt(inst.g, inst.dur, inst.score, d) && n in Users(inst.g, d);
  }

  /** Collecting an action whose time is up. */
  lemma {:induction false} FinishKeepsAccounts(inst: Instance, m: Meter, n: Name)
    requires inst.Valid() && Accounts(inst, m)
    requires n in m.unfinished && m.load[n] == 0
    requires forall p :: p in Users(inst.g, n) ==> p in m.unfinished && p in inst.dur && m.load[p] == inst.dur[p]
    ensures Accounts(inst, m.(unfinished := m.unfinished - {n}))
  {
    if m.clock < inst.critical {
      var w :| w in m.unfinished && TailAtLeast(inst, m.load, w, inst.critical - m.clock);
      if w == n {
        assert ScoreAt(inst.g, inst.dur, inst.score, n);
        var p :| p in Users(inst.g, n) && p in inst.score && inst.score[n] == inst.dur[n] + inst.score[p];
        assert p in m.unfinished - {n} && TailAtLeast(inst, m.load, p, inst.critical - m.clock);
      } else {
        assert w in m.unfinished - {n};
      }
    }
  }

  lemma {:induction false} StartAccounts(inst: Instance, load: Load)
    requires inst.Valid() && IsTotalLoad(inst.g, inst.dur, load) && inst.work == |load|
    requires IsCriticalPath(inst.g, inst.score, inst.critical)
    ensures Accounts(inst, Meter(0, 0, inst.g.Keys, load))
  {
    forall n | n in inst.g
      ensures n in inst.score
    {
      assert ScoreAt(inst.g, inst.dur, inst.score, n);
    }
    if inst.critical > 0 {
      var n :| n in inst.g && n in inst.score && inst.score[n] == inst.critical;
      assert TailAtLeast(inst, load, n, inst.critical);
    }
  }

  // ------------------------------------------------------- clock and ledger

  /** The meter agrees with the ledger and the finish times. */
  ghost predicate MeterOk(inst: Instance, l: Ledger, finish: map<Name, nat>, m: Meter)
    requires inst.Valid()
  {
    && l.running <= finish.Keys && l.running <= m.unfinished
    && m.unfinished == inst.g.Keys - l.completed
    && (forall n :: n in l.running ==> finish[n] == m.clock + m.load[n])
    && (forall n :: n in m.unfinished && n !in l.running ==> m.load[n] == inst.dur[n])
    && (forall n :: n !in m.unfinished ==> m.load[n] == 0)
    && Accounts(inst, m)
  }

  lemma {:induction false} LaunchKeepsMeter(inst: Instance, l: Ledger, finish: map<Name, nat>, m: Meter, n: Name)
    requires inst.Valid() && LedgerInv(inst.g, l) && n in l.ready && MeterOk(inst, l, finish, m)
    ensures MeterOk(inst, l.(ready := l.ready - {n}, running := l.running + {n}), finish[n := m.clock + inst.dur[n]], m)
  {
    assert n in m.unfinished;
  }

  /** Whatever is unfinished and neither ready nor running has an unfinished dependency. */
  lemma {:induction false} NobodyReady(g: Graph, l: Ledger)
    requires Closed(g) && LedgerInv(g, l) && l.failed == {} && l.ready == {}
    ensures AllBlocked(g, g.Keys - l.completed, l.running)
  {
    forall n | n in g.Keys - l.completed && n !in l.running
      ensures exists d :: d in g.Keys - l.completed && Edge(g, n, d)
    {
      assert NodeOk(g, l, n);
      var d :| d in Deps(g, n) && d !in l.completed;
      assert Edge(g, n, d);
    }
  }

  /** One time unit passes while the loop waits for a future. */
  lemma {:induction false} MeterTick(inst: Instance, l: Ledger, finish: map<Name, nat>, m: Meter) returns (m': Meter)
    requires inst.Valid() && MeterOk(inst, l, finish, m)
    requires l.running != {} && forall n :: n in l.running ==> finish[n] > m.clock
    requires |l.running| == inst.slots || (|l.running| <= inst.slots && AllBlocked(inst.g, m.unfinished, l.running))
    ensures MeterOk(inst, l, finish, m') && m'.clock == m.clock + 1 && m'.unfinished == m.unfinished
  {
    assert CanTick(m, l.running);
    m' := Tick(m, l.running, |l.running| == inst.slots);
    if |l.running| == inst.slots {
      FullTick(inst, m, l.running);
    } else {
      IdleTick(inst, m, l.running);
    }
  }

  /** The users of a running action are unfinished and not running. */
  lemma {:induction false} UsersUnstarted(g: Graph, l: Ledger, n: Name)
    requires LedgerInv(g, l) && n in l.running
    ensures forall p :: p in Users(g, n) ==> p in g && p !in l.Started()
  {
    forall p | p in Users(g, n)
      ensures p in g && p !in l.Started()
    {
      assert n in Deps(g, p);
      assert NodeOk(g, l, p);
    }
  }

  lemma {:induction false} CollectKeepsMeter(inst: Instance, l: Ledger, finish: map<Name, nat>, m: Meter, n: Name,
                                             k: Ledger,
                                             m': Meter)
    requires inst.Valid() && MeterOk(inst, l, finish, m)
    requires n in l.running && finish[n] == m.clock
    requires forall p :: p in Users(inst.g, n) ==> p in inst.g && p !in l.Started()
    requires k.running == l.running - {n} && k.completed == l.completed + {n}
    requires m' == m.(unfinished := m.unfinished - {n})
    ensures MeterOk(inst, k, finish, m')
  {
    FinishKeepsAccounts(inst, m, n);
    assert m'.unfinished == inst.g.Keys - k.completed;
  }

  /** Graham's bound, with its two trivial companions. */
  ghost predicate WithinBounds(slots: nat, work: nat, critical: nat, makespan: nat) {
    && makespan >= critical
    && slots * makespan >= work
    && slots * makespan <= work + (slots - 1) * critical
  }

  lemma {:induction false} EverythingCompleted(g: Graph, rank: Rank, l: Ledger)
    requires Closed(g) && Ranked(g, rank) && LedgerInv(g, l) && l.failed == {}
    requires l.ready == {} && l.running == {}
    ensures g.Keys - l.completed == {}
  {
    forall n | n in g
      ensures n in l.completed
    {
      QuietMeansBlocked(g, rank, l, n);
    }
  }

  lemma {:induction false} BoundsAtEnd(inst: Instance, rank: Rank, l: Ledger, finish: map<Name, nat>, m: Meter)
    requires inst.Valid() && Ranked(inst.g, rank) && NoFailures(inst.g, inst.slots, l) && MeterOk(inst, l, finish, m)
    requires l.ready == {} && l.running == {}
    ensures WithinBounds(inst.slots, inst.work, inst.critical, m.clock)
  {
    EverythingCompleted(inst.g, rank, l);
    assert m.load == multiset{};
    TimesIsProduct(inst.slots, m.clock);
    TimesIsProduct(inst.slots - 1, inst.critical);
    TimesMonotone(inst.slots - 1, m.idle, inst.critical);
  }

  /** Running actions whose time is up. */
  function Expired(running: set<Name>, finish: map<Name, nat>, clock: nat): set<Name> {
    set n | n in running && n in finish && finish[n] <= clock
  }

  lemma {:induction false} NothingExpired(running: set<Name>, finish: map<Name, nat>, clock: nat)
    requires Expired(running, finish, clock) == {} && running <= finish.Keys
    ensures forall n :: n in running ==> finish[n] > clock
  {
    forall n | n in running
      ensures finish[n] > clock
    {
      assert n !in Expired(running, finish, clock);
    }
  }

  ghost predicate WorkConserving(slots: nat, profile: seq<Instant>) {
    forall t :: 0 <= t < |profile| ==> |profile[t].running| == slots || profile[t].ready == {}
  }

  ghost predicate NoFailures(g: Graph, slots: nat, l: Ledger) {
    LedgerInv(g, l) && l.failed == {} && |l.running| <= slots
  }

  /** The loop of execute_plan against a clock.  Any ready action of highest priority may be
      launched and any non-empty set of finished ones may be collected, in any order. */
  method GreedyRun(g: Graph, slots: nat, policy: Policy, dur: Durations,
                   ghost rank: Rank, ghost score: map<Name, nat>, ghost critical: nat)
    returns (makespan: nat, profile: seq<Instant>)
    requires slots >= 1 && Closed(g) && Ranked(g, rank) && Timed(g, dur)
    requires IsScore(g, dur, score) && IsCriticalPath(g, score, critical)
    ensures WithinBounds(slots, TotalTime(dur, g.Keys), critical, makespan)
    ensures |profile| == makespan && WorkConserving(slots, profile)
  {
    ghost var total := LoadOf(dur, g.Keys);
    ghost var inst := Instance(g, dur, slots, score, |total|, critical);
    ghost var m := Meter(0, 0, g.Keys, total);
    StartAccounts(inst, total);
    var l := InitialLedger(g);
    var finish: map<Name, nat> := map[];
    makespan, profile := 0, [];
    while l.ready != {} || l.running != {}
      invariant NoFailures(g, slots, l) && MeterOk(inst, l, finish, m)
      invariant m.clock == makespan == |profile| && WorkConserving(slots, profile)
      decreases g.Keys - l.completed
    {
      l, finish, makespan, profile, m := TimedRound(g, slots, policy, dur, l, finish, makespan, profile, inst, m);
    }
    BoundsAtEnd(inst, rank, l, finish, m);
  }

  method TimedRound(g: Graph, slots: nat, policy: Policy, dur: Durations, l0: Ledger, finish0: map<Name, nat>,
                    clock0: nat,
                    profile0: seq<Instant>, ghost inst: Instance, ghost m0: Meter)
    returns (l: Ledger, finish: map<Name, nat>, clock: nat, profile: seq<Instant>, ghost m: Meter)
    requires inst.Valid() && inst.g == g && inst.dur == dur && inst.slots == slots
    requires NoFailures(g, slots, l0) && (l0.ready != {} || l0.running != {}) && MeterOk(inst, l0, finish0, m0)
    requires m0.clock == clock0 == |profile0| && WorkConserving(slots, profile0)
    ensures NoFailures(g, slots, l) && MeterOk(inst, l, finish, m)
    ensures m.clock == clock == |profile| && WorkConserving(slots, profile)
    ensures g.Keys - l.completed < g.Keys - l0.completed
  {
    l, finish := LaunchAll(g, slots, policy, dur, l0, finish0, clock0, inst, m0);
    if l.ready == {} {
      NobodyReady(g, l);
    }
    clock, profile, m := Wait(slots, l.running, l.ready, finish, clock0, profile0, inst, l, m0);
    var done :| done <= Expired(l.running, finish, clock) && done != {};
    l, m := CollectAll(g, slots, l, finish, clock, done, inst, m);
  }

  method LaunchAll(g: Graph, slots: nat, policy: Policy, dur: Durations, l0: Ledger, finish0: map<Name, nat>,
                   clock: nat,
                   ghost inst: Instance, ghost m: Meter)
    returns (l: Ledger, finish: map<Name, nat>)
    requires inst.Valid() && inst.g == g && inst.dur == dur && inst.slots == slots
    requires NoFailures(g, slots, l0) && (l0.ready != {} || l0.running != {})
    requires MeterOk(inst, l0, finish0, m) && m.clock == clock
    ensures NoFailures(g, slots, l) && MeterOk(inst, l, finish, m)
    ensures l.completed == l0.completed && l.running != {}
    ensures l.ready == {} || |l.running| == slots
  {
    l, finish := l0, finish0;
    while l.ready != {} && |l.running| < slots
      invariant NoFailures(g, slots, l) && MeterOk(inst, l, finish, m) && (l.ready != {} || l.running != {})
      invariant l.completed == l0.completed
      decreases l.ready
    {
      l, finish := LaunchOne(policy, dur, l, finish, clock, inst, m);
    }
  }

  method LaunchOne(policy: Policy, dur: Durations, l0: Ledger, finish0: map<Name, nat>, clock: nat,
                   ghost inst: Instance, ghost m: Meter)
    returns (l: Ledger, finish: map<Name, nat>)
    requires inst.Valid() && inst.dur == dur && NoFailures(inst.g, inst.slots, l0) && MeterOk(inst, l0, finish0, m)
    requires l0.ready != {} && |l0.running| < inst.slots && m.clock == clock
    ensures NoFailures(inst.g, inst.slots, l) && MeterOk(inst, l, finish, m)
    ensures l.completed == l0.completed && l.running != {} && l.ready < l0.ready
  {
    var n := PopReady(policy, l0.ready);
    LaunchTimed(inst, l0, finish0, m, n);
    finish := finish0[n := clock + dur[n]];
    l := l0.(ready := l0.ready - {n}, running := l0.running + {n});
  }

  lemma {:induction false} LaunchTimed(inst: Instance, l: Ledger, finish: map<Name, nat>, m: Meter, n: Name)
    requires inst.Valid() && NoFailures(inst.g, inst.slots, l) && MeterOk(inst, l, finish, m)
    requires n in l.ready && |l.running| < inst.slots
    ensures NoFailures(inst.g, inst.slots, l.(ready := l.ready - {n}, running := l.running + {n}))
    ensures MeterOk(inst, l.(ready := l.ready - {n}, running := l.running + {n}), finish[n := m.clock + inst.dur[n]], m)
  {
    LaunchKeepsInv(inst.g, l, n);
    LaunchKeepsMeter(inst, l, finish, m, n);
  }

  /** Time passes, unit by unit, until some running action has finished. */
  method Wait(slots: nat, running: set<Name>, ready: set<Name>, finish: map<Name, nat>, clock0: nat,
              profile0: seq<Instant>,
              ghost inst: Instance, ghost l: Ledger, ghost m0: Meter)
    returns (clock: nat, profile: seq<Instant>, ghost m: Meter)
    requires inst.Valid() && inst.slots == slots && MeterOk(inst, l, finish, m0)
    requires l.running == running != {} && (ready == {} || |running| == slots)
    requires |running| == slots || (|running| <= slots && AllBlocked(inst.g, m0.unfinished, running))
    requires m0.clock == clock0 == |profile0| && WorkConserving(slots, profile0)
    ensures MeterOk(inst, l, finish, m)
    ensures Expired(running, finish, clock) != {}
    ensures m.clock == clock == |profile| && WorkConserving(slots, profile)
  {
    clock, profile, m := clock0, profile0, m0;
    ghost var x :| x in running;
    while Expired(running, finish, clock) == {}
      invariant MeterOk(inst, l, finish, m) && m.unfinished == m0.unfinished
      invariant m.clock == clock == |profile| && WorkConserving(slots, profile)
      decreases finish[x] - clock
    {
      NothingExpired(running, finish, clock);
      m := MeterTick(inst, l, finish, m);
      clock := clock + 1;
      profile := profile + [Instant(running, ready)];
    }
  }

  method CollectAll(g: Graph, slots: nat, l0: Ledger, finish: map<Name, nat>, clock: nat, done0: set<Name>,
                    ghost inst: Instance, ghost m0: Meter)
    returns (l: Ledger, ghost m: Meter)
    requires inst.Valid() && inst.g == g && NoFailures(g, slots, l0)
    requires MeterOk(inst, l0, finish, m0) && m0.clock == clock
    requires done0 <= Expired(l0.running, finish, clock) && done0 != {}
    ensures NoFailures(g, slots, l) && MeterOk(inst, l, finish, m) && m.clock == clock
    ensures g.Keys - l.completed < g.Keys - l0.completed
  {
    l, m := l0, m0;
    ghost var first :| first in done0;
    var done := done0;
    while done != {}
      invariant NoFailures(g, slots, l) && MeterOk(inst, l, finish, m) && m.clock == clock
      invariant done <= Expired(l.running, finish, clock) && l0.completed <= l.completed
      invariant first in done || first in l.completed
      decreases done
    {
      var n :| n in done;
      done := done - {n};
      l, m := CollectTimed(g, slots, l, finish, clock, n, inst, m);
    }
  }

  method CollectTimed(g: Graph, slots: nat, l0: Ledger, finish: map<Name, nat>, clock: nat, n: Name,
                      ghost inst: Instance, ghost m0: Meter)
    returns (l: Ledger, ghost m: Meter)
    requires inst.Valid() && inst.g == g && NoFailures(g, slots, l0)
    requires MeterOk(inst, l0, finish, m0) && m0.clock == clock && n in Expired(l0.running, finish, clock)
    ensures NoFailures(g, slots, l) && MeterOk(inst, l, finish, m) && m.clock == clock
    ensures l.running == l0.running - {n} && l.completed == l0.completed + {n}
  {
    l := CompleteInTime(g, slots, l0, n);
    m := m0.(unfinished := m0.unfinished - {n});
    CollectKeepsMeter(inst, l0, finish, m0, n, l, m);
  }

  method CompleteInTime(g: Graph, slots: nat, l0: Ledger, n: Name) returns (l: Ledger)
    requires NoFailures(g, slots, l0) && n in l0.running
    ensures NoFailures(g, slots, l)
    ensures l.running == l0.running - {n} && l.completed == l0.completed + {n}
    ensures forall p :: p in Users(g, n) ==> p in g && p !in l0.Started()
  {
    UsersUnstarted(g, l0, n);
    l := Complete(g, l0, n);
    SubsetSize(l.running, l0.running);
  }
}
