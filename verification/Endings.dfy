/** What the end of execute_plan is a function of: the sources, the files and the selection decide
    who completes, who fails, who is skipped and what is written, whatever the schedule. */
module Endings {
  import opened Digraph
  import opened Planner
  import opened Scheduler
  import opened Executor

  // ------------------------------------------------------------ clean outputs

  /** Whatever is read below n from outside the selection is a clean output. */
  ghost predicate Grounded(r: Recipe, rank: Rank, selected: set<Name>, files: Files, n: Name)
    requires Buildable(r.ws, rank) && n in r.ws.targets
    decreases rank[n]
  {
    forall d :: Edge(DepGraph(r.ws), n, d) ==>
      if d in selected then Grounded(r, rank, selected, files, d) else HasClean(r, rank, files, files, d)
  }

  /** Then a run gives n its clean output. */
  lemma {:induction false} GroundedIsClean(r: Recipe, rank: Rank, selected: set<Name>, files: Files, n: Name)
    requires Buildable(r.ws, rank) && n in r.ws.targets && Grounded(r, rank, selected, files, n)
    ensures Made(r, rank, selected, files, n) == Clean(r, rank, files, n)
    decreases rank[n], |r.ws.targets[n].deps| + 1
  {
    GroundedDepsAreClean(r, rank, selected, files, n, |r.ws.targets[n].deps|);
  }

  lemma {:induction false} GroundedDepsAreClean(r: Recipe, rank: Rank, selected: set<Name>, files: Files, n: Name,
                                                k: nat)
    requires Buildable(r.ws, rank) && n in r.ws.targets && Grounded(r, rank, selected, files, n)
    requires k <= |r.ws.targets[n].deps|
    ensures MadeDeps(r, rank, selected, files, n, k) == CleanDeps(r, rank, files, n, k)
    decreases rank[n], k
  {
    if k > 0 {
      var d := r.ws.targets[n].deps[k - 1];
      assert Edge(DepGraph(r.ws), n, d);
      GroundedDepsAreClean(r, rank, selected, files, n, k - 1);
      if d in selected {
        GroundedIsClean(r, rank, selected, files, d);
      }
    }
  }

  /** Dependencies outside the selection already have their clean outputs. */
  ghost predicate Supplied(r: Recipe, rank: Rank, files: Files, selected: set<Name>)
    requires Buildable(r.ws, rank)
  {
    forall n, d :: n in selected && Edge(DepGraph(r.ws), n, d) && d !in selected ==> HasClean(r, rank, files, files, d)
  }

  lemma {:induction false} SuppliedIsGrounded(r: Recipe, rank: Rank, selected: set<Name>, files: Files, n: Name)
    requires Buildable(r.ws, rank) && Supplied(r, rank, files, selected) && n in selected && n in r.ws.targets
    ensures Grounded(r, rank, selected, files, n)
    decreases rank[n]
  {
    forall d | Edge(DepGraph(r.ws), n, d)
      ensures if d in selected then Grounded(r, rank, selected, files, d) else HasClean(r, rank, files, files, d)
    {
      if d in selected {
        SuppliedIsGrounded(r, rank, selected, files, d);
      }
    }
  }

  /** The end of n when what it reads is clean. */
  ghost predicate EndsClean(job: Job, rank: Rank, files: Files, log: seq<Event>, n: Name)
    requires Buildable(job.recipe.ws, rank) && n in job.recipe.ws.targets
  {
    var clean := HasClean(job.recipe, rank, job.before, files, n);
    && (n in FinishedIn(log, true) ==> clean && !Fails(job.recipe, job.before, n))
    && (n in FinishedIn(log, false) ==> Fails(job.recipe, job.before, n))
    && (n !in StartedIn(log) ==> Untouched(job.recipe.ws, job.before, files, n))
    && (Fails(job.recipe, job.before, n) ==> Untouched(job.recipe.ws, job.before, files, n))
    && (Untouched(job.recipe.ws, job.before, files, n) || clean)
  }

  lemma {:induction false} GroundedEnds(job: Job, rank: Rank, files: Files, log: seq<Event>, n: Name)
    requires Buildable(job.recipe.ws, rank) && n in job.recipe.ws.targets
    requires EndsAs(job, rank, files, log, n)
    requires n in StartedIn(log) ==> Grounded(job.recipe, rank, job.selected, job.before, n)
    requires FinishedIn(log, true) <= StartedIn(log)
    ensures EndsClean(job, rank, files, log, n)
  {
    if n in StartedIn(log) {
      GroundedIsClean(job.recipe, rank, job.selected, job.before, n);
    }
  }

  /** From a sound start whose outside dependencies are clean, every completed output is clean. */
  lemma {:induction false} SuppliedEnds(job: Job, rank: Rank, scope: set<Name>, res: RunResult, files: Files,
                                        log: seq<Event>)
    requires Sound(job.recipe, rank, scope, job.before, job.selected)
    requires Supplied(job.recipe, rank, job.before, job.selected)
    requires Outcome(job, rank, scope, res, files, log)
    ensures forall n :: n in scope ==> EndsClean(job, rank, files, log, n)
  {
    forall n | n in scope
      ensures EndsClean(job, rank, files, log, n)
    {
      FinishedAreStarted(job.Graph(), job.slots, log);
      if n in job.selected {
        SuppliedIsGrounded(job.recipe, rank, job.selected, job.before, n);
      }
      GroundedEnds(job, rank, files, log, n);
    }
  }

  lemma {:induction false} FinishedAreStarted(g: Graph, slots: nat, log: seq<Event>)
    requires GoodLog(g, slots, log)
    ensures FinishedIn(log, true) <= StartedIn(log) && FinishedIn(log, false) <= StartedIn(log)
  {
    forall ok, n | n in FinishedIn(log, ok)
      ensures n in StartedIn(log)
    {
      FinishedWasStarted(g, slots, log, ok, n);
    }
  }

  // ------------------------------------------------------------ who fails

  /** Some selected target at or below n asks for failure. */
  ghost predicate Doomed(job: Job, n: Name) {
    exists m :: AsksBelow(job, n, m)
  }

  ghost predicate AsksBelow(job: Job, n: Name, m: Name) {
    m in job.selected && m in job.recipe.ws.targets && Fails(job.recipe, job.before, m) && Reaches(job.Graph(), n, m)
  }

  /** Nothing that was started is doomed, unless it asks for failure itself. */
  lemma {:induction false} StartedIsNotDoomed(job: Job, rank: Rank, scope: set<Name>, res: RunResult, files: Files,
                                              log: seq<Event>, n: Name, m: Name)
    requires Sound(job.recipe, rank, scope, job.before, job.selected) && Outcome(job, rank, scope, res, files, log)
    requires n in StartedIn(log) && m != n
    ensures !AsksBelow(job, n, m)
  {
    if AsksBelow(job, n, m) {
      StartedMeansBelowCompleted(job.Graph(), job.slots, log, n, m);
    }
  }

  /** The failed and the skipped of a finished run, before it is run. */
  lemma {:induction false} DoomedExactly(job: Job, rank: Rank, scope: set<Name>, res: RunResult, files: Files,
                                         log: seq<Event>,
                                         n: Name)
    requires Sound(job.recipe, rank, scope, job.before, job.selected) && Outcome(job, rank, scope, res, files, log)
    requires res.Finished?
    ensures n in res.failed + res.skipped <==> n in job.selected && Doomed(job, n)
    ensures n in res.failed <==> n in job.selected && Doomed(job, n) && forall m :: AsksBelow(job, n, m) ==> m == n
  {
    var g := job.Graph();
    if n in res.failed {
      assert EndsAs(job, rank, files, log, n);
      ReachesSelf(g, n);
      assert AsksBelow(job, n, n);
    } else if n in res.skipped {
      var f :| f in res.failed && Reaches(g, n, f);
      assert EndsAs(job, rank, files, log, f);
      assert AsksBelow(job, n, f) && f != n;
    }
    forall m | n in res.completed + res.failed && AsksBelow(job, n, m)
      ensures m == n && n in res.failed
    {
      if m != n {
        StartedIsNotDoomed(job, rank, scope, res, files, log, n, m);
      }
      assert EndsAs(job, rank, files, log, n);
    }
  }

  lemma {:induction false} EndOf(job: Job, rank: Rank, scope: set<Name>, res: RunResult, files: Files, log: seq<Event>)
    requires Sound(job.recipe, rank, scope, job.before, job.selected) && Outcome(job, rank, scope, res, files, log)
    ensures res.Finished? || res.Aborted?
  {
    InducedRanked(DepGraph(job.recipe.ws), job.selected, rank);
    RankedIsAcyclic(job.Graph(), rank);
  }

  /** The run may not go on after a failure, and some selected target asks for one. */
  ghost predicate GivesUp(job: Job) {
    !job.keepGoing && exists m :: m in job.selected && m in job.recipe.ws.targets && Fails(job.recipe, job.before, m)
  }

  /** Just then a run is cut short. */
  lemma {:induction false} AbortsExactly(job: Job, rank: Rank, scope: set<Name>, res: RunResult, files: Files,
                                         log: seq<Event>)
    requires Sound(job.recipe, rank, scope, job.before, job.selected) && Outcome(job, rank, scope, res, files, log)
    ensures res.Aborted? <==> GivesUp(job)
  {
    EndOf(job, rank, scope, res, files, log);
    if res.Aborted? {
      FinishedAreStarted(job.Graph(), job.slots, log);
      assert EndsAs(job, rank, files, log, res.failing);
    } else if !job.keepGoing {
      forall m | m in job.selected
        ensures !Fails(job.recipe, job.before, m)
      {
        assert EndsAs(job, rank, files, log, m);
      }
    }
  }

  /** However it ends, a run writes only what is not doomed. */
  lemma {:induction false} DoomedIsUntouched(job: Job, rank: Rank, scope: set<Name>, res: RunResult, files: Files,
                                             log: seq<Event>, n: Name)
    requires Sound(job.recipe, rank, scope, job.before, job.selected) && Outcome(job, rank, scope, res, files, log)
    requires n in scope && (n !in job.selected || Doomed(job, n))
    ensures Untouched(job.recipe.ws, job.before, files, n)
  {
    assert EndsAs(job, rank, files, log, n);
    if n in job.selected {
      var m :| AsksBelow(job, n, m);
      if n in StartedIn(log) && m != n {
        StartedIsNotDoomed(job, rank, scope, res, files, log, n, m);
      }
    }
  }

  // ------------------------------------------------ the schedule does not matter

  /** Two keep-going runs of one sound job, on any numbers of slots, under any policies and in any
      interleavings, end with the same sets and the same disk. */
  lemma {:induction false} ScheduleIndependent(a: Job, b: Job, rank: Rank, scope: set<Name>, resA: RunResult,
                                               resB: RunResult,
                                               filesA: Files, filesB: Files, logA: seq<Event>, logB: seq<Event>)
    requires b == a.(slots := b.slots, keepGoing := b.keepGoing, policy := b.policy)
    requires Sound(a.recipe, rank, scope, a.before, a.selected)
    requires Outcome(a, rank, scope, resA, filesA, logA) && Outcome(b, rank, scope, resB, filesB, logB)
    requires resA.Finished? && resB.Finished?
    ensures resA == resB && filesA == filesB
  {
    ResultsAlike(a, b, rank, scope, resA, resB, filesA, filesB, logA, logB);
    forall p: Path
      ensures p in filesA.Keys <==> p in filesB.Keys
      ensures p in filesA ==> p in filesB && filesA[p] == filesB[p]
    {
      FilesAlike(a, b, rank, scope, resA, filesA, filesB, logA, logB, p);
    }
    assert filesA.Keys == filesB.Keys;
  }

  lemma {:induction false} ResultsAlike(a: Job, b: Job, rank: Rank, scope: set<Name>, resA: RunResult, resB: RunResult,
                                        filesA: Files, filesB: Files, logA: seq<Event>, logB: seq<Event>)
    requires b == a.(slots := b.slots, keepGoing := b.keepGoing, policy := b.policy)
    requires Sound(a.recipe, rank, scope, a.before, a.selected)
    requires Outcome(a, rank, scope, resA, filesA, logA) && Outcome(b, rank, scope, resB, filesB, logB)
    requires resA.Finished? && resB.Finished?
    ensures resA == resB
  {
    forall n
      ensures n in resA.failed <==> n in resB.failed
    {
      DoomedExactly(a, rank, scope, resA, filesA, logA, n);
      DoomedExactly(b, rank, scope, resB, filesB, logB, n);
      SameDoom(a, b, n);
    }
    SettledAlike(a, b, logA, logB, resA, resB);
  }

  lemma {:induction false} SameDoom(a: Job, b: Job, n: Name)
    requires b == a.(slots := b.slots, keepGoing := b.keepGoing, policy := b.policy)
    ensures Doomed(a, n) == Doomed(b, n) && forall m :: AsksBelow(a, n, m) == AsksBelow(b, n, m)
  {
    forall m
      ensures AsksBelow(a, n, m) == AsksBelow(b, n, m)
    {
    }
  }

  lemma {:induction false} SettledAlike(a: Job, b: Job, logA: seq<Event>, logB: seq<Event>, resA: RunResult,
                                        resB: RunResult)
    requires resA.Finished? && resB.Finished? && resA.failed == resB.failed
    requires a.selected == b.selected && a.Graph() == b.Graph()
    requires Settles(a, logA, resA.completed, resA.failed, resA.skipped)
    requires Settles(b, logB, resB.completed, resB.failed, resB.skipped)
    ensures resA == resB
  {
    assert resA.skipped == resB.skipped;
    assert resA.completed == a.selected - resA.failed - resA.skipped;
  }

  lemma {:induction false} FilesAlike(a: Job, b: Job, rank: Rank, scope: set<Name>, res: RunResult,
                                      filesA: Files, filesB: Files, logA: seq<Event>, logB: seq<Event>, p: Path)
    requires b == a.(slots := b.slots, keepGoing := b.keepGoing, policy := b.policy)
    requires Sound(a.recipe, rank, scope, a.before, a.selected)
    requires Outcome(a, rank, scope, res, filesA, logA) && Outcome(b, rank, scope, res, filesB, logB)
    requires res.Finished?
    ensures SameAt(filesA, filesB, p)
  {
    if IsOutput(a.recipe.ws, a.selected, p) {
      var n :| n in a.selected && n in a.recipe.ws.targets && a.recipe.ws.targets[n].out == p;
      assert EndsAs(a, rank, filesA, logA, n) && EndsAs(b, rank, filesB, logB, n);
    } else {
      assert SameAt(a.before, filesA, p) && SameAt(b.before, filesB, p);
    }
  }

  // ------------------------------------------------------------ what a run may write

  lemma {:induction false} EndsAcyclic(job: Job, rank: Rank)
    requires Buildable(job.recipe.ws, rank) && job.Valid()
    ensures Acyclic(job.Graph()) && job.Graph().Keys == job.selected
  {
    InducedRanked(DepGraph(job.recipe.ws), job.selected, rank);
    RankedIsAcyclic(job.Graph(), rank);
    InducedClosed(DepGraph(job.recipe.ws), job.selected);
  }

  lemma {:induction false} DoomClimbs(job: Job, n: Name, d: Name)
    requires Edge(job.Graph(), n, d) && Doomed(job, d)
    ensures Doomed(job, n)
  {
    var m :| AsksBelow(job, d, m);
    ReachesEdge(job.Graph(), n, d);
    ReachesTransitive(job.Graph(), n, d, m);
    assert AsksBelow(job, n, m);
  }

  /** A doomed target whose dependencies are not doomed asks for failure itself. */
  lemma {:induction false} DoomBottom(job: Job, n: Name)
    requires Doomed(job, n) && n in job.selected && n in job.recipe.ws.targets
    requires forall d :: Edge(job.Graph(), n, d) ==> !Doomed(job, d)
    ensures Fails(job.recipe, job.before, n)
  {
    var m :| AsksBelow(job, n, m);
    if m != n {
      var d := ReachesFirstEdge(job.Graph(), n, m);
      assert AsksBelow(job, d, m);
    }
  }

  /** What a run may write. */
  ghost function Fine(job: Job): set<Name> {
    set n | n in job.selected && !Doomed(job, n)
  }

  lemma {:induction false} FineIsClosed(job: Job, fine: set<Name>)
    requires job.Valid() && fine == Fine(job)
    ensures ClosedUnder(job.Graph(), fine)
    ensures forall n :: n in fine ==> !Fails(job.recipe, job.before, n)
  {
    var g := job.Graph();
    InducedClosed(DepGraph(job.recipe.ws), job.selected);
    forall n, d | n in fine && Edge(g, n, d)
      ensures d in fine
    {
      if Doomed(job, d) {
        DoomClimbs(job, n, d);
      }
    }
    forall n | n in fine
      ensures !Fails(job.recipe, job.before, n)
    {
      ReachesSelf(g, n);
      assert Fails(job.recipe, job.before, n) ==> AsksBelow(job, n, n);
    }
  }

  /** The targets that fail if the run goes on: they ask for it, and all they wait for is fine. */
  ghost function Culprits(job: Job): set<Name> {
    set n | n in job.selected && n in job.recipe.ws.targets && Fails(job.recipe, job.before, n) && OnlyFineBelow(job, n)
  }

  ghost predicate OnlyFineBelow(job: Job, n: Name) {
    forall d :: Edge(job.Graph(), n, d) ==> d in Fine(job)
  }

  /** None of this depends on the number of slots. */
  lemma {:induction false} SameBounds(a: Job, b: Job)
    requires b == a.(slots := b.slots, policy := b.policy)
    ensures Fine(a) == Fine(b) && GivesUp(a) == GivesUp(b) && Culprits(a) == Culprits(b)
  {
    forall n
      ensures Doomed(a, n) == Doomed(b, n)
    {
      SameDoom(a, b, n);
    }
    assert Fine(a) == Fine(b);
    forall n
      ensures OnlyFineBelow(a, n) == OnlyFineBelow(b, n)
    {
    }
  }
}
