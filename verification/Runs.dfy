/** Executions of the scheduling loop that do what they may: one that goes to its end, and one that
    gives up as late as possible.  Both exist whichever ready action of highest priority is taken. */
module Runs {
  import opened Digraph
  import opened Planner
  import opened Scheduler
  import opened Executor
  import opened Endings

  /** The thread may launch or wait, and no action in flight has begun. */
  ghost predicate Idle(s: Loop) {
    s.stage.Filling? && forall n :: n in s.run.tasks ==> s.run.tasks[n].Queued?
  }

  // ----------------------------------------------------------------- one action

  /** One step of a worker that does not tear its output. */
  function Stepped(r: Recipe, n: Name, files: Files, t: Task): (Files, Task)
    requires n in r.ws.targets && Closed(DepGraph(r.ws))
  {
    match t
    case Queued => (files, if Fails(r, files, n) then Raised else Reading(SourceText(r.ws, files, n), []))
    case Reading(text, inputs) =>
      if |inputs| < |r.ws.targets[n].deps| then
        var dep := r.ws.targets[n].deps[|inputs|];
        assert Edge(DepGraph(r.ws), n, dep);
        var out := r.ws.targets[dep].out;
        (files, if out in files then Reading(text, inputs + [files[out]]) else Crashed)
      else (files, Writing(text, inputs, false))
    case Writing(text, inputs, _) => (files[r.ws.targets[n].out := r.emit(n, text, inputs)], Done)
    case _ => (files, t)
  }

  lemma {:induction false} SteppedIsStep(r: Recipe, n: Name, files: Files, t: Task)
    requires n in r.ws.targets && Closed(DepGraph(r.ws))
    ensures TaskStep(r, n, files, t, Stepped(r, n, files, t).0, Stepped(r, n, files, t).1)
    ensures !Settled(t) ==> StepsLeft(r.ws, n, Stepped(r, n, files, t).1) < StepsLeft(r.ws, n, t)
  {
    if t.Reading? && |t.inputs| < |r.ws.targets[n].deps| {
      assert Edge(DepGraph(r.ws), n, r.ws.targets[n].deps[|t.inputs|]);
    }
  }

  /** The worker of n alone goes on until it has settled. */
  lemma {:induction false} WorkOn(job: Job, picks: Picks, s: Loop, n: Name) returns (t: Loop)
    requires job.Valid() && Reachable(job, picks, s) && n in s.run.tasks && n in job.recipe.ws.targets
    ensures Reachable(job, picks, t) && t.stage == s.stage
    ensures n in t.run.tasks && Settled(t.run.tasks[n])
    ensures t.run == s.run.(files := t.run.files, tasks := s.run.tasks[n := t.run.tasks[n]])
    decreases StepsLeft(job.recipe.ws, n, s.run.tasks[n])
  {
    if Settled(s.run.tasks[n]) {
      t := s;
      assert s.run.tasks == s.run.tasks[n := s.run.tasks[n]];
    } else {
      var next := Stepped(job.recipe, n, s.run.files, s.run.tasks[n]);
      SteppedIsStep(job.recipe, n, s.run.files, s.run.tasks[n]);
      var mid := Loop(s.run.(files := next.0, tasks := s.run.tasks[n := next.1]), s.stage);
      ReachOn(job, picks, s, Work(n), mid);
      t := WorkOn(job, picks, mid, n);
      assert s.run.tasks[n := next.1][n := t.run.tasks[n]] == s.run.tasks[n := t.run.tasks[n]];
    }
  }

  /** What one action has come to: it is out of flight, or the thread is leaving over it. */
  ghost predicate Out(job: Job, s: Loop, n: Name, t: Loop) {
    && s.run.ledger.Started() == t.run.ledger.Started() && s.run.ledger.completed <= t.run.ledger.completed
    && (t.stage.Leaving? || (Idle(t) && t.run.ledger.running == s.run.ledger.running - {n}))
    && (n in t.run.ledger.completed || n in t.run.ledger.failed || t.stage == Leaving(MissingDep(n)))
    && t.run.ledger.failed <= s.run.ledger.failed + {n}
    && (t.stage.Leaving? ==> t.stage.res == MissingDep(n) || n in t.run.ledger.failed)
  }

  lemma {:induction false} RunOne(job: Job, picks: Picks, s: Loop, n: Name) returns (t: Loop)
    requires job.Valid() && Reachable(job, picks, s) && Idle(s) && n in s.run.tasks && Full(job, s.run.ledger)
    ensures Reachable(job, picks, t) && Out(job, s, n, t)
  {
    TaskIsSelected(job, picks, s, n);
    var worked := WorkOn(job, picks, s, n);
    var awake := Loop(worked.run, Collecting({n}));
    ReachOn(job, picks, worked, Wake({n}), awake);
    t := TakeOnly(job, picks, s, awake, n);
  }

  lemma {:induction false} TakeOnly(job: Job, picks: Picks, s: Loop, awake: Loop, n: Name) returns (t: Loop)
    requires job.Valid() && Reachable(job, picks, awake) && Idle(s) && awake.stage == Collecting({n})
    requires n in s.run.ledger.running && n in awake.run.tasks && Settled(awake.run.tasks[n])
    requires awake.run == s.run.(files := awake.run.files, tasks := s.run.tasks[n := awake.run.tasks[n]])
    ensures Reachable(job, picks, t) && Out(job, s, n, t)
  {
    var task := awake.run.tasks[n];
    t := Loop(if task.Crashed? then awake.run else Taken(job.Graph(), awake.run, n),
              NextStage(job, n, task, {n} - {n}));
    ReachOn(job, picks, awake, Take(n), t);
    assert t.run.ledger.Started() == s.run.ledger.Started();
  }

  /** What the rule takes is taken. */
  lemma {:induction false} LaunchOne(job: Job, picks: Picks, s: Loop) returns (t: Loop)
    requires job.Valid() && Reachable(job, picks, s) && Idle(s) && !Full(job, s.run.ledger)
    requires Legal(picks, job.policy)
    ensures Reachable(job, picks, t) && Idle(t)
    ensures t.run.ledger.completed == s.run.ledger.completed && t.run.ledger.failed == s.run.ledger.failed
    ensures job.selected - t.run.ledger.Started() < job.selected - s.run.ledger.Started()
  {
    var n := PickOne(job, picks, s);
    t := Loop(Launched(s.run, n), Filling);
    ReachOn(job, picks, s, Launch(n), t);
    ReadyIsNew(job, picks, s, n);
    LaunchStarts(s.run, n);
  }

  lemma {:induction false} PickOne(job: Job, picks: Picks, s: Loop) returns (n: Name)
    requires Legal(picks, job.policy) && s.run.ledger.ready != {}
    ensures IsTop(job.policy, s.run.ledger.ready, n) && Obeys(picks, s, Launch(n))
  {
    match picks {
      case AnyTop => n := HighestPriority(job.policy, s.run.ledger.ready);
      case By(rule) => n := rule(s.run.log, s.run.ledger.ready);
    }
  }

  lemma {:induction false} LaunchStarts(run: Run, n: Name)
    ensures Launched(run, n).ledger.Started() == run.ledger.Started() + {n}
  {
  }

  lemma {:induction false} ReadyIsNew(job: Job, picks: Picks, s: Loop, n: Name)
    requires job.Valid() && Reachable(job, picks, s) && n in s.run.ledger.ready
    ensures n in job.selected - s.run.ledger.Started()
  {
    ReachableInv(job, map[], {}, picks, s);
    InducedClosed(DepGraph(job.recipe.ws), job.selected);
  }

  // ---------------------------------------------------------------- to the end

  /** Shutting the pool down. */
  lemma {:induction false} DrainOut(job: Job, picks: Picks, s: Loop, todo: set<Name>) returns (t: Loop)
    requires job.Valid() && Reachable(job, picks, s) && todo <= s.run.tasks.Keys
    requires forall n :: n in s.run.tasks && n !in todo ==> Settled(s.run.tasks[n])
    ensures Reachable(job, picks, t) && t.stage == s.stage && AllSettled(t.run.tasks)
    ensures t.run.ledger == s.run.ledger && t.run.log == s.run.log
    decreases todo
  {
    if n :| n in todo {
      TaskIsSelected(job, picks, s, n);
      var mid := WorkOn(job, picks, s, n);
      t := DrainOut(job, picks, mid, todo - {n});
    } else {
      t := s;
    }
  }

  lemma {:induction false} QuietConcludes(job: Job, rank: Rank, l: Ledger) returns (res: RunResult)
    requires job.Valid() && Buildable(job.recipe.ws, rank)
    requires LedgerInv(job.Graph(), l) && l.ready == {} && l.running == {}
    ensures Concluded(job, l, res)
  {
    var g := job.Graph();
    InducedClosed(DepGraph(job.recipe.ws), job.selected);
    InducedRanked(DepGraph(job.recipe.ws), job.selected, rank);
    var skipped := job.selected - l.completed - l.failed;
    res := Finished(l.completed, l.failed, skipped);
    forall n
      ensures n in skipped <==> n in g && n !in l.failed && ReachesSome(g, n, l.failed)
    {
      if n in g {
        QuietMeansBlocked(g, rank, l, n);
        if n in l.completed {
          NothingStartedIsBlocked(g, l, n);
        }
      }
    }
    assert l.completed + l.failed <= job.selected;
    assert l.completed + l.failed + skipped == job.selected;
  }

  /** From anywhere the loop can be brought to its end. */
  lemma {:induction false} RunOut(job: Job, rank: Rank, picks: Picks, s: Loop) returns (res: RunResult, t: Loop)
    requires job.Valid() && Buildable(job.recipe.ws, rank) && Legal(picks, job.policy)
    requires Reachable(job, picks, s) && Idle(s)
    ensures Reachable(job, picks, t) && Ended(job, t, res) && s.run.ledger.completed <= t.run.ledger.completed
    decreases job.selected - s.run.ledger.Started(), s.run.ledger.running
  {
    RunningAreTasks(job, picks, s);
    if !Full(job, s.run.ledger) {
      var launched := LaunchOne(job, picks, s);
      res, t := RunOut(job, rank, picks, launched);
    } else if n :| n in s.run.ledger.running {
      var mid := RunOne(job, picks, s, n);
      if mid.stage.Leaving? {
        t := DrainOut(job, picks, mid, mid.run.tasks.Keys);
        res := mid.stage.res;
      } else {
        res, t := RunOut(job, rank, picks, mid);
      }
    } else {
      ReachableInv(job, map[], {}, picks, s);
      res := QuietConcludes(job, rank, s.run.ledger);
      t := s;
    }
  }

  lemma {:induction false} BeginIsIdle(job: Job)
    ensures Idle(Begin(job))
  {
  }

  /** Unless it has to be cut short, some run goes to its end. */
  lemma {:induction false} FullRunExists(job: Job, rank: Rank, scope: set<Name>, picks: Picks)
    returns (res: RunResult, files: Files, log: seq<Event>)
    requires job.Valid() && Sound(job.recipe, rank, scope, job.before, job.selected) && !GivesUp(job)
    requires Legal(picks, job.policy)
    ensures res.Finished? && Executes(job, picks, res, files, log)
  {
    BeginIsReachable(job, picks);
    BeginIsIdle(job);
    var t;
    res, t := RunOut(job, rank, picks, Begin(job));
    files, log := t.run.files, t.run.log;
    assert Executes(job, picks, res, files, log);
    ExecutionsKeepPromise(job, rank, scope, picks, res, files, log);
    AbortsExactly(job, rank, scope, res, files, log);
    EndOf(job, rank, scope, res, files, log);
  }

  // ------------------------------------------------------ giving up late

  /** Everything completed is fine. */
  lemma {:induction false} CompletedAreFine(job: Job, rank: Rank, scope: set<Name>, run: Run)
    requires job.Valid() && Sound(job.recipe, rank, scope, job.before, job.selected) && RunInv(job, rank, scope, run)
    ensures run.ledger.completed <= Fine(job)
  {
    forall n | n in run.ledger.completed
      ensures n in Fine(job)
    {
      if Doomed(job, n) {
        var m :| AsksBelow(job, n, m);
        CompletedClosed(job.Graph(), run.ledger, n, m);
      }
    }
  }

  /** Whatever runs without being fine is a culprit. */
  lemma {:induction false} RunningAreCulprits(job: Job, rank: Rank, scope: set<Name>, run: Run)
    requires job.Valid() && Sound(job.recipe, rank, scope, job.before, job.selected) && RunInv(job, rank, scope, run)
    ensures run.ledger.running - Fine(job) <= Culprits(job)
  {
    CompletedAreFine(job, rank, scope, run);
    forall n | n in run.ledger.running - Fine(job)
      ensures n in Culprits(job)
    {
      RunningIsSelected(job, run.ledger, n);
      assert n in run.ledger.Started() && NodeOk(job.Graph(), run.ledger, n);
      forall d | Edge(job.Graph(), n, d)
        ensures d in Fine(job)
      {
        assert d in Deps(job.Graph(), n);
      }
      DoomBottom(job, n);
      assert OnlyFineBelow(job, n);
    }
  }

  /** With a slot to spare for every culprit, the loop only rests when all that is fine is done. */
  lemma {:induction false} FineAreDone(job: Job, rank: Rank, scope: set<Name>, run: Run)
    requires job.Valid() && Sound(job.recipe, rank, scope, job.before, job.selected) && RunInv(job, rank, scope, run)
    requires |Culprits(job)| < job.slots && Full(job, run.ledger)
    requires run.ledger.failed == {} && run.ledger.running !! Fine(job)
    ensures Fine(job) <= run.ledger.completed
  {
    NoneIsReady(job, rank, scope, run);
    FineEnd(job, rank, run.ledger);
  }

  lemma {:induction false} NoneIsReady(job: Job, rank: Rank, scope: set<Name>, run: Run)
    requires job.Valid() && Sound(job.recipe, rank, scope, job.before, job.selected) && RunInv(job, rank, scope, run)
    requires |Culprits(job)| < job.slots && Full(job, run.ledger) && run.ledger.running !! Fine(job)
    ensures run.ledger.ready == {}
  {
    RunningAreCulprits(job, rank, scope, run);
    SubsetSize(run.ledger.running, Culprits(job));
  }

  lemma {:induction false} FineEnd(job: Job, rank: Rank, l: Ledger)
    requires job.Valid() && Buildable(job.recipe.ws, rank) && LedgerInv(job.Graph(), l)
    requires l.ready == {} && l.failed == {} && l.running !! Fine(job)
    ensures Fine(job) <= l.completed
  {
    EndsAcyclic(job, rank);
    FineIsClosed(job, Fine(job));
    if Fine(job) - l.completed != {} {
      var m := MinimalMember(job.Graph(), Fine(job) - l.completed);
      forall d | Edge(job.Graph(), m, d)
        ensures d in l.completed
      {
        assert d in Fine(job);
      }
      FreeIsInFlight(job.Graph(), l, m);
    }
  }

  lemma {:induction false} FreeIsInFlight(g: Graph, l: Ledger, m: Name)
    requires LedgerInv(g, l) && m in g && forall d :: Edge(g, m, d) ==> d in l.completed
    ensures m in l.ready + l.Started()
  {
    assert NodeOk(g, l, m);
    forall d | d in Deps(g, m)
      ensures d in l.completed
    {
      assert Edge(g, m, d);
    }
  }

  /** A fine action that is run completes. */
  lemma {:induction false} FineCompletes(job: Job, rank: Rank, scope: set<Name>, picks: Picks, s: Loop, n: Name)
    returns (t: Loop)
    requires job.Valid() && Sound(job.recipe, rank, scope, job.before, job.selected)
    requires Reachable(job, picks, s) && Idle(s) && n in s.run.ledger.running && Full(job, s.run.ledger)
    requires n in Fine(job) && s.run.ledger.failed == {}
    ensures Reachable(job, picks, t) && Idle(t) && t.run.ledger.failed == {}
    ensures t.run.ledger.Started() == s.run.ledger.Started() && s.run.ledger.completed <= t.run.ledger.completed
    ensures t.run.ledger.running == s.run.ledger.running - {n}
  {
    RunningAreTasks(job, picks, s);
    t := RunOne(job, picks, s, n);
    FineNeverFails(job, rank, scope, picks, t, n);
    assert t.run.ledger.failed == {};
  }

  lemma {:induction false} FineNeverFails(job: Job, rank: Rank, scope: set<Name>, picks: Picks, t: Loop, n: Name)
    requires job.Valid() && Sound(job.recipe, rank, scope, job.before, job.selected)
    requires Reachable(job, picks, t) && n in Fine(job)
    ensures n !in t.run.ledger.failed && t.stage != Leaving(MissingDep(n))
  {
    ReachableInv(job, rank, scope, picks, t);
    FailuresAreRight(job, rank, scope, t);
    FineIsClosed(job, Fine(job));
  }

  lemma {:induction false} FailuresAreRight(job: Job, rank: Rank, scope: set<Name>, t: Loop)
    requires Sound(job.recipe, rank, scope, job.before, job.selected) && LoopInv(job, rank, scope, t)
    ensures FailedRightly(job.recipe, job.before, t.run.ledger.failed)
    ensures t.stage.Leaving? ==> t.stage.res.Aborted?
  {
  }

  /** All that is fine is run, and nothing else. */
  lemma {:induction false} RunFine(job: Job, rank: Rank, scope: set<Name>, picks: Picks, s: Loop) returns (t: Loop)
    requires job.Valid() && Sound(job.recipe, rank, scope, job.before, job.selected) && Legal(picks, job.policy)
    requires |Culprits(job)| < job.slots
    requires Reachable(job, picks, s) && Idle(s) && s.run.ledger.failed == {}
    ensures Reachable(job, picks, t) && Idle(t) && Fine(job) <= t.run.ledger.completed
    decreases job.selected - s.run.ledger.Started(), s.run.ledger.running
  {
    if !Full(job, s.run.ledger) {
      var launched := LaunchOne(job, picks, s);
      t := RunFine(job, rank, scope, picks, launched);
    } else if n :| n in s.run.ledger.running && n in Fine(job) {
      var mid := FineCompletes(job, rank, scope, picks, s, n);
      t := RunFine(job, rank, scope, picks, mid);
    } else {
      ReachableInv(job, rank, scope, picks, s);
      FineAreDone(job, rank, scope, s.run);
      t := s;
    }
  }

  /** A run that has to be cut short can write everything fine before that, if there are more slots
      than culprits: these may all hang until the rest is done. */
  lemma {:induction false} LateAbortExists(job: Job, rank: Rank, scope: set<Name>, picks: Picks)
    returns (res: RunResult, files: Files, log: seq<Event>)
    requires job.Valid() && Sound(job.recipe, rank, scope, job.before, job.selected) && GivesUp(job)
    requires Legal(picks, job.policy) && |Culprits(job)| < job.slots
    ensures res.Aborted? && Executes(job, picks, res, files, log)
    ensures FinishedIn(log, true) == Fine(job)
  {
    BeginIsReachable(job, picks);
    BeginIsIdle(job);
    var late := RunFine(job, rank, scope, picks, Begin(job));
    var t;
    res, t := RunOut(job, rank, picks, late);
    files, log := t.run.files, t.run.log;
    assert Executes(job, picks, res, files, log);
    ExecutionsKeepPromise(job, rank, scope, picks, res, files, log);
    AbortsExactly(job, rank, scope, res, files, log);
    ReachableInv(job, rank, scope, picks, t);
    CompletedAreFine(job, rank, scope, t.run);
  }

  // ------------------------------------------------------ giving up early

  /** The failing actions of highest priority take all the slots at once: they have nothing to wait
      for, there are as many of them as slots, and any other ready action is behind them. */
  ghost predicate Crowd(job: Job, first: set<Name>) {
    && !job.keepGoing && |first| >= job.slots
    && (forall f :: f in first ==>
          && f in job.Graph() && Deps(job.Graph(), f) == {}
          && f in job.recipe.ws.targets && Fails(job.recipe, job.before, f))
    && (forall f, n :: f in first && n in job.Graph() && n !in first && Deps(job.Graph(), n) == {} ==>
          PriorityOf(job.policy, n) < PriorityOf(job.policy, f))
  }

  /** Nothing but the crowd has been started. */
  ghost predicate Crowded(job: Job, first: set<Name>, s: Loop) {
    && s.run.ledger.Started() <= first && s.run.ledger.completed == {}
    && (!s.stage.Leaving? ==> s.run.ledger.failed == {})
  }

  lemma {:induction false} ProperPart<T>(a: set<T>, b: set<T>) returns (x: T)
    requires |a| < |b|
    ensures x in b && x !in a
  {
    if b <= a {
      SubsetSize(b, a);
      assert false;
    } else {
      x :| x in b && x !in a;
    }
  }

  lemma {:induction false} LaunchStaysCrowded(job: Job, first: set<Name>, s: Loop, n: Name)
    requires Crowd(job, first) && Crowded(job, first, s) && LedgerInv(job.Graph(), s.run.ledger)
    requires s.stage.Filling? && |s.run.ledger.running| < job.slots && IsTop(job.policy, s.run.ledger.ready, n)
    ensures n in first
  {
    var g, l := job.Graph(), s.run.ledger;
    var f := ProperPart(l.running, first);
    assert l.Started() == l.running;
    assert NodeOk(g, l, f) && NodeOk(g, l, n);
    assert f in l.ready;
  }

  lemma {:induction false} NextStaysCrowded(job: Job, rank: Rank, scope: set<Name>, first: set<Name>, s: Loop,
                                            move: Move, t: Loop)
    requires job.Valid() && Sound(job.recipe, rank, scope, job.before, job.selected) && Crowd(job, first)
    requires LoopInv(job, rank, scope, s) && Crowded(job, first, s) && Next(job, s, move, t)
    ensures Crowded(job, first, t)
  {
    match move
    case Launch(n) => LaunchStaysCrowded(job, first, s, n);
    case Work(n) =>
    case Wake(done) =>
    case Take(n) =>
      TakeStaysCrowded(job, rank, scope, first, s, n, t);
  }

  lemma {:induction false} CrowdRaises(job: Job, rank: Rank, scope: set<Name>, first: set<Name>, s: Loop, n: Name)
    requires job.Valid() && Sound(job.recipe, rank, scope, job.before, job.selected) && Crowd(job, first)
    requires LoopInv(job, rank, scope, s) && Crowded(job, first, s)
    requires n in s.run.tasks && Settled(s.run.tasks[n])
    ensures n in first && s.run.tasks[n].Raised?
  {
    assert n in s.run.ledger.Started();
    assert TaskOk(job.recipe, rank, job.selected, job.before, s.run.files, n, s.run.tasks[n]);
  }

  lemma {:induction false} TakeStaysCrowded(job: Job, rank: Rank, scope: set<Name>, first: set<Name>, s: Loop, n: Name,
                                            t: Loop)
    requires job.Valid() && Sound(job.recipe, rank, scope, job.before, job.selected) && Crowd(job, first)
    requires LoopInv(job, rank, scope, s) && Crowded(job, first, s) && Next(job, s, Take(n), t)
    ensures Crowded(job, first, t)
  {
    CrowdRaises(job, rank, scope, first, s, n);
    FailureWasStarted(job.Graph(), s.run.ledger, n);
  }

  lemma {:induction false} FailureWasStarted(g: Graph, l: Ledger, n: Name)
    requires n in l.running
    ensures FailedOn(g, l, n).Started() == l.Started()
  {
  }

  lemma {:induction false} TrailStaysCrowded(job: Job, rank: Rank, scope: set<Name>, first: set<Name>, picks: Picks,
                                            moves: seq<Move>, s: Loop)
    requires job.Valid() && Sound(job.recipe, rank, scope, job.before, job.selected) && Crowd(job, first)
    requires Trail(job, picks, moves, s)
    ensures Crowded(job, first, s)
  {
    if moves != [] {
      var before :| TrailThrough(job, picks, moves, before, s);
      TrailStaysCrowded(job, rank, scope, first, picks, moves[..|moves| - 1], before);
      TrailKeepsInv(job, rank, scope, picks, moves[..|moves| - 1], before);
      NextStaysCrowded(job, rank, scope, first, before, moves[|moves| - 1], s);
    }
  }

  /** Then every run is cut short before anything is written: with no more slots than culprits, a run
      need not be able to write all that is fine. */
  lemma {:induction false} CrowdWritesNothing(job: Job, rank: Rank, scope: set<Name>, first: set<Name>, picks: Picks,
                                              res: RunResult, files: Files, log: seq<Event>)
    requires job.Valid() && Sound(job.recipe, rank, scope, job.before, job.selected) && Crowd(job, first)
    requires Executes(job, picks, res, files, log)
    ensures res.Aborted? && res.failing in first && StartedIn(log) <= first
    ensures forall n :: n in scope ==> Untouched(job.recipe.ws, job.before, files, n)
  {
    var s :| Reachable(job, picks, s) && Ended(job, s, res) && s.run.files == files && s.run.log == log;
    var moves :| Trail(job, picks, moves, s);
    TrailStaysCrowded(job, rank, scope, first, picks, moves, s);
    ReachableInv(job, rank, scope, picks, s);
    CrowdEnds(job, rank, scope, first, s, res);
    ExecutionsKeepPromise(job, rank, scope, picks, res, files, log);
    forall n | n in scope
      ensures Untouched(job.recipe.ws, job.before, files, n)
    {
      assert EndsAs(job, rank, files, log, n);
      if n in StartedIn(log) {
        assert n in first;
      }
    }
  }

  lemma {:induction false} CrowdEnds(job: Job, rank: Rank, scope: set<Name>, first: set<Name>, s: Loop, res: RunResult)
    requires job.Valid() && Sound(job.recipe, rank, scope, job.before, job.selected) && Crowd(job, first)
    requires LoopInv(job, rank, scope, s) && Crowded(job, first, s) && Ended(job, s, res)
    ensures res.Aborted? && res.failing in first && StartedIn(s.run.log) <= first
  {
    if s.stage.Filling? {
      var f := ProperPart({}, first);
      FirstIsReady(job.Graph(), s.run.ledger, f);
    }
  }

  lemma {:induction false} FirstIsReady(g: Graph, l: Ledger, f: Name)
    requires LedgerInv(g, l) && f in g && Deps(g, f) == {} && l.Started() == {}
    ensures f in l.ready
  {
    assert NodeOk(g, l, f);
  }
}
