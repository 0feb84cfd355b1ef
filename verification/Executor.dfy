/** execute_plan and execute_action of frost.py: worker threads read dependency outputs and
    rewrite their own output while the scheduling loop launches and collects them.
    Every choice the real run leaves to timing is a nondeterministic choice here, so what is
    proved holds for every interleaving. */
module Executor {
  import opened Digraph
  import opened Planner
  import opened Scheduler
  import opened Wrappers

  /** The text an action writes: a function of the target, its source text and the texts of
      its dependency outputs (digests and previews are functions of those). */
  type Emit = (Name, Content, seq<Content>) -> Content

  /** Does this source text make the action of this target fail (a FAIL line)? */
  type Verdict = (Name, Content) -> bool

  datatype Recipe = Recipe(ws: Workspace, emit: Emit, fails: Verdict)

  predicate SameAt(a: Files, b: Files, p: Path) {
    if p in a then p in b && a[p] == b[p] else p !in b
  }

  /** An absent source reads as the empty text. */
  function SourceText(ws: Workspace, files: Files, n: Name): Content
    requires n in ws.targets
  {
    var src := ws.targets[n].src;
    if src in files then files[src] else ""
  }

  /** Only a source that exists is searched for a FAIL line. */
  predicate Fails(r: Recipe, files: Files, n: Name)
    requires n in r.ws.targets
  {
    var src := r.ws.targets[n].src;
    src in files && r.fails(n, files[src])
  }

  /** The output of n is as it was. */
  predicate Untouched(ws: Workspace, files0: Files, files: Files, n: Name)
    requires n in ws.targets
  {
    SameAt(files0, files, ws.targets[n].out)
  }

  // ------------------------------------------------------------ clean build

  ghost predicate Buildable(ws: Workspace, rank: Rank) {
    Closed(DepGraph(ws)) && Ranked(DepGraph(ws), rank)
  }

  /** The output a full rebuild from the sources in files gives n. */
  ghost function Clean(r: Recipe, rank: Rank, files: Files, n: Name): Content
    requires Buildable(r.ws, rank) && n in r.ws.targets
    decreases rank[n], |r.ws.targets[n].deps| + 1
  {
    r.emit(n, SourceText(r.ws, files, n), CleanDeps(r, rank, files, n, |r.ws.targets[n].deps|))
  }

  /** The clean outputs of the first k dependencies of n. */
  ghost function CleanDeps(r: Recipe, rank: Rank, files: Files, n: Name, k: nat): (outs: seq<Content>)
    requires Buildable(r.ws, rank) && n in r.ws.targets && k <= |r.ws.targets[n].deps|
    ensures |outs| == k
    decreases rank[n], k
  {
    if k == 0 then []
    else
      var d := r.ws.targets[n].deps[k - 1];
      assert Edge(DepGraph(r.ws), n, d);
      CleanDeps(r, rank, files, n, k - 1) + [Clean(r, rank, files, d)]
  }

  /** The clean output depends only on the sources below n, and not on the rank used. */
  lemma {:induction false} CleanAgrees(r: Recipe, rank: Rank, rank': Rank, scope: set<Name>, a: Files, b: Files,
                                       n: Name)
    requires Buildable(r.ws, rank) && Buildable(r.ws, rank')
    requires scope <= r.ws.targets.Keys && ClosedUnder(DepGraph(r.ws), scope) && n in scope
    requires forall m :: m in scope ==> SameAt(a, b, r.ws.targets[m].src)
    ensures Clean(r, rank, a, n) == Clean(r, rank', b, n)
    decreases rank[n], |r.ws.targets[n].deps| + 1
  {
    CleanDepsAgree(r, rank, rank', scope, a, b, n, |r.ws.targets[n].deps|);
  }

  lemma {:induction false} CleanDepsAgree(r: Recipe, rank: Rank, rank': Rank, scope: set<Name>, a: Files, b: Files,
                                          n: Name, k: nat)
    requires Buildable(r.ws, rank) && Buildable(r.ws, rank')
    requires scope <= r.ws.targets.Keys && ClosedUnder(DepGraph(r.ws), scope) && n in scope
    requires k <= |r.ws.targets[n].deps|
    requires forall m :: m in scope ==> SameAt(a, b, r.ws.targets[m].src)
    ensures CleanDeps(r, rank, a, n, k) == CleanDeps(r, rank', b, n, k)
    decreases rank[n], k
  {
    if k > 0 {
      var d := r.ws.targets[n].deps[k - 1];
      assert Edge(DepGraph(r.ws), n, d);
      CleanDepsAgree(r, rank, rank', scope, a, b, n, k - 1);
      CleanAgrees(r, rank, rank', scope, a, b, d);
    }
  }

  // ----------------------------------------------------------------- worker

  /** Where one submitted action is.  Writing in place is not atomic: a torn file is visible
      until the final write. */
  datatype Task =
    | Queued
    | Reading(text: Content, inputs: seq<Content>)
    | Writing(text: Content, inputs: seq<Content>, torn: bool)
    | Done
    | Raised
    | Crashed

  predicate Settled(t: Task) {
    t.Done? || t.Raised? || t.Crashed?
  }

  function StepsLeft(ws: Workspace, n: Name, t: Task): nat
    requires n in ws.targets
  {
    match t
    case Queued => |ws.targets[n].deps| + 4
    case Reading(_, inputs) => if |inputs| < |ws.targets[n].deps| then |ws.targets[n].deps| - |inputs| + 3 else 3
    case Writing(_, _, torn) => if torn then 1 else 2
    case _ => 0
  }

  /** One step of execute_action for n, seen from the disk. */
  ghost predicate TaskStep(r: Recipe, n: Name, files: Files, t: Task, files': Files, t': Task)
    requires n in r.ws.targets
  {
    var deps, out := r.ws.targets[n].deps, r.ws.targets[n].out;
    match t
    case Queued =>
      files' == files && t' == if Fails(r, files, n) then Raised else Reading(SourceText(r.ws, files, n), [])
    case Reading(text, inputs) =>
      && files' == files
      && if |inputs| < |deps| then
           var dep := deps[|inputs|];
           if dep in r.ws.targets && r.ws.targets[dep].out in files
             then t' == Reading(text, inputs + [files[r.ws.targets[dep].out]])
             else t' == Crashed
         else t' == Writing(text, inputs, false)
    case Writing(text, inputs, torn) =>
      || (!torn && t' == Writing(text, inputs, true) && out in files' && files' == files[out := files'[out]])
      || (t' == Done && files' == files[out := r.emit(n, text, inputs)])
    case _ =>
      files' == files && t' == t
  }

  /** Any step the worker of n may take next. */
  method Advance(r: Recipe, n: Name, files: Files, t: Task) returns (files': Files, t': Task)
    requires n in r.ws.targets && Closed(DepGraph(r.ws))
    ensures TaskStep(r, n, files, t, files', t')
    ensures !Settled(t) ==> StepsLeft(r.ws, n, t') < StepsLeft(r.ws, n, t)
    ensures forall p :: p != r.ws.targets[n].out ==> SameAt(files, files', p)
  {
    files', t' := files, t;
    var out := r.ws.targets[n].out;
    match t
    case Queued =>
      t' := if Fails(r, files, n) then Raised else Reading(SourceText(r.ws, files, n), []);
    case Reading(text, inputs) =>
      if |inputs| < |r.ws.targets[n].deps| {
        var dep := r.ws.targets[n].deps[|inputs|];
        assert Edge(DepGraph(r.ws), n, dep);
        var depOut := r.ws.targets[dep].out;
        t' := if depOut in files then Reading(text, inputs + [files[depOut]]) else Crashed;
      } else {
        t' := Writing(text, inputs, false);
      }
    case Writing(text, inputs, torn) =>
      var pause: bool := *;
      if pause && !torn {
        var junk: Content := *;
        files' := files[out := junk];
        t' := Writing(text, inputs, true);
      } else {
        files' := files[out := r.emit(n, text, inputs)];
        t' := Done;
      }
    case Done =>
    case Raised =>
    case Crashed =>
  }

  // -------------------------------------------------------------- disk state

  /** Outputs of the scope are distinct files and none of them is a source of the scope. */
  ghost predicate SeparateOutputs(ws: Workspace, scope: set<Name>)
    requires scope <= ws.targets.Keys
  {
    forall a, b {:trigger OutputApart(ws, a, b)} :: a in scope && b in scope ==> OutputApart(ws, a, b)
  }

  /** The output of a is no file of b, or the two are the same target. */
  ghost predicate OutputApart(ws: Workspace, a: Name, b: Name)
    requires a in ws.targets && b in ws.targets
  {
    (a != b ==> ws.targets[a].out != ws.targets[b].out) && ws.targets[a].out != ws.targets[b].src
  }

  ghost predicate HasClean(r: Recipe, rank: Rank, source: Files, files: Files, n: Name)
    requires Buildable(r.ws, rank) && n in r.ws.targets
  {
    r.ws.targets[n].out in files && files[r.ws.targets[n].out] == Clean(r, rank, source, n)
  }

  /** The output a run of the selected targets gives n: dependencies outside the selection are read
      as they are on disk. */
  ghost function Made(r: Recipe, rank: Rank, selected: set<Name>, files: Files, n: Name): Content
    requires Buildable(r.ws, rank) && n in r.ws.targets
    decreases rank[n], |r.ws.targets[n].deps| + 1
  {
    r.emit(n, SourceText(r.ws, files, n), MadeDeps(r, rank, selected, files, n, |r.ws.targets[n].deps|))
  }

  ghost function MadeDeps(r: Recipe, rank: Rank, selected: set<Name>, files: Files, n: Name,
                          k: nat): (outs: seq<Content>)
    requires Buildable(r.ws, rank) && n in r.ws.targets && k <= |r.ws.targets[n].deps|
    ensures |outs| == k
    decreases rank[n], k
  {
    if k == 0 then []
    else
      var d := r.ws.targets[n].deps[k - 1];
      assert Edge(DepGraph(r.ws), n, d);
      MadeDeps(r, rank, selected, files, n, k - 1)
      + [if d in selected then Made(r, rank, selected, files, d) else OutputText(r.ws, files, d)]
  }

  function OutputText(ws: Workspace, files: Files, n: Name): Content
    requires n in ws.targets
  {
    if ws.targets[n].out in files then files[ws.targets[n].out] else ""
  }

  ghost predicate HasMade(r: Recipe, rank: Rank, selected: set<Name>, source: Files, files: Files, n: Name)
    requires Buildable(r.ws, rank) && n in r.ws.targets
  {
    r.ws.targets[n].out in files && files[r.ws.targets[n].out] == Made(r, rank, selected, source, n)
  }

  /** Dependencies outside the selection are on disk. */
  ghost predicate Furnished(ws: Workspace, files: Files, selected: set<Name>) {
    forall n, d :: n in selected && Edge(DepGraph(ws), n, d) && d !in selected ==>
      d in ws.targets && ws.targets[d].out in files
  }

  /** What a run needs in order not to miss a dependency. */
  ghost predicate Sound(r: Recipe, rank: Rank, scope: set<Name>, files: Files, selected: set<Name>) {
    && Buildable(r.ws, rank)
    && selected <= scope <= r.ws.targets.Keys
    && ClosedUnder(DepGraph(r.ws), scope)
    && SeparateOutputs(r.ws, scope)
    && Furnished(r.ws, files, selected)
  }

  ghost predicate TaskOk(r: Recipe, rank: Rank, selected: set<Name>, files0: Files, files: Files, n: Name, t: Task)
    requires Buildable(r.ws, rank) && n in r.ws.targets
  {
    match t
    case Queued => Untouched(r.ws, files0, files, n)
    case Reading(text, inputs) =>
      && Untouched(r.ws, files0, files, n) && !Fails(r, files0, n)
      && |inputs| <= |r.ws.targets[n].deps|
      && text == SourceText(r.ws, files0, n)
      && inputs == MadeDeps(r, rank, selected, files0, n, |inputs|)
    case Writing(text, inputs, _) =>
      && !Fails(r, files0, n)
      && |inputs| == |r.ws.targets[n].deps|
      && text == SourceText(r.ws, files0, n)
      && inputs == MadeDeps(r, rank, selected, files0, n, |inputs|)
    case Done => HasMade(r, rank, selected, files0, files, n) && !Fails(r, files0, n)
    case Raised => Untouched(r.ws, files0, files, n) && Fails(r, files0, n)
    case Crashed => false
  }

  /** The disk while the loop runs: untouched outside the outputs that are being or have been
      written, final where an action completed, and every captured input is final. */
  ghost predicate DiskInv(r: Recipe, rank: Rank, scope: set<Name>, files0: Files, files: Files, selected: set<Name>,
                          completed: set<Name>, tasks: map<Name, Task>)
    requires Sound(r, rank, scope, files0, selected)
  {
    && tasks.Keys <= selected && completed <= selected && completed !! tasks.Keys
    && (forall n :: n in scope ==> SameAt(files0, files, r.ws.targets[n].src))
    && (forall n :: n in scope && n !in completed && n !in tasks ==> Untouched(r.ws, files0, files, n))
    && (forall n :: n in completed ==> HasMade(r, rank, selected, files0, files, n) && !Fails(r, files0, n))
    && (forall n :: n in tasks ==> TaskOk(r, rank, selected, files0, files, n, tasks[n]))
    && (forall n, d :: n in tasks && Edge(DepGraph(r.ws), n, d) && d in selected ==> d in completed)
  }

  /** A dependency of a running action is on disk, and holds what the run gives it or, outside the
      selection, what it held before. */
  lemma {:induction false} DependencyIsFinal(r: Recipe, rank: Rank, scope: set<Name>, files0: Files, files: Files,
                                             selected: set<Name>, completed: set<Name>, tasks: map<Name, Task>,
                                             n: Name, d: Name)
    requires Sound(r, rank, scope, files0, selected)
    requires DiskInv(r, rank, scope, files0, files, selected, completed, tasks)
    requires n in tasks && Edge(DepGraph(r.ws), n, d)
    ensures d in r.ws.targets && r.ws.targets[d].out in files
    ensures files[r.ws.targets[d].out]
            == if d in selected then Made(r, rank, selected, files0, d) else OutputText(r.ws, files0, d)
  {
    if d !in selected {
      assert d in scope && Untouched(r.ws, files0, files, d);
    } else {
      assert HasMade(r, rank, selected, files0, files, d);
    }
  }

  lemma {:induction false} StepKeepsTaskOk(r: Recipe, rank: Rank, scope: set<Name>, files0: Files, files: Files,
                                           selected: set<Name>,
                        completed: set<Name>, tasks: map<Name, Task>, n: Name, files': Files, t': Task)
    requires Sound(r, rank, scope, files0, selected)
    requires DiskInv(r, rank, scope, files0, files, selected, completed, tasks)
    requires n in tasks && TaskStep(r, n, files, tasks[n], files', t')
    ensures TaskOk(r, rank, selected, files0, files', n, t')
  {
    if tasks[n].Reading? && |tasks[n].inputs| < |r.ws.targets[n].deps| {
      var d := r.ws.targets[n].deps[|tasks[n].inputs|];
      assert Edge(DepGraph(r.ws), n, d);
      DependencyIsFinal(r, rank, scope, files0, files, selected, completed, tasks, n, d);
    }
    assert SameAt(files0, files, r.ws.targets[n].src);
    StepKeepsOneTaskOk(r, rank, selected, files0, files, n, tasks[n], files', t');
  }

  lemma {:induction false} StepKeepsOneTaskOk(r: Recipe, rank: Rank, selected: set<Name>, files0: Files, files: Files,
                                              n: Name, t: Task, files': Files, t': Task)
    requires Buildable(r.ws, rank) && n in r.ws.targets && TaskOk(r, rank, selected, files0, files, n, t)
    requires SameAt(files0, files, r.ws.targets[n].src)
    requires t.Reading? && |t.inputs| < |r.ws.targets[n].deps| ==>
               var d := r.ws.targets[n].deps[|t.inputs|];
               && d in r.ws.targets && r.ws.targets[d].out in files
               && files[r.ws.targets[d].out]
                  == if d in selected then Made(r, rank, selected, files0, d) else OutputText(r.ws, files0, d)
    requires TaskStep(r, n, files, t, files', t')
    ensures TaskOk(r, rank, selected, files0, files', n, t')
  {
    match t
    case Reading(text, inputs) =>
      if |inputs| < |r.ws.targets[n].deps| {
        assert t'.inputs == MadeDeps(r, rank, selected, files0, n, |inputs| + 1);
      }
    case _ =>
  }

  lemma {:induction false} StepKeepsDiskInv(r: Recipe, rank: Rank, scope: set<Name>, files0: Files, files: Files,
                                            selected: set<Name>,
                         completed: set<Name>, tasks: map<Name, Task>, n: Name, files': Files, t': Task)
    requires Sound(r, rank, scope, files0, selected)
    requires DiskInv(r, rank, scope, files0, files, selected, completed, tasks)
    requires n in tasks && TaskStep(r, n, files, tasks[n], files', t')
    requires forall p :: p != r.ws.targets[n].out ==> SameAt(files, files', p)
    ensures DiskInv(r, rank, scope, files0, files', selected, completed, tasks[n := t'])
  {
    StepKeepsTaskOk(r, rank, scope, files0, files, selected, completed, tasks, n, files', t');
    OthersKept(r, rank, scope, files0, files, selected, completed, tasks, n, files');
  }

  /** A step of n leaves everything the invariant says about other targets alone. */
  lemma {:induction false} OthersKept(r: Recipe, rank: Rank, scope: set<Name>, files0: Files, files: Files,
                                      selected: set<Name>,
                   completed: set<Name>, tasks: map<Name, Task>, n: Name, files': Files)
    requires Sound(r, rank, scope, files0, selected)
    requires DiskInv(r, rank, scope, files0, files, selected, completed, tasks) && n in tasks
    requires forall p :: p != r.ws.targets[n].out ==> SameAt(files, files', p)
    ensures forall m :: m in scope ==> SameAt(files0, files', r.ws.targets[m].src)
    ensures forall m :: m in scope && m !in completed && m !in tasks ==> Untouched(r.ws, files0, files', m)
    ensures forall m :: m in completed ==> HasMade(r, rank, selected, files0, files', m)
    ensures forall m :: m in tasks && m != n ==> TaskOk(r, rank, selected, files0, files', m, tasks[m])
  {
    forall m | m in scope
      ensures SameAt(files0, files', r.ws.targets[m].src)
    {
      assert OutputApart(r.ws, n, m) && SameAt(files, files', r.ws.targets[m].src);
    }
    forall m | m in scope && m !in completed && m !in tasks
      ensures Untouched(r.ws, files0, files', m)
    {
      OtherFilesKept(r.ws, scope, n, m, files, files');
    }
    forall m | m in completed
      ensures HasMade(r, rank, selected, files0, files', m)
    {
      OtherFilesKept(r.ws, scope, n, m, files, files');
    }
    forall m | m in tasks && m != n
      ensures TaskOk(r, rank, selected, files0, files', m, tasks[m])
    {
      OtherFilesKept(r.ws, scope, n, m, files, files');
    }
  }

  lemma {:induction false} OtherFilesKept(ws: Workspace, scope: set<Name>, n: Name, m: Name, files: Files,
                                          files': Files)
    requires scope <= ws.targets.Keys && SeparateOutputs(ws, scope)
    requires n in scope && m in scope && m != n
    requires forall p :: p != ws.targets[n].out ==> SameAt(files, files', p)
    ensures Untouched(ws, files, files', m)
  {
    assert OutputApart(ws, n, m);
  }

  // -------------------------------------------------------- the main loop

  /** Outcome of execute_plan: it returns, re-raises the first failure, propagates the
      missing-dependency error of an action, or reports that the build did not complete. */
  datatype RunResult =
    | Finished(completed: set<Name>, failed: set<Name>, skipped: set<Name>)
    | Aborted(failing: Name)
    | MissingDep(consumer: Name)
    | Incomplete(missing: set<Name>)

  /** The arguments of execute_plan, and the disk it starts from. */
  datatype Job = Job(recipe: Recipe, before: Files, selected: set<Name>, slots: nat, keepGoing: bool, policy: Policy)
  {
    function Graph(): Graph {
      Induced(DepGraph(recipe.ws), selected)
    }

    ghost predicate Valid() {
      slots >= 1 && Closed(DepGraph(recipe.ws)) && selected <= recipe.ws.targets.Keys
    }
  }

  /** The loop variables of execute_plan, the in-flight actions and the disk. */
  datatype Run = Run(ledger: Ledger, log: seq<Event>, tasks: map<Name, Task>, files: Files)

  ghost predicate IsOutput(ws: Workspace, selected: set<Name>, p: Path) {
    exists n :: n in selected && n in ws.targets && ws.targets[n].out == p
  }

  /** Files other than the outputs of the selected targets are never touched. */
  ghost predicate OnlyOutputs(job: Job, files: Files) {
    forall p :: !IsOutput(job.recipe.ws, job.selected, p) ==> SameAt(job.before, files, p)
  }

  /** An action failed because its source says so. */
  ghost predicate FailedRightly(r: Recipe, files: Files, failed: set<Name>) {
    forall n :: n in failed ==> n in r.ws.targets && Fails(r, files, n)
  }

  ghost predicate DiskOk(job: Job, rank: Rank, scope: set<Name>, run: Run) {
    Sound(job.recipe, rank, scope, job.before, job.selected) ==>
      && DiskInv(job.recipe, rank, scope, job.before, run.files, job.selected, run.ledger.completed, run.tasks)
      && FailedRightly(job.recipe, job.before, run.ledger.failed)
  }

  ghost predicate BooksOk(g: Graph, slots: nat, run: Run) {
    && LedgerInv(g, run.ledger)
    && GoodLog(g, slots, run.log)
    && LogMatches(run.log, run.ledger)
    && run.tasks.Keys == run.ledger.running
    && |run.ledger.running| <= slots
  }

  ghost predicate RunInv(job: Job, rank: Rank, scope: set<Name>, run: Run) {
    && BooksOk(job.Graph(), job.slots, run)
    && DiskOk(job, rank, scope, run)
    && OnlyOutputs(job, run.files)
  }

  /** Without keep_going the first failure collected ends the loop. */
  predicate Going(job: Job, run: Run) {
    !job.keepGoing ==> run.ledger.failed == {}
  }

  function Launched(run: Run, n: Name): Run {
    run.(ledger := run.ledger.(ready := run.ledger.ready - {n}, running := run.ledger.running + {n}),
         log := run.log + [Start(n)],
         tasks := run.tasks[n := Queued])
  }

  /** Collecting n takes it out of flight, into the completed or the failed. */
  function Taken(g: Graph, run: Run, n: Name): Run
    requires n in run.tasks
  {
    var ok := run.tasks[n].Done?;
    Run(if ok then Released(g, run.ledger, n) else FailedOn(g, run.ledger, n),
        run.log + [Finish(n, ok)], run.tasks - {n}, run.files)
  }

  // ------------------------------------------------- the main loop, step by step

  /** Where the scheduling thread is: filling the free slots and waiting, going through the futures
      it found done, or leaving the pool with a result. */
  datatype Stage = Filling | Collecting(done: set<Name>) | Leaving(res: RunResult)

  datatype Loop = Loop(run: Run, stage: Stage)

  /** What may happen next: the thread launches an action, a worker takes a step, the thread wakes up
      with some futures done, it takes the result of one of them. */
  datatype Move = Launch(name: Name) | Work(name: Name) | Wake(done: set<Name>) | Take(name: Name)

  /** Which of the ready actions of highest priority is launched: any, or the one some rule takes,
      given all that happened so far. */
  type Rule = (seq<Event>, set<Name>) -> Name

  datatype Picks = AnyTop | By(rule: Rule)

  ghost predicate Legal(picks: Picks, policy: Policy) {
    picks.By? ==> forall log, ready {:trigger picks.rule(log, ready)} :: ready != {} ==>
                    IsTop(policy, ready, picks.rule(log, ready))
  }

  function Begin(job: Job): Loop {
    Loop(Run(InitialLedger(job.Graph()), [], map[], job.before), Filling)
  }

  ghost predicate Worked(job: Job, run: Run, n: Name, run': Run) {
    && n in run.tasks && n in job.recipe.ws.targets && n in run'.tasks
    && TaskStep(job.recipe, n, run.files, run.tasks[n], run'.files, run'.tasks[n])
    && run' == run.(files := run'.files, tasks := run.tasks[n := run'.tasks[n]])
  }

  /** Nothing more can be launched. */
  predicate Full(job: Job, l: Ledger) {
    l.ready == {} || |l.running| >= job.slots
  }

  function NextStage(job: Job, n: Name, t: Task, rest: set<Name>): Stage {
    if t.Crashed? then Leaving(MissingDep(n))
    else if t.Raised? && !job.keepGoing then Leaving(Aborted(n))
    else if rest == {} then Filling
    else Collecting(rest)
  }

  ghost predicate Next(job: Job, s: Loop, move: Move, t: Loop) {
    var run := s.run;
    match move
    case Launch(n) =>
      && s.stage.Filling? && |run.ledger.running| < job.slots && IsTop(job.policy, run.ledger.ready, n)
      && t == Loop(Launched(run, n), Filling)
    case Work(n) => Worked(job, run, n, t.run) && t.stage == s.stage
    case Wake(done) =>
      && s.stage.Filling? && Full(job, run.ledger) && done != {} && done <= run.tasks.Keys
      && (forall n :: n in done ==> Settled(run.tasks[n]))
      && t == Loop(run, Collecting(done))
    case Take(n) =>
      && s.stage.Collecting? && n in s.stage.done && n in run.tasks
      && t == Loop(if run.tasks[n].Crashed? then run else Taken(job.Graph(), run, n),
                   NextStage(job, n, run.tasks[n], s.stage.done - {n}))
  }

  ghost predicate Obeys(picks: Picks, s: Loop, move: Move) {
    picks.By? && move.Launch? ==> move.name == picks.rule(s.run.log, s.run.ledger.ready)
  }

  /** These moves lead from the beginning to s. */
  ghost predicate Trail(job: Job, picks: Picks, moves: seq<Move>, s: Loop)
    decreases |moves|, 1
  {
    if moves == [] then s == Begin(job)
    else exists before :: TrailThrough(job, picks, moves, before, s)
  }

  ghost predicate TrailThrough(job: Job, picks: Picks, moves: seq<Move>, before: Loop, s: Loop)
    requires moves != []
    decreases |moves|, 0
  {
    var last := moves[|moves| - 1];
    Trail(job, picks, moves[..|moves| - 1], before) && Next(job, before, last, s) && Obeys(picks, before, last)
  }

  ghost predicate Reachable(job: Job, picks: Picks, s: Loop) {
    exists moves :: Trail(job, picks, moves, s)
  }

  /** The thread is through: out of the pool, or past the loop and the checks behind it. */
  ghost predicate Ended(job: Job, s: Loop, res: RunResult) {
    match s.stage
    case Filling => s.run.ledger.ready == {} && s.run.ledger.running == {} && Concluded(job, s.run.ledger, res)
    case Collecting(_) => false
    case Leaving(r) => res == r && AllSettled(s.run.tasks)
  }

  /** An execution of execute_plan. */
  ghost predicate Executes(job: Job, picks: Picks, res: RunResult, files: Files, log: seq<Event>) {
    exists s :: Reachable(job, picks, s) && Ended(job, s, res) && s.run.files == files && s.run.log == log
  }

  lemma {:induction false} ReachOn(job: Job, picks: Picks, s: Loop, move: Move, t: Loop)
    requires Reachable(job, picks, s) && Next(job, s, move, t) && Obeys(picks, s, move)
    ensures Reachable(job, picks, t)
  {
    var moves :| Trail(job, picks, moves, s);
    var more := moves + [move];
    assert more[..|more| - 1] == moves;
    assert TrailThrough(job, picks, more, s, t);
    assert Trail(job, picks, more, t);
  }

  lemma {:induction false} BeginIsReachable(job: Job, picks: Picks)
    ensures Reachable(job, picks, Begin(job))
  {
    assert Trail(job, picks, [], Begin(job));
  }

  lemma {:induction false} TrailOfAny(job: Job, picks: Picks, moves: seq<Move>, s: Loop)
    requires Trail(job, picks, moves, s)
    ensures Trail(job, AnyTop, moves, s)
  {
    if moves != [] {
      var before :| TrailThrough(job, picks, moves, before, s);
      TrailOfAny(job, picks, moves[..|moves| - 1], before);
      assert TrailThrough(job, AnyTop, moves, before, s);
    }
  }

  lemma {:induction false} ExecutesByAny(job: Job, picks: Picks, res: RunResult, files: Files, log: seq<Event>)
    requires Executes(job, picks, res, files, log)
    ensures Executes(job, AnyTop, res, files, log)
  {
    var s :| Reachable(job, picks, s) && Ended(job, s, res) && s.run.files == files && s.run.log == log;
    var moves :| Trail(job, picks, moves, s);
    TrailOfAny(job, picks, moves, s);
    assert Reachable(job, AnyTop, s);
  }

  // ------------------------------------------------------- what every step keeps

  /** What holds wherever the thread is. */
  ghost predicate LoopInv(job: Job, rank: Rank, scope: set<Name>, s: Loop) {
    RunInv(job, rank, scope, s.run) && StageOk(job, rank, scope, s)
  }

  ghost predicate StageOk(job: Job, rank: Rank, scope: set<Name>, s: Loop) {
    match s.stage
    case Filling => Going(job, s.run)
    case Collecting(done) =>
      Going(job, s.run) && done <= s.run.tasks.Keys && forall n :: n in done ==> Settled(s.run.tasks[n])
    case Leaving(res) => StoppedRightly(job, rank, scope, res, s.run)
  }

  lemma {:induction false} NextKeepsInv(job: Job, rank: Rank, scope: set<Name>, s: Loop, move: Move, t: Loop)
    requires job.Valid() && LoopInv(job, rank, scope, s) && Next(job, s, move, t)
    ensures LoopInv(job, rank, scope, t)
  {
    match move
    case Launch(n) => LaunchKeepsRunInv(job, rank, scope, s.run, n);
    case Work(n) => WorkKeepsInv(job, rank, scope, s, n, t);
    case Wake(done) =>
    case Take(n) => TakeKeepsInv(job, rank, scope, s, n, t);
  }

  lemma {:induction false} TrailKeepsInv(job: Job, rank: Rank, scope: set<Name>, picks: Picks, moves: seq<Move>,
                                         s: Loop)
    requires job.Valid() && Trail(job, picks, moves, s)
    ensures LoopInv(job, rank, scope, s)
  {
    if moves == [] {
      InitialRunInv(job, rank, scope, s.run);
    } else {
      var before :| TrailThrough(job, picks, moves, before, s);
      TrailKeepsInv(job, rank, scope, picks, moves[..|moves| - 1], before);
      NextKeepsInv(job, rank, scope, before, moves[|moves| - 1], s);
    }
  }

  lemma {:induction false} ReachableInv(job: Job, rank: Rank, scope: set<Name>, picks: Picks, s: Loop)
    requires job.Valid() && Reachable(job, picks, s)
    ensures LoopInv(job, rank, scope, s)
  {
    var moves :| Trail(job, picks, moves, s);
    TrailKeepsInv(job, rank, scope, picks, moves, s);
  }

  /** What every execution keeps its promise about, whatever the rule and the interleaving. */
  lemma {:induction false} ExecutionsKeepPromise(job: Job, rank: Rank, scope: set<Name>, picks: Picks, res: RunResult,
                                                 files: Files, log: seq<Event>)
    requires job.Valid() && Executes(job, picks, res, files, log)
    ensures Outcome(job, rank, scope, res, files, log)
  {
    var s :| Reachable(job, picks, s) && Ended(job, s, res) && s.run.files == files && s.run.log == log;
    ReachableInv(job, rank, scope, picks, s);
    if s.stage.Leaving? {
      StoppedOutcome(job, rank, scope, res, s.run);
    } else {
      ConcludedOutcome(job, rank, scope, s.run, res);
    }
  }

  lemma {:induction false} LogRunning(log: seq<Event>, l: Ledger)
    requires LogMatches(log, l) && Disjoint(l)
    ensures RunningIn(log) == l.running
  {
  }

  lemma {:induction false} LogStart(log: seq<Event>, l: Ledger, n: Name)
    requires LogMatches(log, l)
    ensures LogMatches(log + [Start(n)], l.(ready := l.ready - {n}, running := l.running + {n}))
  {
  }

  lemma {:induction false} LogFinish(log: seq<Event>, l: Ledger, k: Ledger, n: Name, ok: bool)
    requires LogMatches(log, l) && n in l.running && k.running == l.running - {n}
    requires k.completed == l.completed + (if ok then {n} else {})
    requires k.failed == l.failed + (if ok then {} else {n})
    ensures LogMatches(log + [Finish(n, ok)], k)
  {
    assert k.Started() == l.Started();
  }

  /** A ready action has all its dependencies completed and was never started. */
  lemma {:induction false} ReadyMayStart(g: Graph, slots: nat, log: seq<Event>, l: Ledger, n: Name)
    requires LedgerInv(g, l) && LogMatches(log, l) && n in l.ready && |l.running| < slots
    ensures n in g && n !in l.Started() && Deps(g, n) <= l.completed
    ensures Allowed(g, slots, log, Start(n))
  {
    assert NodeOk(g, l, n);
    LogRunning(log, l);
  }

  lemma {:induction false} LaunchKeepsBooks(g: Graph, slots: nat, run: Run, n: Name)
    requires BooksOk(g, slots, run) && n in run.ledger.ready && |run.ledger.running| < slots
    requires Allowed(g, slots, run.log, Start(n))
    ensures BooksOk(g, slots, Launched(run, n))
  {
    LaunchKeepsLog(g, slots, run, n);
    LaunchKeepsInv(g, run.ledger, n);
    LaunchKeepsTasks(run, n);
  }

  lemma {:induction false} LaunchKeepsTasks(run: Run, n: Name)
    requires run.tasks.Keys == run.ledger.running
    ensures Launched(run, n).tasks.Keys == Launched(run, n).ledger.running
    ensures |Launched(run, n).ledger.running| <= |run.ledger.running| + 1
  {
    OneMore(run.ledger.running, n);
  }

  lemma {:induction false} LaunchKeepsLog(g: Graph, slots: nat, run: Run, n: Name)
    requires GoodLog(g, slots, run.log) && LogMatches(run.log, run.ledger)
    requires Allowed(g, slots, run.log, Start(n))
    ensures GoodLog(g, slots, Launched(run, n).log)
    ensures LogMatches(Launched(run, n).log, Launched(run, n).ledger)
  {
    GoodLogAppend(g, slots, run.log, Start(n));
    LogStart(run.log, run.ledger, n);
  }

  lemma {:induction false} OneMore(s: set<Name>, n: Name)
    ensures |s + {n}| <= |s| + 1
  {
  }

  lemma {:induction false} LaunchKeepsDisk(job: Job, rank: Rank, scope: set<Name>, run: Run, n: Name)
    requires DiskOk(job, rank, scope, run) && n in job.selected && n !in run.ledger.completed && n !in run.tasks
    requires job.selected <= job.recipe.ws.targets.Keys
    requires Deps(job.Graph(), n) <= run.ledger.completed
    ensures DiskOk(job, rank, scope, Launched(run, n))
  {
    if !Sound(job.recipe, rank, scope, job.before, job.selected) {
      return;
    }
    forall d | Edge(DepGraph(job.recipe.ws), n, d) && d in job.selected
      ensures d in run.ledger.completed
    {
      assert d in Deps(job.Graph(), n);
    }
    LaunchKeepsDiskInv(job.recipe, rank, scope, job.before, run.files, job.selected, run.ledger.completed, run.tasks,
                       n);
  }

  lemma {:induction false} LaunchKeepsDiskInv(r: Recipe, rank: Rank, scope: set<Name>, files0: Files, files: Files,
                                              selected: set<Name>, completed: set<Name>, tasks: map<Name, Task>,
                                              n: Name)
    requires Sound(r, rank, scope, files0, selected)
    requires DiskInv(r, rank, scope, files0, files, selected, completed, tasks)
    requires n in selected && n !in completed && n !in tasks
    requires forall d :: Edge(DepGraph(r.ws), n, d) && d in selected ==> d in completed
    ensures DiskInv(r, rank, scope, files0, files, selected, completed, tasks[n := Queued])
  {
    assert Untouched(r.ws, files0, files, n);
  }

  lemma {:induction false} LaunchKeepsRunInv(job: Job, rank: Rank, scope: set<Name>, run: Run, n: Name)
    requires job.Valid() && RunInv(job, rank, scope, run) && n in run.ledger.ready && |run.ledger.running| < job.slots
    ensures RunInv(job, rank, scope, Launched(run, n))
  {
    ReadyMayStart(job.Graph(), job.slots, run.log, run.ledger, n);
    LaunchKeepsBooks(job.Graph(), job.slots, run, n);
    LaunchKeepsDisk(job, rank, scope, run, n);
  }

  /** The launch loop: fill the free slots from the ready set. */
  method LaunchReady(job: Job, run0: Run) returns (run: Run)
    requires job.Valid() && Reachable(job, AnyTop, Loop(run0, Filling))
    ensures Reachable(job, AnyTop, Loop(run, Filling)) && Full(job, run.ledger)
    ensures run.ledger.completed == run0.ledger.completed && run.ledger.failed == run0.ledger.failed
    ensures run0.ledger.running <= run.ledger.running
    ensures run0.ledger.ready != {} || run0.ledger.running != {} ==> run.ledger.running != {}
  {
    run := run0;
    while run.ledger.ready != {} && |run.ledger.running| < job.slots
      invariant Reachable(job, AnyTop, Loop(run, Filling))
      invariant run.ledger.completed == run0.ledger.completed && run.ledger.failed == run0.ledger.failed
      invariant run0.ledger.running <= run.ledger.running
      invariant run.ledger.running == {} ==> run == run0
      decreases run.ledger.ready
    {
      var n := PopReady(job.policy, run.ledger.ready);
      ReachOn(job, AnyTop, Loop(run, Filling), Launch(n), Loop(Launched(run, n), Filling));
      run := Launched(run, n);
    }
  }

  predicate SettledKept(before: map<Name, Task>, after: map<Name, Task>) {
    before.Keys == after.Keys && forall n :: n in before && Settled(before[n]) ==> after[n] == before[n]
  }

  lemma {:induction false} StepKeepsSettled(r: Recipe, n: Name, files: Files, tasks: map<Name, Task>, files': Files,
                                            t: Task)
    requires n in tasks && n in r.ws.targets && TaskStep(r, n, files, tasks[n], files', t)
    ensures SettledKept(tasks, tasks[n := t])
  {
  }

  /** One step of the worker of n, wherever the scheduling thread is. */
  method WorkerStep(job: Job, ghost stage: Stage, run0: Run, n: Name) returns (run: Run)
    requires job.Valid() && Reachable(job, AnyTop, Loop(run0, stage)) && n in run0.tasks
    ensures Reachable(job, AnyTop, Loop(run, stage)) && run == run0.(files := run.files, tasks := run.tasks)
    ensures n in job.recipe.ws.targets && SettledKept(run0.tasks, run.tasks)
    ensures !Settled(run0.tasks[n]) ==>
              StepsLeft(job.recipe.ws, n, run.tasks[n]) < StepsLeft(job.recipe.ws, n, run0.tasks[n])
  {
    TaskIsSelected(job, AnyTop, Loop(run0, stage), n);
    var files, t := Advance(job.recipe, n, run0.files, run0.tasks[n]);
    StepKeepsSettled(job.recipe, n, run0.files, run0.tasks, files, t);
    run := run0.(files := files, tasks := run0.tasks[n := t]);
    ReachOn(job, AnyTop, Loop(run0, stage), Work(n), Loop(run, stage));
  }

  lemma {:induction false} StepKeepsRunInv(job: Job, rank: Rank, scope: set<Name>, run: Run, n: Name, files: Files,
                                           t: Task)
    requires RunInv(job, rank, scope, run) && n in run.tasks && n in job.selected && n in job.recipe.ws.targets
    requires TaskStep(job.recipe, n, run.files, run.tasks[n], files, t)
    requires forall p :: p != job.recipe.ws.targets[n].out ==> SameAt(run.files, files, p)
    ensures RunInv(job, rank, scope, run.(files := files, tasks := run.tasks[n := t]))
  {
    StepKeepsDiskOk(job, rank, scope, run, n, files, t);
    OutputWriteKeepsFrame(job, n, run.files, files);
    StepKeepsBooks(job.Graph(), job.slots, run, n, files, t);
  }

  lemma {:induction false} StepKeepsBooks(g: Graph, slots: nat, run: Run, n: Name, files: Files, t: Task)
    requires BooksOk(g, slots, run) && n in run.tasks
    ensures BooksOk(g, slots, run.(files := files, tasks := run.tasks[n := t]))
  {
    assert run.tasks[n := t].Keys == run.tasks.Keys;
  }

  /** The actions in flight are the running ones, and those are selected. */
  lemma {:induction false} TaskIsSelected(job: Job, picks: Picks, s: Loop, n: Name)
    requires job.Valid() && Reachable(job, picks, s) && n in s.run.tasks
    ensures n in s.run.ledger.running && n in job.selected && n in job.recipe.ws.targets
  {
    ReachableInv(job, map[], {}, picks, s);
    assert n in s.run.ledger.Started();
  }

  lemma {:induction false} RunningAreTasks(job: Job, picks: Picks, s: Loop)
    requires job.Valid() && Reachable(job, picks, s)
    ensures s.run.tasks.Keys == s.run.ledger.running
    ensures forall n :: n in s.run.ledger.running ==>
              n in job.selected && n !in s.run.ledger.completed && n !in s.run.ledger.failed
  {
    ReachableInv(job, map[], {}, picks, s);
    InducedClosed(DepGraph(job.recipe.ws), job.selected);
    forall n | n in s.run.ledger.running
      ensures n in job.selected && n !in s.run.ledger.completed && n !in s.run.ledger.failed
    {
      RunningIsUnfinished(job.Graph(), job.slots, s.run, n);
    }
  }

  lemma {:induction false} RunningIsSelected(job: Job, l: Ledger, n: Name)
    requires job.Valid() && LedgerInv(job.Graph(), l) && n in l.running
    ensures n in job.selected && n in job.recipe.ws.targets
  {
    assert n in l.Started();
  }

  lemma {:induction false} WorkedElsewhere(job: Job, run: Run, n: Name, run': Run)
    requires Worked(job, run, n, run')
    ensures forall p :: p != job.recipe.ws.targets[n].out ==> SameAt(run.files, run'.files, p)
  {
  }

  lemma {:induction false} WorkKeepsInv(job: Job, rank: Rank, scope: set<Name>, s: Loop, n: Name, t: Loop)
    requires job.Valid() && LoopInv(job, rank, scope, s) && Worked(job, s.run, n, t.run) && t.stage == s.stage
    ensures LoopInv(job, rank, scope, t)
  {
    RunningIsSelected(job, s.run.ledger, n);
    WorkedElsewhere(job, s.run, n, t.run);
    StepKeepsRunInv(job, rank, scope, s.run, n, t.run.files, t.run.tasks[n]);
    StepKeepsSettled(job.recipe, n, s.run.files, s.run.tasks, t.run.files, t.run.tasks[n]);
  }

  lemma {:induction false} StepKeepsDiskOk(job: Job, rank: Rank, scope: set<Name>, run: Run, n: Name, files: Files,
                                           t: Task)
    requires DiskOk(job, rank, scope, run) && n in run.tasks && n in job.recipe.ws.targets
    requires TaskStep(job.recipe, n, run.files, run.tasks[n], files, t)
    requires forall p :: p != job.recipe.ws.targets[n].out ==> SameAt(run.files, files, p)
    ensures DiskOk(job, rank, scope, run.(files := files, tasks := run.tasks[n := t]))
  {
    if Sound(job.recipe, rank, scope, job.before, job.selected) {
      StepKeepsDiskInv(job.recipe, rank, scope, job.before, run.files, job.selected, run.ledger.completed,
                       run.tasks, n, files, t);
    }
  }

  lemma {:induction false} OutputWriteKeepsFrame(job: Job, n: Name, files: Files, files': Files)
    requires n in job.selected && n in job.recipe.ws.targets && OnlyOutputs(job, files)
    requires forall p :: p != job.recipe.ws.targets[n].out ==> SameAt(files, files', p)
    ensures OnlyOutputs(job, files')
  {
    forall p | !IsOutput(job.recipe.ws, job.selected, p)
      ensures SameAt(job.before, files', p)
    {
      assert p != job.recipe.ws.targets[n].out;
      assert SameAt(files, files', p);
      assert SameAt(job.before, files, p);
    }
  }

  lemma {:induction false} CrashMeansUnsound(job: Job, rank: Rank, scope: set<Name>, run: Run, n: Name)
    requires DiskOk(job, rank, scope, run) && n in run.tasks && run.tasks[n].Crashed?
    ensures !Sound(job.recipe, rank, scope, job.before, job.selected)
  {
  }

  /** The workers of the running actions take any number of steps, in any order. */
  method RunWorkers(job: Job, ghost stage: Stage, run0: Run) returns (run: Run)
    requires job.Valid() && Reachable(job, AnyTop, Loop(run0, stage))
    ensures Reachable(job, AnyTop, Loop(run, stage)) && run == run0.(files := run.files, tasks := run.tasks)
    ensures SettledKept(run0.tasks, run.tasks)
  {
    run := run0;
    var budget: nat := *;
    while budget > 0 && run.tasks != map[]
      invariant Reachable(job, AnyTop, Loop(run, stage)) && run == run0.(files := run.files, tasks := run.tasks)
      invariant SettledKept(run0.tasks, run.tasks)
    {
      budget := budget - 1;
      var n :| n in run.tasks.Keys;
      run := WorkerStep(job, stage, run, n);
    }
  }

  /** Waiting for a future: its worker runs until it has a result. */
  method Await(job: Job, ghost stage: Stage, run0: Run, n: Name) returns (run: Run)
    requires job.Valid() && Reachable(job, AnyTop, Loop(run0, stage)) && n in run0.tasks
    ensures Reachable(job, AnyTop, Loop(run, stage)) && run == run0.(files := run.files, tasks := run.tasks)
    ensures n in run.tasks && Settled(run.tasks[n]) && SettledKept(run0.tasks, run.tasks)
  {
    run := run0;
    TaskIsSelected(job, AnyTop, Loop(run0, stage), n);
    while !Settled(run.tasks[n])
      invariant Reachable(job, AnyTop, Loop(run, stage)) && run == run0.(files := run.files, tasks := run.tasks)
      invariant SettledKept(run0.tasks, run.tasks)
      decreases StepsLeft(job.recipe.ws, n, run.tasks[n])
    {
      run := WorkerStep(job, stage, run, n);
    }
  }

  predicate AllSettled(tasks: map<Name, Task>) {
    forall n :: n in tasks ==> Settled(tasks[n])
  }

  /** These actions settle, while all go on reading and writing. */
  method Settle(job: Job, ghost stage: Stage, run0: Run, todo0: set<Name>) returns (run: Run)
    requires job.Valid() && Reachable(job, AnyTop, Loop(run0, stage)) && todo0 <= run0.tasks.Keys
    ensures Reachable(job, AnyTop, Loop(run, stage)) && run == run0.(files := run.files, tasks := run.tasks)
    ensures SettledKept(run0.tasks, run.tasks) && forall n :: n in todo0 ==> Settled(run.tasks[n])
  {
    run := run0;
    var todo := todo0;
    while todo != {}
      invariant Reachable(job, AnyTop, Loop(run, stage)) && run == run0.(files := run.files, tasks := run.tasks)
      invariant todo <= todo0 && SettledKept(run0.tasks, run.tasks)
      invariant forall n :: n in todo0 && n !in todo ==> Settled(run.tasks[n])
    {
      var n :| n in todo;
      run := RunWorkers(job, stage, run);
      run := Await(job, stage, run, n);
      todo := todo - {n};
    }
  }

  /** Leaving the pool early: shutting it down waits for the actions already submitted. */
  method Drain(job: Job, ghost stage: Stage, run0: Run) returns (run: Run)
    requires job.Valid() && Reachable(job, AnyTop, Loop(run0, stage))
    ensures Reachable(job, AnyTop, Loop(run, stage)) && run == run0.(files := run.files, tasks := run.tasks)
    ensures AllSettled(run.tasks)
  {
    run := Settle(job, stage, run0, run0.tasks.Keys);
  }

  /** Taking the result of n moves it out of flight, into the completed or the failed. */
  ghost predicate CollectedOk(run0: Run, n: Name, run: Run)
    requires n in run0.tasks
  {
    var ok, l0, l := run0.tasks[n].Done?, run0.ledger, run.ledger;
    && run.files == run0.files && run.tasks == run0.tasks - {n} && run.log == run0.log + [Finish(n, ok)]
    && l.running == l0.running - {n}
    && l.completed == l0.completed + (if ok then {n} else {})
    && l.failed == l0.failed + (if ok then {} else {n})
  }

  method Collect(g: Graph, run0: Run, n: Name) returns (run: Run)
    requires LedgerInv(g, run0.ledger) && n in run0.ledger.running
    requires n in run0.tasks && (run0.tasks[n].Done? || run0.tasks[n].Raised?)
    ensures run == Taken(g, run0, n) && CollectedOk(run0, n, run)
    ensures LedgerInv(g, run.ledger)
  {
    var ok := run0.tasks[n].Done?;
    var l;
    if ok {
      l := Complete(g, run0.ledger, n);
    } else {
      l := Fail(g, run0.ledger, n);
    }
    run := Run(l, run0.log + [Finish(n, ok)], run0.tasks - {n}, run0.files);
  }

  /** The log's half of the books. */
  ghost predicate LogOk(g: Graph, slots: nat, run: Run) {
    GoodLog(g, slots, run.log) && LogMatches(run.log, run.ledger) && |run.ledger.running| <= slots
  }

  lemma {:induction false} CollectKeepsLog(g: Graph, slots: nat, run0: Run, n: Name, run: Run)
    requires LogOk(g, slots, run0) && Disjoint(run0.ledger) && n in run0.tasks && n in run0.ledger.running
    requires CollectedOk(run0, n, run)
    ensures LogOk(g, slots, run)
  {
    var ok := run0.tasks[n].Done?;
    LogRunning(run0.log, run0.ledger);
    GoodLogAppend(g, slots, run0.log, Finish(n, ok));
    LogFinish(run0.log, run0.ledger, run.ledger, n, ok);
    SubsetSize(run.ledger.running, run0.ledger.running);
  }

  lemma {:induction false} TakeKeepsBooks(g: Graph, run: Run, n: Name)
    requires LedgerInv(g, run.ledger) && n in run.ledger.running && n in run.tasks
    requires run.tasks[n].Done? || run.tasks[n].Raised?
    ensures LedgerInv(g, Taken(g, run, n).ledger) && CollectedOk(run, n, Taken(g, run, n))
  {
    if run.tasks[n].Done? {
      CompleteKeepsInv(g, run.ledger, n);
    } else {
      FailKeepsInv(g, run.ledger, n);
    }
  }

  lemma {:induction false} TakeKeepsInv(job: Job, rank: Rank, scope: set<Name>, s: Loop, n: Name, t: Loop)
    requires job.Valid() && LoopInv(job, rank, scope, s) && Next(job, s, Take(n), t)
    ensures LoopInv(job, rank, scope, t)
  {
    if s.run.tasks[n].Crashed? {
      CrashMeansUnsound(job, rank, scope, s.run, n);
    } else {
      TakenKeepsRunInv(job, rank, scope, s.run, n);
      TakeKeepsStage(job, rank, scope, s, n, t);
    }
  }

  lemma {:induction false} TakeKeepsStage(job: Job, rank: Rank, scope: set<Name>, s: Loop, n: Name, t: Loop)
    requires StageOk(job, rank, scope, s) && s.stage.Collecting? && n in s.stage.done && n in s.run.tasks
    requires !s.run.tasks[n].Crashed? && CollectedOk(s.run, n, t.run)
    requires t.stage == NextStage(job, n, s.run.tasks[n], s.stage.done - {n})
    ensures StageOk(job, rank, scope, t)
  {
  }

  lemma {:induction false} TakenKeepsRunInv(job: Job, rank: Rank, scope: set<Name>, run: Run, n: Name)
    requires RunInv(job, rank, scope, run) && n in run.tasks && (run.tasks[n].Done? || run.tasks[n].Raised?)
    ensures RunInv(job, rank, scope, Taken(job.Graph(), run, n))
    ensures CollectedOk(run, n, Taken(job.Graph(), run, n))
  {
    TakeKeepsBooks(job.Graph(), run, n);
    CollectKeepsLog(job.Graph(), job.slots, run, n, Taken(job.Graph(), run, n));
    CollectKeepsDisk(job, rank, scope, run, n, Taken(job.Graph(), run, n));
  }

  lemma {:induction false} RunningIsUnfinished(g: Graph, slots: nat, run: Run, n: Name)
    requires BooksOk(g, slots, run) && n in run.ledger.running
    ensures n in g.Keys - run.ledger.completed - run.ledger.failed
  {
  }

  lemma {:induction false} CollectKeepsDisk(job: Job, rank: Rank, scope: set<Name>, run0: Run, n: Name, run: Run)
    requires DiskOk(job, rank, scope, run0) && n in run0.tasks && Settled(run0.tasks[n])
    requires CollectedOk(run0, n, run)
    ensures DiskOk(job, rank, scope, run)
  {
    if Sound(job.recipe, rank, scope, job.before, job.selected) {
      assert TaskOk(job.recipe, rank, job.selected, job.before, run0.files, n, run0.tasks[n]);
      CollectKeepsDiskInv(job.recipe, rank, scope, job.before, job.selected, run0, n, run);
    }
  }

  lemma {:induction false} CollectKeepsDiskInv(r: Recipe, rank: Rank, scope: set<Name>, files0: Files,
                                               selected: set<Name>,
                                               run0: Run, n: Name, run: Run)
    requires Sound(r, rank, scope, files0, selected)
    requires DiskInv(r, rank, scope, files0, run0.files, selected, run0.ledger.completed, run0.tasks)
    requires n in run0.tasks && CollectedOk(run0, n, run)
    requires TaskOk(r, rank, selected, files0, run0.files, n, run0.tasks[n]) && Settled(run0.tasks[n])
    ensures DiskInv(r, rank, scope, files0, run.files, selected, run.ledger.completed, run.tasks)
  {
  }

  // ------------------------------------------------------------- the ending

  ghost predicate SkippedExactly(g: Graph, failed: set<Name>, skipped: set<Name>) {
    forall n :: n in skipped <==> n in g && n !in failed && ReachesSome(g, n, failed)
  }

  lemma {:induction false} OutsideIsNotBlocked(g: Graph, failed: set<Name>, n: Name)
    requires n !in g && n !in failed
    ensures !ReachesSome(g, n, failed)
  {
    if ReachesSome(g, n, failed) {
      var f :| f in failed && Reaches(g, n, f);
      var b := ReachesFirstEdge(g, n, f);
    }
  }

  lemma {:induction false} SkippedIsBlocked(g: Graph, l: Ledger, n: Name)
    requires LedgerInv(g, l) && n in l.skipped
    ensures ReachesSome(g, n, l.failed) && n !in l.Started()
  {
    assert NodeOk(g, l, n);
    var f :| f in Deps(g, n) * l.failed;
    ReachesEdge(g, n, f);
    assert f !in l.completed;
  }

  /** The pass after the loop: skipped grows to every target with a failed transitive dependency. */
  method BlockRest(g: Graph, l: Ledger) returns (skipped: set<Name>)
    requires LedgerInv(g, l) && l.running == {}
    ensures SkippedExactly(g, l.failed, skipped)
  {
    skipped := l.skipped;
    if l.failed != {} {
      var blocked := ReverseClosure(g, l.failed);
      skipped := skipped + (blocked - l.completed - l.failed);
    }
    forall n
      ensures n in skipped <==> n in g && n !in l.failed && ReachesSome(g, n, l.failed)
    {
      if n in l.skipped {
        SkippedIsBlocked(g, l, n);
      } else if n in l.completed {
        NothingStartedIsBlocked(g, l, n);
      } else if n !in g && n !in l.failed {
        OutsideIsNotBlocked(g, l.failed, n);
      }
    }
  }

  lemma {:induction false} InducedClosed(g: Graph, selected: set<Name>)
    requires selected <= g.Keys
    ensures Closed(Induced(g, selected)) && Induced(g, selected).Keys == selected
  {
  }

  /** Collecting an action that was still running is progress. */
  lemma {:induction false} CollectedIsProgress(selected: set<Name>, l0: Ledger, l: Ledger, n: Name)
    requires n in selected && n !in l0.completed && n !in l0.failed
    requires l0.completed <= l.completed && l0.failed <= l.failed && n in l.completed + l.failed
    ensures selected - l.completed - l.failed < selected - l0.completed - l0.failed
  {
    assert n in selected - l0.completed - l0.failed;
  }

  /** Where the loop stands after a pass: filling again, or leaving with a result. */
  function StageOf(stop: Option<RunResult>): Stage {
    if stop.Some? then Leaving(stop.value) else Filling
  }

  /** One pass of the main loop: launch, let the workers run until some futures are done, collect
      these in any order. */
  method Round(job: Job, ghost rank: Rank, ghost scope: set<Name>, run0: Run)
    returns (stop: Option<RunResult>, run: Run)
    requires job.Valid() && Reachable(job, AnyTop, Loop(run0, Filling))
    requires run0.ledger.ready != {} || run0.ledger.running != {}
    ensures Reachable(job, AnyTop, Loop(run, StageOf(stop))) && RunInv(job, rank, scope, run)
    ensures stop.None? ==>
              && Going(job, run)
              && job.selected - run.ledger.completed - run.ledger.failed
                 < job.selected - run0.ledger.completed - run0.ledger.failed
    ensures stop.Some? ==> Stopped(job, rank, scope, stop.value, run)
  {
    var done;
    run, done := FillAndWait(job, run0);
    stop, run := CollectAll(job, run, done);
    ReachableInv(job, rank, scope, AnyTop, Loop(run, StageOf(stop)));
    if stop.None? {
      ghost var first :| first in done;
      CollectedIsProgress(job.selected, run0.ledger, run.ledger, first);
    }
  }

  /** The first half of a pass: launch, and wait for some futures. */
  method FillAndWait(job: Job, run0: Run) returns (run: Run, done: set<Name>)
    requires job.Valid() && Reachable(job, AnyTop, Loop(run0, Filling))
    requires run0.ledger.ready != {} || run0.ledger.running != {}
    ensures Reachable(job, AnyTop, Loop(run, Collecting(done))) && done != {}
    ensures run.ledger.completed == run0.ledger.completed && run.ledger.failed == run0.ledger.failed
    ensures forall n :: n in done ==> n in job.selected && n !in run.ledger.completed && n !in run.ledger.failed
  {
    run := LaunchReady(job, run0);
    run := RunWorkers(job, Filling, run);
    done :| done <= run.ledger.running && done != {};
    RunningAreTasks(job, AnyTop, Loop(run, Filling));
    run := Settle(job, Filling, run, done);
    ReachOn(job, AnyTop, Loop(run, Filling), Wake(done), Loop(run, Collecting(done)));
  }

  /** The collection loop, in any order, while the other workers go on. */
  method CollectAll(job: Job, run0: Run, done0: set<Name>) returns (stop: Option<RunResult>, run: Run)
    requires job.Valid() && Reachable(job, AnyTop, Loop(run0, Collecting(done0))) && done0 != {}
    ensures Reachable(job, AnyTop, Loop(run, StageOf(stop)))
    ensures stop.None? ==>
              && run0.ledger.completed <= run.ledger.completed && run0.ledger.failed <= run.ledger.failed
              && done0 <= run.ledger.completed + run.ledger.failed
  {
    var done := done0;
    run, stop := run0, None;
    while done != {}
      invariant stop.None? && Reachable(job, AnyTop, Loop(run, if done == {} then Filling else Collecting(done)))
      invariant run0.ledger.completed <= run.ledger.completed && run0.ledger.failed <= run.ledger.failed
      invariant forall x :: x in done0 && x !in done ==> x in run.ledger.completed + run.ledger.failed
      decreases done
    {
      run := RunWorkers(job, Collecting(done), run);
      var n :| n in done;
      stop, run := CollectOne(job, run, done, n);
      done := done - {n};
      if stop.Some? {
        return;
      }
    }
  }

  /** The body of the collection loop: take the result of n, and account for it.  With keep_going a
      failure stays in the books, without it the run ends. */
  method CollectOne(job: Job, run0: Run, ghost done: set<Name>, n: Name) returns (stop: Option<RunResult>, run: Run)
    requires job.Valid() && Reachable(job, AnyTop, Loop(run0, Collecting(done))) && n in done
    ensures stop.None? ==>
              && Reachable(job, AnyTop, Loop(run, if done - {n} == {} then Filling else Collecting(done - {n})))
              && run0.ledger.completed <= run.ledger.completed && run0.ledger.failed <= run.ledger.failed
              && n in run.ledger.completed + run.ledger.failed
    ensures stop.Some? ==> Reachable(job, AnyTop, Loop(run, Leaving(stop.value)))
  {
    ghost var s := Loop(run0, Collecting(done));
    ReachableInv(job, map[], {}, AnyTop, s);
    stop, run := None, run0;
    if run0.tasks[n].Crashed? {
      stop := Some(MissingDep(n));
    } else {
      run := Collect(job.Graph(), run0, n);
      if run0.tasks[n].Raised? && !job.keepGoing {
        stop := Some(Aborted(n));
      }
    }
    ReachOn(job, AnyTop, s, Take(n), Loop(run, NextStage(job, n, run0.tasks[n], done - {n})));
  }

  /** What holds when the loop is left early. */
  ghost predicate Stopped(job: Job, rank: Rank, scope: set<Name>, res: RunResult, run: Run) {
    RunInv(job, rank, scope, run) && StoppedRightly(job, rank, scope, res, run)
  }

  ghost predicate StoppedRightly(job: Job, rank: Rank, scope: set<Name>, res: RunResult, run: Run) {
    match res
    case MissingDep(n) => !Sound(job.recipe, rank, scope, job.before, job.selected)
    case Aborted(n) => !job.keepGoing && n in run.ledger.failed
    case _ => false
  }

  /** The three end sets of a finished run. */
  ghost predicate Settles(job: Job, log: seq<Event>, completed: set<Name>, failed: set<Name>, skipped: set<Name>) {
    && StartedIn(log) == completed + failed
    && FinishedIn(log, true) == completed && FinishedIn(log, false) == failed
    && completed + failed + skipped == job.selected
    && completed !! failed && completed !! skipped && failed !! skipped
    && SkippedExactly(job.Graph(), failed, skipped)
    && (job.keepGoing || failed == {})
  }

  /** The end of n, as the log tells it.  An action that asked for failure leaves its output alone;
      one whose result was never collected may go either way; no output is ever left torn. */
  ghost predicate EndsAs(job: Job, rank: Rank, files: Files, log: seq<Event>, n: Name)
    requires Buildable(job.recipe.ws, rank) && n in job.recipe.ws.targets
  {
    var made := HasMade(job.recipe, rank, job.selected, job.before, files, n);
    && (n in FinishedIn(log, true) ==> made && !Fails(job.recipe, job.before, n))
    && (n in FinishedIn(log, false) ==> Fails(job.recipe, job.before, n))
    && (n !in StartedIn(log) ==> Untouched(job.recipe.ws, job.before, files, n))
    && (Fails(job.recipe, job.before, n) ==> Untouched(job.recipe.ws, job.before, files, n))
    && (Untouched(job.recipe.ws, job.before, files, n) || made)
  }

  /** What execute_plan promises about the log, the disk and its result. */
  ghost predicate Outcome(job: Job, rank: Rank, scope: set<Name>, res: RunResult, files: Files, log: seq<Event>) {
    && GoodLog(job.Graph(), job.slots, log)
    && OnlyOutputs(job, files)
    && (res.Finished? ==> Settles(job, log, res.completed, res.failed, res.skipped))
    && (res.Aborted? ==> !job.keepGoing && res.failing in FinishedIn(log, false))
    && (res.Incomplete? ==> !Acyclic(job.Graph()))
    && (Sound(job.recipe, rank, scope, job.before, job.selected) ==>
          && !res.MissingDep?
          && StartedIn(log) <= job.selected
          && forall n :: n in scope ==> EndsAs(job, rank, files, log, n))
  }

  /** execute_plan. */
  method ExecutePlan(job: Job, ghost rank: Rank, ghost scope: set<Name>)
    returns (res: RunResult, files: Files, log: seq<Event>)
    requires job.Valid()
    ensures Executes(job, AnyTop, res, files, log)
    ensures Outcome(job, rank, scope, res, files, log)
  {
    var run := Begin(job).run;
    BeginIsReachable(job, AnyTop);
    ghost var end := Loop(run, Filling);
    var stop := None;
    while stop.None? && (run.ledger.ready != {} || run.ledger.running != {})
      invariant Reachable(job, AnyTop, Loop(run, StageOf(stop)))
      decreases stop.None?, job.selected - run.ledger.completed - run.ledger.failed
    {
      stop, run := Round(job, rank, scope, run);
    }
    if stop.Some? {
      run := Drain(job, Leaving(stop.value), run);
      res := stop.value;
    } else {
      ReachableInv(job, rank, scope, AnyTop, Loop(run, Filling));
      res := Conclude(job, run.ledger);
    }
    files, log := run.files, run.log;
    assert Ended(job, Loop(run, StageOf(stop)), res);
    ExecutionsKeepPromise(job, rank, scope, AnyTop, res, files, log);
  }

  lemma {:induction false} InitialRunInv(job: Job, rank: Rank, scope: set<Name>, run: Run)
    requires job.Valid() && run == Run(InitialLedger(job.Graph()), [], map[], job.before)
    ensures RunInv(job, rank, scope, run)
  {
    InitialBooks(job.Graph(), job.slots, job.before);
  }

  lemma {:induction false} InitialBooks(g: Graph, slots: nat, files: Files)
    ensures BooksOk(g, slots, Run(InitialLedger(g), [], map[], files))
  {
  }

  lemma {:induction false} StoppedOutcome(job: Job, rank: Rank, scope: set<Name>, res: RunResult, run: Run)
    requires job.Valid() && Stopped(job, rank, scope, res, run) && AllSettled(run.tasks)
    ensures Outcome(job, rank, scope, res, run.files, run.log)
  {
    AllEnds(job, rank, scope, run);
  }

  lemma {:induction false} ConcludedOutcome(job: Job, rank: Rank, scope: set<Name>, run: Run, res: RunResult)
    requires job.Valid() && RunInv(job, rank, scope, run) && Going(job, run) && run.ledger.running == {}
    requires Concluded(job, run.ledger, res)
    ensures Outcome(job, rank, scope, res, run.files, run.log)
  {
    AllEnds(job, rank, scope, run);
    assert run.ledger.Started() == run.ledger.completed + run.ledger.failed;
  }

  lemma {:induction false} AllEnds(job: Job, rank: Rank, scope: set<Name>, run: Run)
    requires job.Valid() && RunInv(job, rank, scope, run) && AllSettled(run.tasks)
    ensures Sound(job.recipe, rank, scope, job.before, job.selected) ==>
              && StartedIn(run.log) <= job.selected
              && forall n :: n in scope ==> EndsAs(job, rank, run.files, run.log, n)
  {
    if Sound(job.recipe, rank, scope, job.before, job.selected) {
      InducedClosed(DepGraph(job.recipe.ws), job.selected);
      forall n | n in scope
        ensures EndsAs(job, rank, run.files, run.log, n)
      {
        TargetEnds(job, rank, scope, run, n);
      }
    }
  }

  lemma {:induction false} TargetEnds(job: Job, rank: Rank, scope: set<Name>, run: Run, n: Name)
    requires DiskOk(job, rank, scope, run) && LogMatches(run.log, run.ledger) && Disjoint(run.ledger)
    requires run.tasks.Keys == run.ledger.running && AllSettled(run.tasks)
    requires Sound(job.recipe, rank, scope, job.before, job.selected) && n in scope
    ensures EndsAs(job, rank, run.files, run.log, n)
  {
    if n in run.tasks {
      assert TaskOk(job.recipe, rank, job.selected, job.before, run.files, n, run.tasks[n]) && Settled(run.tasks[n]);
    } else if n in run.ledger.completed {
      assert HasMade(job.recipe, rank, job.selected, job.before, run.files, n);
    } else {
      assert Untouched(job.recipe.ws, job.before, run.files, n);
    }
  }

  ghost predicate Concluded(job: Job, l: Ledger, res: RunResult) {
    match res
    case Finished(completed, failed, skipped) =>
      && completed == l.completed && failed == l.failed
      && completed + failed + skipped == job.selected
      && completed !! failed && completed !! skipped && failed !! skipped
      && SkippedExactly(job.Graph(), failed, skipped)
    case Incomplete(_) => !Acyclic(job.Graph())
    case _ => false
  }

  /** The checks after the loop. */
  method Conclude(job: Job, l: Ledger) returns (res: RunResult)
    requires job.Valid() && LedgerInv(job.Graph(), l) && l.ready == {} && l.running == {}
    ensures Concluded(job, l, res)
  {
    var g := job.Graph();
    InducedClosed(DepGraph(job.recipe.ws), job.selected);
    var skipped := BlockRest(g, l);
    forall n | n in l.completed
      ensures n !in skipped
    {
      NothingStartedIsBlocked(g, l, n);
    }
    if l.completed + l.failed + skipped == job.selected {
      res := Finished(l.completed, l.failed, skipped);
    } else {
      res := Incomplete(job.selected - l.completed - l.failed - skipped);
      if Acyclic(g) {
        var order := RankExists(g);
        forall n | n in g
          ensures n in l.completed + l.failed + skipped
        {
          QuietMeansBlocked(g, order, l, n);
        }
        assert false;
      }
    }
  }
}
