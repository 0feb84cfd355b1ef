/** Build after build: what the saved digests are worth to the next invocation, over any number of
    edits, builds and failures. */
module Sessions {
  import opened Digraph
  import opened Planner
  import opened Scheduler
  import opened Executor
  import opened Endings
  import opened Incremental

  /** One invocation of a session: the state and disk it found, and what it left. */
  datatype Round = Round(inv: Invocation, saved: SavedState, files: Files, plan: Plan, res: RunResult,
                         after: Files, log: seq<Event>, depfiles: map<Name, seq<Path>>)
  {
    function Saved(): SavedState {
      SavedAfter(inv, saved, depfiles, plan, res, after)
    }

    predicate Succeeded() {
      res.Finished? && res.failed == {}
    }
  }

  /** The same project, but for the depfile store; how a build is run may change. */
  ghost predicate SameProject(a: Invocation, b: Invocation, depfiles: map<Name, seq<Path>>) {
    b.recipe == WithDepfiles(a.recipe, depfiles) && b.roots == a.roots && b.sha == a.sha && b.kinds == a.kinds
  }

  /** Between two builds outputs may be deleted, but not edited. */
  ghost predicate OutputsKept(ws: Workspace, scope: set<Name>, before: Files, after: Files) {
    forall n :: n in scope && n in ws.targets && ws.targets[n].out in after ==>
      ws.targets[n].out in before && after[ws.targets[n].out] == before[ws.targets[n].out]
  }

  ghost function PriorAt(rounds: seq<Round>, prior: Files, k: nat): Files
    requires k <= |rounds|
  {
    if k == 0 then prior
    else PriorAfter(rounds[k - 1].plan, rounds[k - 1].res, PriorAt(rounds, prior, k - 1), rounds[k - 1].after)
  }

  ghost predicate RoundOk(rank: Rank, prior: Files, r: Round) {
    && Proper(r.inv, rank)
    && Built(r.inv, rank, r.saved, r.files, r.plan, r.res, r.after, r.log)
    && (Cold(r.inv, r.saved) || Visible(r.inv, rank, prior, r.files))
  }

  ghost predicate Follows(r: Round, next: Round) {
    && SameProject(r.inv, next.inv, r.depfiles)
    && next.saved == r.Saved()
    && OutputsKept(r.inv.recipe.ws, r.inv.Scope(), r.after, next.files)
  }

  /** Any sequence of edits and builds. */
  ghost predicate Rounds(rounds: seq<Round>, rank: Rank, prior: Files) {
    && (forall k :: 0 <= k < |rounds| ==> RoundOk(rank, PriorAt(rounds, prior, k), rounds[k]))
    && (forall k :: 0 < k < |rounds| ==> Follows(rounds[k - 1], rounds[k]))
  }

  /** One that starts with a state in step with the disk. */
  ghost predicate Session(rounds: seq<Round>, rank: Rank, prior: Files) {
    && Rounds(rounds, rank, prior)
    && (rounds != [] ==> Tracked(rounds[0].inv, rank, rounds[0].saved, prior, rounds[0].files))
  }

  // ------------------------------------------------ the depfile store is no part of it

  lemma {:induction false} CleanIgnoresDepfiles(r: Recipe, depfiles: map<Name, seq<Path>>, rank: Rank, files: Files,
                                                n: Name)
    requires Buildable(r.ws, rank) && Buildable(WithDepfiles(r, depfiles).ws, rank) && n in r.ws.targets
    ensures Clean(WithDepfiles(r, depfiles), rank, files, n) == Clean(r, rank, files, n)
    decreases rank[n], |r.ws.targets[n].deps| + 1
  {
    CleanDepsIgnoreDepfiles(r, depfiles, rank, files, n, |r.ws.targets[n].deps|);
  }

  lemma {:induction false} CleanDepsIgnoreDepfiles(r: Recipe, depfiles: map<Name, seq<Path>>, rank: Rank, files: Files,
                                                   n: Name, k: nat)
    requires Buildable(r.ws, rank) && Buildable(WithDepfiles(r, depfiles).ws, rank) && n in r.ws.targets
    requires k <= |r.ws.targets[n].deps|
    ensures CleanDeps(WithDepfiles(r, depfiles), rank, files, n, k) == CleanDeps(r, rank, files, n, k)
    decreases rank[n], k
  {
    if k > 0 {
      var d := r.ws.targets[n].deps[k - 1];
      assert Edge(DepGraph(r.ws), n, d) && Edge(DepGraph(WithDepfiles(r, depfiles).ws), n, d);
      CleanDepsIgnoreDepfiles(r, depfiles, rank, files, n, k - 1);
      CleanIgnoresDepfiles(r, depfiles, rank, files, d);
    }
  }

  lemma {:induction false} SameProjectScope(a: Invocation, b: Invocation, depfiles: map<Name, seq<Path>>)
    requires SameProject(a, b, depfiles)
    ensures DepGraph(b.recipe.ws) == DepGraph(a.recipe.ws) && b.Scope() == a.Scope()
  {
  }

  lemma {:induction false} SameProjectMatch(a: Invocation, b: Invocation, depfiles: map<Name, seq<Path>>, rank: Rank,
                                            prior: Files, files: Files)
    requires SameProject(a, b, depfiles) && Proper(a, rank) && Proper(b, rank)
    requires PresentMatch(a.recipe, rank, a.Scope(), prior, files)
    ensures PresentMatch(b.recipe, rank, b.Scope(), prior, files)
  {
    SameProjectScope(a, b, depfiles);
    forall n | n in b.Scope() && b.recipe.ws.targets[n].out in files
      ensures HasClean(b.recipe, rank, prior, files, n)
    {
      assert HasClean(a.recipe, rank, prior, files, n);
      CleanIgnoresDepfiles(a.recipe, depfiles, rank, prior, n);
    }
  }

  // ---------------------------------------------------------------- the sessions

  /** A state in step with the disk stays so through honest builds and edits of sources. */
  lemma {:induction false} TrackedAt(rounds: seq<Round>, rank: Rank, prior: Files, k: nat)
    requires Session(rounds, rank, prior) && k < |rounds|
    requires forall i :: 0 <= i < k ==> HonestAt(rounds, rank, prior, i)
    ensures Tracked(rounds[k].inv, rank, rounds[k].saved, PriorAt(rounds, prior, k), rounds[k].files)
  {
    if k > 0 {
      TrackedAt(rounds, rank, prior, k - 1);
      var r, p := rounds[k - 1], PriorAt(rounds, prior, k - 1);
      assert RoundOk(rank, p, r) && Follows(r, rounds[k]) && HonestAt(rounds, rank, prior, k - 1);
      assert RoundOk(rank, PriorAt(rounds, prior, k), rounds[k]);
      HandsOn(r.inv, rank, r.saved, p, r.files, r.plan, r.res, r.after, r.log, r.depfiles);
      FollowsTracked(r, rounds[k], rank, PriorAt(rounds, prior, k));
    }
  }

  ghost predicate HonestAt(rounds: seq<Round>, rank: Rank, prior: Files, i: nat)
    requires i < |rounds|
  {
    Proper(rounds[i].inv, rank)
    && Honest(rounds[i].inv, rank, rounds[i].saved, PriorAt(rounds, prior, i), rounds[i].files, rounds[i].plan)
  }

  lemma {:induction false} FollowsTracked(r: Round, next: Round, rank: Rank, prior: Files)
    requires Follows(r, next) && Proper(r.inv, rank) && Proper(next.inv, rank)
    requires Tracked(r.inv, rank, r.Saved(), prior, r.after)
    ensures Tracked(next.inv, rank, next.saved, prior, next.files)
  {
    if next.saved.Saved? {
      forall n | n in r.inv.Scope() && r.inv.recipe.ws.targets[n].out in next.files
        ensures HasClean(r.inv.recipe, rank, prior, next.files, n)
      {
        assert HasClean(r.inv.recipe, rank, prior, r.after, n);
      }
      SameProjectMatch(r.inv, next.inv, r.depfiles, rank, prior, next.files);
    }
  }

  /** A build that left nothing behind the digests: it succeeded, or it was cut short and could not
      have written an output of the new sources only. */
  ghost predicate HarmlessAt(rounds: seq<Round>, rank: Rank, prior: Files, i: nat)
    requires i < |rounds|
  {
    rounds[i].Succeeded() || (rounds[i].res.Aborted? && HonestAt(rounds, rank, prior, i))
  }

  lemma {:induction false} HarmlessIsHonest(rounds: seq<Round>, rank: Rank, prior: Files, k: nat)
    requires Session(rounds, rank, prior) && k <= |rounds|
    requires forall i :: 0 <= i < k ==> HarmlessAt(rounds, rank, prior, i)
    ensures forall i :: 0 <= i < k ==> HonestAt(rounds, rank, prior, i)
  {
    if k > 0 {
      HarmlessIsHonest(rounds, rank, prior, k - 1);
      assert HarmlessAt(rounds, rank, prior, k - 1);
      NextIsHonest(rounds, rank, prior, k - 1);
    }
  }

  lemma {:induction false} NextIsHonest(rounds: seq<Round>, rank: Rank, prior: Files, k: nat)
    requires Session(rounds, rank, prior) && k < |rounds| && HarmlessAt(rounds, rank, prior, k)
    requires forall i :: 0 <= i < k ==> HonestAt(rounds, rank, prior, i)
    ensures HonestAt(rounds, rank, prior, k)
  {
    TrackedAt(rounds, rank, prior, k);
    var r, p := rounds[k], PriorAt(rounds, prior, k);
    assert RoundOk(rank, p, r);
    if r.Succeeded() {
      SuccessIsHonest(r.inv, rank, r.saved, p, r.files, r.plan, r.res, r.after, r.log);
    }
  }

  /** Nothing fails in the sources the state is about. */
  ghost predicate ClearAt(rounds: seq<Round>, rank: Rank, prior: Files, k: nat)
    requires k < |rounds| && Proper(rounds[k].inv, rank)
  {
    rounds[k].saved.NoState? || NoneFails(rounds[k].inv, rank, PriorAt(rounds, prior, k))
  }

  lemma {:induction false} StaysClear(rounds: seq<Round>, rank: Rank, prior: Files, k: nat)
    requires Session(rounds, rank, prior) && k < |rounds|
    requires forall i :: 0 <= i < k ==> HarmlessAt(rounds, rank, prior, i)
    requires ClearAt(rounds, rank, prior, 0)
    ensures ClearAt(rounds, rank, prior, k)
  {
    assert RoundOk(rank, PriorAt(rounds, prior, k), rounds[k]);
    if k > 0 {
      StaysClear(rounds, rank, prior, k - 1);
      HarmlessIsHonest(rounds, rank, prior, k - 1);
      TrackedAt(rounds, rank, prior, k - 1);
      var r, p := rounds[k - 1], PriorAt(rounds, prior, k - 1);
      assert RoundOk(rank, p, r) && HarmlessAt(rounds, rank, prior, k - 1) && Follows(r, rounds[k]);
      SameProjectScope(r.inv, rounds[k].inv, r.depfiles);
      if r.plan.selected != {} && r.res.Finished? {
        VerdictIsRight(r.inv, rank, r.saved, p, r.files, r.plan, r.res, r.after, r.log);
        SuccessIsClear(r, rounds[k].inv, rank);
      }
    }
  }

  lemma {:induction false} SuccessIsClear(r: Round, next: Invocation, rank: Rank)
    requires Built(r.inv, rank, r.saved, r.files, r.plan, r.res, r.after, r.log) && Proper(r.inv, rank)
    requires NoneFails(r.inv, rank, r.files) && SameProject(r.inv, next, r.depfiles) && Proper(next, rank)
    ensures NoneFails(next, rank, r.after)
  {
    SameProjectScope(r.inv, next, r.depfiles);
    RunEnds(r.inv, rank, r.saved, r.files, r.plan, r.res, r.after, r.log);
    forall n | n in next.Scope()
      ensures !Fails(next.recipe, r.after, n)
    {
      assert SameAt(r.files, r.after, r.inv.recipe.ws.targets[n].src);
      assert !Fails(r.inv.recipe, r.files, n);
    }
  }

  /** The promise over a whole session.  As long as every build so far was harmless, the next one
      succeeds exactly if a full build of the sources would, and then leaves every output of the
      closure that is on disk as that full build would write it. */
  lemma {:induction false} SessionIsCorrect(rounds: seq<Round>, rank: Rank, prior: Files, k: nat)
    requires Session(rounds, rank, prior) && k < |rounds|
    requires forall i :: 0 <= i < k ==> HarmlessAt(rounds, rank, prior, i)
    requires ClearAt(rounds, rank, prior, 0)
    ensures Proper(rounds[k].inv, rank)
    ensures rounds[k].Succeeded() <==> NoneFails(rounds[k].inv, rank, rounds[k].files)
    ensures rounds[k].Succeeded() ==>
              CleanAfter(rounds[k].inv, rank, rounds[k].files, rounds[k].plan, rounds[k].after)
  {
    var r, p := rounds[k], PriorAt(rounds, prior, k);
    assert RoundOk(rank, p, r);
    HarmlessIsHonest(rounds, rank, prior, k);
    TrackedAt(rounds, rank, prior, k);
    StaysClear(rounds, rank, prior, k);
    VerdictIsRight(r.inv, rank, r.saved, p, r.files, r.plan, r.res, r.after, r.log);
    if r.Succeeded() {
      SuccessIsClean(r.inv, rank, r.saved, p, r.files, r.plan, r.res, r.after, r.log);
    }
  }

  // --------------------------------------------- what a keep-going failure hides

  /** A plan over the very files whose digests are saved selects nothing. */
  lemma {:induction false} NothingToPlan(inv: Invocation, files: Files, plan: Plan)
    requires PlanFor(inv, Saved(CurrentHashes(inv.recipe.ws, inv.sha, files)), files, plan)
    requires inv.explicit == {} && !inv.forceAll && inv.recipe.ws.targets != map[]
    ensures plan.selected == {}
  {
    var ws := inv.recipe.ws;
    var n :| n in ws.targets;
    assert ws.targets[n].src in AllSources(ws);
    assert ws.targets[n].src in CurrentHashes(ws, inv.sha, files);
    assert plan.changedSources == {};
    assert plan.changedTargets == {};
    assert plan.affected == {};
    assert MissingDepsInside(ws, files, {}) && OfKinds(ws, plan.affected, inv.kinds) <= {};
  }

  lemma {:induction false} EmptyRun(inv: Invocation, rank: Rank, saved: SavedState, files: Files, plan: Plan,
                                    res: RunResult,
                                    after: Files, log: seq<Event>)
    requires Proper(inv, rank) && Built(inv, rank, saved, files, plan, res, after, log) && plan.selected == {}
    ensures res == Finished({}, {}, {}) && after == files
  {
    var g := JobOf(inv, files, plan).Graph();
    NothingSelected(inv, rank, saved, files, plan, res, after, log);
    ClosureIsClosed(DepGraph(inv.recipe.ws), inv.roots);
    PlanIsSound(inv, rank, saved, files, plan);
    EndOf(JobOf(inv, files, plan), rank, inv.Scope(), res, after, log);
    if res.Aborted? {
      FinishedWasStarted(g, inv.slots, log, false, res.failing);
    }
  }

  /** Once execute_plan has run to its end, another build without edits finds nothing to do and
      reports success.  That verdict is right exactly if the first build had no failure. */
  lemma {:induction false} FailuresAreForgotten(r: Round, next: Round, rank: Rank, prior: Files)
    requires Watched(r.inv, rank, r.saved, prior, r.files)
    requires Cold(r.inv, r.saved) || NoneFails(r.inv, rank, prior)
    requires Built(r.inv, rank, r.saved, r.files, r.plan, r.res, r.after, r.log)
    requires r.res.Finished? && r.plan.selected != {}
    requires Follows(r, next) && next.files == r.after && next.inv.explicit == {} && !next.inv.forceAll
    requires Proper(next.inv, rank)
    requires Built(next.inv, rank, next.saved, next.files, next.plan, next.res, next.after, next.log)
    ensures next.plan.selected == {} && next.res == Finished({}, {}, {}) && next.after == r.after
    ensures NoneFails(next.inv, rank, next.files) <==> r.res.failed == {}
  {
    SameProjectScope(r.inv, next.inv, r.depfiles);
    var n :| n in r.plan.selected;
    assert n in next.inv.recipe.ws.targets;
    NothingToPlan(next.inv, next.files, next.plan);
    EmptyRun(next.inv, rank, next.saved, next.files, next.plan, next.res, next.after, next.log);
    VerdictIsRight(r.inv, rank, r.saved, prior, r.files, r.plan, r.res, r.after, r.log);
    RunEnds(r.inv, rank, r.saved, r.files, r.plan, r.res, r.after, r.log);
    SameVerdict(r.inv, next.inv, r.depfiles, rank, r.files, r.after);
  }

  /** The failed targets asked for it, and still have the outputs they had, stale or not. */
  ghost predicate LeftAlone(r: Recipe, failed: set<Name>, before: Files, after: Files) {
    forall n :: n in failed ==> n in r.ws.targets && Fails(r, before, n) && Untouched(r.ws, before, after, n)
  }

  /** So whenever a source starts to ask for failure, a keep-going build says so, and the one after
      it does not. */
  lemma {:induction false} FailureIsForgotten(r: Round, next: Round, rank: Rank, prior: Files)
    requires Watched(r.inv, rank, r.saved, prior, r.files) && r.inv.keepGoing
    requires Cold(r.inv, r.saved) || NoneFails(r.inv, rank, prior)
    requires !NoneFails(r.inv, rank, r.files)
    requires Built(r.inv, rank, r.saved, r.files, r.plan, r.res, r.after, r.log)
    requires Follows(r, next) && next.files == r.after && next.inv.explicit == {} && !next.inv.forceAll
    requires Proper(next.inv, rank)
    requires Built(next.inv, rank, next.saved, next.files, next.plan, next.res, next.after, next.log)
    ensures r.res.Finished? && r.res.failed != {}
    ensures next.res == Finished({}, {}, {}) && next.after == r.after && !NoneFails(next.inv, rank, next.after)
    ensures LeftAlone(r.inv.recipe, r.res.failed, r.files, next.after)
  {
    RunEnds(r.inv, rank, r.saved, r.files, r.plan, r.res, r.after, r.log);
    forall n | n in r.res.failed
      ensures n in r.inv.Scope() && Untouched(r.inv.recipe.ws, r.files, r.after, n) && Fails(r.inv.recipe, r.files, n)
    {
      assert EndsAs(JobOf(r.inv, r.files, r.plan), rank, r.after, r.log, n);
    }
    VerdictIsRight(r.inv, rank, r.saved, prior, r.files, r.plan, r.res, r.after, r.log);
    FailuresAreForgotten(r, next, rank, prior);
  }

  lemma {:induction false} SameVerdict(a: Invocation, b: Invocation, depfiles: map<Name, seq<Path>>, rank: Rank,
                                       files: Files, files': Files)
    requires SameProject(a, b, depfiles) && Proper(a, rank) && Proper(b, rank)
    requires forall n :: n in a.Scope() ==> SameAt(files, files', a.recipe.ws.targets[n].src)
    ensures NoneFails(a, rank, files) <==> NoneFails(b, rank, files')
  {
    SameProjectScope(a, b, depfiles);
    forall n | n in a.Scope()
      ensures Fails(a.recipe, files, n) == Fails(b.recipe, files', n)
    {
      assert SameAt(files, files', a.recipe.ws.targets[n].src);
    }
  }

  // --------------------------------------------- what an interrupted build hides

  ghost predicate SameSources(ws: Workspace, a: Files, b: Files) {
    forall rel :: rel in AllSources(ws) ==> SameAt(a, b, rel)
  }

  lemma {:induction false} SameSourcesSameDigests(inv: Invocation, a: Files, b: Files)
    requires SameSources(inv.recipe.ws, a, b)
    ensures CurrentHashes(inv.recipe.ws, inv.sha, a) == CurrentHashes(inv.recipe.ws, inv.sha, b)
  {
  }

  /** A failure cuts a build short, and the edit is taken back.  The digests saved before the edit
      describe the sources again, so the next build does nothing, and an output the first one wrote
      stays that of the edit. */
  lemma {:induction false} InterruptedIsForgotten(r: Round, next: Round, rank: Rank, prior: Files, n: Name)
    requires Eligible(r.inv, rank, r.saved, prior, r.files)
    requires Built(r.inv, rank, r.saved, r.files, r.plan, r.res, r.after, r.log) && r.res.Aborted?
    requires Follows(r, next) && next.inv.explicit == {} && !next.inv.forceAll && Proper(next.inv, rank)
    requires r.saved == Saved(CurrentHashes(next.inv.recipe.ws, next.inv.sha, prior))
    requires SameSources(next.inv.recipe.ws, prior, next.files)
    requires Built(next.inv, rank, next.saved, next.files, next.plan, next.res, next.after, next.log)
    requires n in r.inv.Scope() && !Untouched(r.inv.recipe.ws, r.files, r.after, n)
    requires next.inv.recipe.ws.targets[n].out in next.files
    ensures next.res == Finished({}, {}, {}) && next.after == next.files
    ensures HasClean(next.inv.recipe, rank, r.files, next.after, n)
    ensures Clean(next.inv.recipe, rank, next.after, n) == Clean(next.inv.recipe, rank, prior, n)
  {
    SameProjectScope(r.inv, next.inv, r.depfiles);
    BuildEnds(r.inv, rank, r.saved, prior, r.files, r.plan, r.res, r.after, r.log);
    assert EndsClean(JobOf(r.inv, r.files, r.plan), rank, r.after, r.log, n);
    SameSourcesSameDigests(next.inv, prior, next.files);
    NothingToPlan(next.inv, next.files, next.plan);
    EmptyRun(next.inv, rank, next.saved, next.files, next.plan, next.res, next.after, next.log);
    CleanIgnoresDepfiles(r.inv.recipe, r.depfiles, rank, r.files, n);
    RestoredClean(next.inv, rank, prior, next.files, n);
  }

  lemma {:induction false} RestoredClean(inv: Invocation, rank: Rank, prior: Files, files: Files, n: Name)
    requires Proper(inv, rank) && SameSources(inv.recipe.ws, prior, files) && n in inv.Scope()
    ensures Clean(inv.recipe, rank, files, n) == Clean(inv.recipe, rank, prior, n)
  {
    ClosureIsClosed(DepGraph(inv.recipe.ws), inv.roots);
    forall m | m in inv.Scope()
      ensures SameAt(files, prior, inv.recipe.ws.targets[m].src)
    {
      assert inv.recipe.ws.targets[m].src in AllSources(inv.recipe.ws);
    }
    CleanAgrees(inv.recipe, rank, rank, inv.Scope(), files, prior, n);
  }
}
