/** The server thread of frostd: watcher_barrier, try_cached_noop, try_full_noop and the Run arm of
    handle, on the shared object of Daemon.  Whatever happens outside, a change of the workspace or
    a call of the watcher callback, may happen before every access of the thread. */
module FrostdServer {
  import opened Daemon
  import opened BarrierProtocol
  import opened Wrappers

  /** Steps that are not the server thread's own. */
  predicate Outside(s: Step) {
    s.Write? || s.Lose? || s.Noise? || s.Echo? || s.Deliver?
  }

  /** What the server thread sees of its own progress. */
  predicate SamePlace(a: World, b: World) {
    a.phase == b.phase && a.barrier == b.barrier && a.hits == b.hits
  }

  /** One scan, perhaps some reads later. */
  predicate SameScan(a: Phase, b: Phase) {
    a.FullScan? && b.FullScan? && a.key == b.key && a.ready == b.ready && a.baseline == b.baseline
  }

  /** How a fast path ends: with a response, with nothing to say, or with an error response. */
  datatype Attempt = Served | Declined | Errored

  datatype Answer = UpToDate | Ran(success: bool) | Error

  /** One more response without a build, for this key, and a sound one. */
  ghost predicate ServedOne(before: seq<Hit>, after: seq<Hit>, key: Key) {
    |after| == |before| + 1 && after[..|before|] == before && after[|before|].key == key && HitOk(after[|before|])
  }

  class Server {
    const shared: SharedState<Proof>
    /** Disk, event queue and progress of the thread; w.d repeats the shared object. */
    var w: World
    /** The run of the protocol so far. */
    ghost var trace: seq<World>
    ghost var steps: seq<Step>

    ghost predicate Valid()
      reads this, shared
    {
      Run(trace, steps) && trace[|steps|] == w && Inv(w) && w.d == shared.Value()
    }

    constructor (ws: Tree)
      ensures Valid() && fresh(shared) && w.phase.Idle? && w.hits == [] && w.ws == ws
    {
      var s := new SharedState();
      shared := s;
      w := World(ws, ws, [], Initial(), Idle, Off, []);
      trace, steps := [World(ws, ws, [], Initial(), Idle, Off, [])], [];
    }

    /** The protocol step that came last. */
    ghost predicate LastStep(s: Step)
      reads this
    {
      steps != [] && steps[|steps| - 1] == s
    }

    /** The step whose effect on the shared object has just taken place. */
    method Advance(s: Step)
      requires Run(trace, steps) && trace[|steps|] == w && Inv(w)
      requires Enabled(w, s) && Next(w, s).d == shared.Value()
      modifies this
      ensures Valid() && w == Next(old(w), s)
      ensures steps == old(steps) + [s] && trace == old(trace) + [w]
    {
      StepKeepsInv(w, s);
      w := Next(w, s);
      trace, steps := trace + [w], steps + [s];
    }

    /** Any steps of the outside. */
    method Others()
      requires Valid()
      modifies this, shared
      ensures Valid() && SamePlace(old(w), w)
    {
      var budget: nat := *;
      while budget > 0
        invariant Valid() && SamePlace(old(w), w)
      {
        budget := budget - 1;
        var s: Step := *;
        if Outside(s) && Enabled(w, s) {
          if s.Deliver? {
            shared.OnEvent(w.queue[0].notice);
          }
          Advance(s);
        }
      }
    }

    /** watcher_barrier once the marker has its number. */
    method AwaitMarker(id: nat) returns (passed: bool)
      requires Valid() && BarrierPhase(w.phase) && w.barrier == Marking(id)
      modifies this, shared
      ensures Valid() && w.phase == old(w.phase) && w.hits == old(w.hits)
      ensures if passed then w.barrier.Passed? else w.barrier.Missed?
    {
      var written: bool := *;
      if !written || id >= U64_LIMIT {
        shared.MarkerFailed();
        Advance(MarkFails);
        return false;
      }
      Advance(Mark(Decimal.Print(id)));
      Others();
      passed := shared.EndBarrier(id);
      Advance(BarrierEnd);
    }

    /** watcher_barrier. */
    method WatcherBarrier() returns (passed: bool)
      requires Valid() && BarrierPhase(w.phase) && w.barrier.Off?
      modifies this, shared
      ensures Valid() && w.phase == old(w.phase) && w.hits == old(w.hits)
      ensures passed <==> w.barrier.Passed?
      ensures !passed ==> w.barrier.Missed?
    {
      Others();
      var id := shared.BeginBarrier();
      Advance(BarrierBegin);
      if id.None? {
        return false;
      }
      Others();
      passed := AwaitMarker(id.value);
    }

    /** The end of try_cached_noop, for a proof that was found valid. */
    method PassGate(key: Key) returns (r: Attempt)
      requires Valid() && w.phase.CachedGate? && w.phase.key == key && w.barrier.Off?
      modifies this, shared
      ensures Valid() && !r.Errored? && LastStep(GateDecide)
      ensures r.Served? ==> w.phase.Idle? && ServedOne(old(w.hits), w.hits, key) && w.hits[|old(w.hits)|].Cached?
      ensures r.Declined? ==> w.phase == FullOpen(key) && w.barrier.Off? && w.hits == old(w.hits)
    {
      var passed := WatcherBarrier();
      Others();
      var open := shared.Gate();
      Advance(GateDecide);
      return if passed && open then Served else Declined;
    }

    /** try_cached_noop; probing the proof reads files only. */
    method TryCachedNoop(key: Key) returns (r: Attempt)
      requires Valid() && w.phase.Idle?
      modifies this, shared
      ensures Valid()
      ensures r.Served? ==> w.phase.Idle? && ServedOne(old(w.hits), w.hits, key) && w.hits[|old(w.hits)|].Cached?
      ensures (r.Served? ==> LastStep(GateDecide)) && (r.Errored? ==> LastStep(Fails))
      ensures r.Declined? ==> w.phase == FullOpen(key) && w.barrier.Off? && w.hits == old(w.hits)
      ensures r.Errored? ==> w.phase.Idle? && w.hits == old(w.hits)
    {
      Others();
      var proof := shared.ReadProof(key);
      Advance(Accept(key));
      if proof.None? {
        return Declined;
      }
      Others();
      var failed: bool, valid: bool := *, *;
      if failed {
        Advance(Fails);
        return Errored;
      }
      if !valid {
        shared.DropProof();
      }
      Advance(Probe(valid));
      if !valid {
        return Declined;
      }
      r := PassGate(key);
    }

    /** The certificate scan: it reads paths, one by one, while others go on. */
    method Scan()
      requires Valid() && w.phase.FullScan?
      modifies this, shared
      ensures Valid() && w.hits == old(w.hits)
      ensures SameScan(old(w.phase), w.phase)
    {
      var budget: nat := *;
      while budget > 0
        invariant Valid() && w.hits == old(w.hits)
        invariant SameScan(old(w.phase), w.phase)
      {
        budget := budget - 1;
        Others();
        var p: Path := *;
        Advance(Read(p));
      }
      Others();
    }

    /** try_full_noop up to the scan. */
    method Open(key: Key) returns (ready: bool, baseline: nat)
      requires Valid() && w.phase == FullOpen(key) && w.barrier.Off?
      modifies this, shared
      ensures Valid() && w.hits == old(w.hits)
      ensures w.phase.FullScan? && w.phase.key == key && w.phase.ready == ready && w.phase.baseline == baseline
    {
      ready := WatcherBarrier();
      Others();
      baseline := shared.OpenScan(ready);
      Advance(OpenDecide);
    }

    /** try_full_noop after a scan that found a certificate. */
    method Close(key: Key, ready: bool, baseline: nat, watchable: bool) returns (r: Attempt)
      requires Valid() && w.phase.FullClose? && w.phase == FullClose(key, ready, baseline, w.phase.scan, watchable)
      requires if ready then w.barrier.Off? else w.barrier.Missed?
      modifies this, shared
      ensures Valid() && !r.Errored? && LastStep(CloseDecide)
      ensures r.Served? ==> w.phase.Idle? && ServedOne(old(w.hits), w.hits, key) && w.hits[|old(w.hits)|].Full?
      ensures r.Declined? ==> w.phase.Child? && w.barrier.Off? && w.hits == old(w.hits)
    {
      var stable := false;
      if ready {
        stable := WatcherBarrier();
      }
      Others();
      var proof := if watchable then Some(w.phase.scan) else None;
      var quiet := shared.CloseScan(stable, baseline, key, proof);
      Advance(CloseDecide);
      return if !ready || quiet then Served else Declined;
    }

    /** try_full_noop. */
    method TryFullNoop(key: Key) returns (r: Attempt)
      requires Valid() && w.phase == FullOpen(key) && w.barrier.Off?
      modifies this, shared
      ensures Valid()
      ensures r.Served? ==> w.phase.Idle? && ServedOne(old(w.hits), w.hits, key) && w.hits[|old(w.hits)|].Full?
      ensures r.Declined? ==> w.phase.Child? && w.barrier.Off? && w.hits == old(w.hits)
      ensures r.Errored? ==> w.phase.Idle? && w.hits == old(w.hits)
      ensures (r.Served? ==> LastStep(CloseDecide)) && (r.Errored? ==> LastStep(Fails))
    {
      var ready, baseline := Open(key);
      Scan();
      var failed: bool, valid: bool, watchable: bool := *, *, *;
      if failed {
        Advance(Fails);
        return Errored;
      }
      Advance(ScanDone(valid, watchable));
      if !valid {
        return Declined;
      }
      r := Close(key, ready, baseline, watchable);
    }

    /** After a successful child build: wait for its events, and forget what they said. */
    method DrainChild()
      requires Valid() && w.phase.ChildDrain? && w.barrier.Off?
      modifies this, shared
      ensures Valid() && w.phase.Idle? && w.hits == old(w.hits) && LastStep(DrainDecide)
      ensures shared.cached.None? && shared.dirty == {}
    {
      var drained := WatcherBarrier();
      Others();
      shared.AfterChild();
      Advance(DrainDecide);
    }

    /** The child build, which writes like anybody else. */
    method RunChild() returns (a: Answer)
      requires Valid() && w.phase.Child? && w.barrier.Off?
      modifies this, shared
      ensures Valid() && w.phase.Idle? && w.hits == old(w.hits) && !a.UpToDate?
      ensures a == Ran(true) ==> shared.cached.None? && shared.dirty == {}
      ensures LastStep(if a.Error? then Fails else if a.success then DrainDecide else ChildDone(false))
    {
      Others();
      var spawned: bool, success: bool := *, *;
      if !spawned {
        Advance(Fails);
        return Error;
      }
      Advance(ChildDone(success));
      if success {
        DrainChild();
      }
      return Ran(success);
    }

    /** The Run arm of handle, with or without a fast path. */
    method Handle(fast: Option<Key>) returns (a: Answer)
      requires Valid() && w.phase.Idle?
      modifies this, shared
      ensures Valid() && w.phase.Idle?
      ensures a.UpToDate? ==> fast.Some? && ServedOne(old(w.hits), w.hits, fast.value)
      ensures !a.UpToDate? ==> w.hits == old(w.hits)
      ensures match a
              case UpToDate => LastStep(GateDecide) || LastStep(CloseDecide)
              case Error => LastStep(Fails)
              case Ran(success) => LastStep(if success then DrainDecide else ChildDone(false))
    {
      if fast.None? {
        Others();
        Advance(AcceptPlain);
      } else {
        var r := TryCachedNoop(fast.value);
        if r.Declined? {
          r := TryFullNoop(fast.value);
        }
        if r.Served? {
          return UpToDate;
        } else if r.Errored? {
          return Error;
        }
      }
      a := RunChild();
    }

    /** The accept loop of serve: over a whole run every up-to-date answer has a sound hit of its
        own behind it, for the key that was asked. */
    method Serve(requests: seq<Option<Key>>) returns (answers: seq<Answer>)
      requires Valid() && w.phase.Idle? && w.hits == []
      modifies this, shared
      ensures Valid() && |answers| == |requests| && |w.hits| == Count(answers)
      ensures forall i :: 0 <= i < |answers| ==> Backed(requests[i], answers, w.hits, i)
    {
      answers := [];
      for i := 0 to |requests|
        invariant Valid() && w.phase.Idle? && |answers| == i && |w.hits| == Count(answers)
        invariant forall k :: 0 <= k < i ==> Backed(requests[k], answers, w.hits, k)
      {
        ghost var before, hits := answers, w.hits;
        var a := Handle(requests[i]);
        answers := answers + [a];
        BackedStays(requests, before, a, hits, w.hits);
      }
    }
  }

  function Count(answers: seq<Answer>): nat {
    if answers == [] then 0
    else Count(answers[..|answers| - 1]) + if answers[|answers| - 1].UpToDate? then 1 else 0
  }

  /** If answer i says up to date, the hit with as many hits before it as there were such answers
      is for the request's key, and sound. */
  ghost predicate Backed(request: Option<Key>, answers: seq<Answer>, hits: seq<Hit>, i: nat)
    requires i < |answers|
  {
    answers[i].UpToDate? ==>
      var k := Count(answers[..i]);
      request.Some? && k < |hits| && hits[k].key == request.value && HitOk(hits[k])
  }

  lemma {:induction false} BackedStays(requests: seq<Option<Key>>, answers: seq<Answer>, a: Answer, hits: seq<Hit>,
                                       hits': seq<Hit>)
    requires |answers| < |requests| && |hits| == Count(answers)
    requires forall k :: 0 <= k < |answers| ==> Backed(requests[k], answers, hits, k)
    requires if a.UpToDate?
             then requests[|answers|].Some? && ServedOne(hits, hits', requests[|answers|].value)
             else hits' == hits
    ensures |hits'| == Count(answers + [a])
    ensures forall k :: 0 <= k <= |answers| ==> Backed(requests[k], answers + [a], hits', k)
  {
    var longer := answers + [a];
    assert longer[..|answers|] == answers;
    forall k | 0 <= k < |answers|
      ensures Backed(requests[k], longer, hits', k)
    {
      assert longer[..k] == answers[..k];
      assert Backed(requests[k], answers, hits, k);
      assert answers[k].UpToDate? ==> hits'[Count(answers[..k])] == hits[Count(answers[..k])];
    }
  }
}
