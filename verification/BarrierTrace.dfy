/** What the labels in a hit stand for, in terms of the run itself: which step marked, which step
    opened the scan, what was read when, and that it all belongs to one request. */
module BarrierTrace {
  import opened Daemon
  import opened BarrierProtocol
  import opened Wrappers

  /** Step k put a marker behind the workspace t, and that barrier is still the current one at i. */
  ghost predicate MarkedAt(trace: seq<World>, steps: seq<Step>, k: nat, i: nat, t: Tree)
    requires |trace| == |steps| + 1 && i < |trace|
  {
    k < i && steps[k].Mark? && trace[k].ws == t && forall m :: k < m <= i ==> MarkedTree(trace[m].barrier) == Some(t)
  }

  lemma {:induction false} MarkIsInTrace(trace: seq<World>, steps: seq<Step>, i: nat) returns (k: nat)
    requires Run(trace, steps) && i < |trace| && MarkedTree(trace[i].barrier).Some?
    ensures MarkedAt(trace, steps, k, i, MarkedTree(trace[i].barrier).value)
  {
    var w := trace[i - 1];
    assert Enabled(w, steps[i - 1]) && trace[i] == Next(w, steps[i - 1]);
    if steps[i - 1].Mark? {
      k := i - 1;
    } else {
      k := MarkIsInTrace(trace, steps, i - 1);
    }
  }

  /** The key the server thread is busy with on a fast path. */
  function BusyWith(ph: Phase): Option<Key> {
    match ph
    case Probing(key, _) => Some(key)
    case CachedGate(key, _) => Some(key)
    case FullOpen(key) => Some(key)
    case FullScan(key, _, _, _) => Some(key)
    case FullClose(key, _, _, _, _) => Some(key)
    case _ => None
  }

  /** Step a accepted the request for this key that is still being served at i. */
  ghost predicate AcceptedAt(trace: seq<World>, steps: seq<Step>, a: nat, i: nat, key: Key)
    requires |trace| == |steps| + 1 && i < |trace|
  {
    && a < i && steps[a] == Accept(key) && trace[a].phase.Idle?
    && forall m :: a < m <= i ==> BusyWith(trace[m].phase) == Some(key)
  }

  lemma {:induction false} BusyStep(w: World, s: Step)
    requires Enabled(w, s) && BusyWith(Next(w, s).phase).Some?
    ensures if s.Accept? then w.phase.Idle? && BusyWith(Next(w, s).phase) == Some(s.key)
            else BusyWith(w.phase) == BusyWith(Next(w, s).phase)
  {
  }

  lemma {:induction false} AcceptIsInTrace(trace: seq<World>, steps: seq<Step>, i: nat) returns (a: nat)
    requires Run(trace, steps) && i < |trace| && BusyWith(trace[i].phase).Some?
    ensures AcceptedAt(trace, steps, a, i, BusyWith(trace[i].phase).value)
  {
    var w := trace[i - 1];
    assert Enabled(w, steps[i - 1]) && trace[i] == Next(w, steps[i - 1]);
    BusyStep(w, steps[i - 1]);
    if steps[i - 1].Accept? {
      a := i - 1;
    } else {
      a := AcceptIsInTrace(trace, steps, i - 1);
    }
  }

  /** Some step between b and i read this path, and found this. */
  ghost predicate ReadBetween(trace: seq<World>, steps: seq<Step>, b: nat, i: nat, p: Path, content: Option<string>)
    requires |trace| == |steps| + 1 && i < |trace|
  {
    exists c :: b < c < i && steps[c] == Read(p) && content == Lookup(trace[c].ws, p)
  }

  /** Step b opened this scan, whose readings were all made between b and i. */
  ghost predicate ScannedAt(trace: seq<World>, steps: seq<Step>, b: nat, i: nat, scan: Proof)
    requires |trace| == |steps| + 1 && i < |trace|
  {
    && b < i && steps[b].OpenDecide? && trace[b].ws == scan.base
    && forall r :: 0 <= r < |scan.readings| ==> ReadBetween(trace, steps, b, i, scan.readings[r].0, scan.readings[r].1)
  }

  ghost predicate Scanned(trace: seq<World>, steps: seq<Step>, i: nat, scan: Proof)
    requires |trace| == |steps| + 1 && i < |trace|
  {
    exists b :: ScannedAt(trace, steps, b, i, scan)
  }

  lemma {:induction false} ScannedLater(trace: seq<World>, steps: seq<Step>, b: nat, i: nat, scan: Proof)
    requires |trace| == |steps| + 1 && i + 1 < |trace| && ScannedAt(trace, steps, b, i, scan)
    ensures ScannedAt(trace, steps, b, i + 1, scan)
  {
    forall r | 0 <= r < |scan.readings|
      ensures ReadBetween(trace, steps, b, i + 1, scan.readings[r].0, scan.readings[r].1)
    {
      assert ReadBetween(trace, steps, b, i, scan.readings[r].0, scan.readings[r].1);
    }
  }

  lemma {:induction false} OneMoreRead(trace: seq<World>, steps: seq<Step>, b: nat, i: nat, scan: Proof, p: Path)
    requires |trace| == |steps| + 1 && i + 1 < |trace| && ScannedAt(trace, steps, b, i, scan) && steps[i] == Read(p)
    ensures ScannedAt(trace, steps, b, i + 1, Proof(scan.base, scan.readings + [(p, Lookup(trace[i].ws, p))]))
  {
    ScannedLater(trace, steps, b, i, scan);
    assert ReadBetween(trace, steps, b, i + 1, p, Lookup(trace[i].ws, p));
  }

  predicate Scanning(ph: Phase) {
    ph.FullScan? || ph.FullClose?
  }

  lemma {:induction false} ScanStep(w: World, s: Step)
    requires Enabled(w, s) && Scanning(Next(w, s).phase)
    ensures s.OpenDecide? ==> Next(w, s).phase.scan == Proof(w.ws, [])
    ensures !s.OpenDecide? ==> Scanning(w.phase)
    ensures !s.OpenDecide? && s.Read? ==>
              Next(w, s).phase.scan
              == Proof(w.phase.scan.base, w.phase.scan.readings + [(s.path, Lookup(w.ws, s.path))])
    ensures !s.OpenDecide? && !s.Read? ==> Next(w, s).phase.scan == w.phase.scan
  {
  }

  lemma {:induction false} ScanGoesOn(trace: seq<World>, steps: seq<Step>, b: nat, i: nat)
    requires |trace| == |steps| + 1 && i < |steps| && Enabled(trace[i], steps[i])
    requires trace[i + 1] == Next(trace[i], steps[i])
    requires Scanning(trace[i].phase) && Scanning(trace[i + 1].phase) && !steps[i].OpenDecide?
    requires ScannedAt(trace, steps, b, i, trace[i].phase.scan)
    ensures ScannedAt(trace, steps, b, i + 1, trace[i + 1].phase.scan)
  {
    ScanStep(trace[i], steps[i]);
    if steps[i].Read? {
      OneMoreRead(trace, steps, b, i, trace[i].phase.scan, steps[i].path);
    } else {
      ScannedLater(trace, steps, b, i, trace[i].phase.scan);
    }
  }

  /** The scan in progress was opened by a step of the run and has gone on since. */
  lemma {:induction false} ScanIsInTrace(trace: seq<World>, steps: seq<Step>, i: nat) returns (b: nat)
    requires Run(trace, steps) && i < |trace| && Scanning(trace[i].phase)
    ensures ScannedAt(trace, steps, b, i, trace[i].phase.scan)
    ensures forall m :: b < m <= i ==> Scanning(trace[m].phase)
  {
    var w := trace[i - 1];
    assert Enabled(w, steps[i - 1]) && trace[i] == Next(w, steps[i - 1]);
    ScanStep(w, steps[i - 1]);
    if steps[i - 1].OpenDecide? {
      b := i - 1;
    } else {
      b := ScanIsInTrace(trace, steps, i - 1);
      ScanGoesOn(trace, steps, b, i - 1);
    }
  }

  /** While a barrier is past its marker nothing is read. */
  lemma {:induction false} ScanIsOver(trace: seq<World>, steps: seq<Step>, k: nat, j: nat, t: Tree)
    requires Run(trace, steps) && j < |trace| && MarkedAt(trace, steps, k, j, t) && trace[j].phase.FullClose?
    ensures trace[k].phase == trace[j].phase
  {
    var w, s := trace[j - 1], steps[j - 1];
    assert Enabled(w, s) && trace[j] == Next(w, s) && MarkedTree(trace[j].barrier) == Some(t);
    if k < j - 1 {
      assert MarkedTree(w.barrier) == Some(t);
      ScanIsOver(trace, steps, k, j - 1, t);
    }
  }

  /** The proof in the server's hand, or else the stored one, comes from a scan of the run. */
  lemma {:induction false} ProofIsInTrace(trace: seq<World>, steps: seq<Step>, i: nat)
    requires Run(trace, steps) && i < |trace|
    ensures trace[i].d.cached.Some? ==> Scanned(trace, steps, i, trace[i].d.cached.value.proof)
    ensures trace[i].phase.Probing? || trace[i].phase.CachedGate? ==> Scanned(trace, steps, i, trace[i].phase.proof)
  {
    if i > 0 {
      ProofIsInTrace(trace, steps, i - 1);
      var w, s := trace[i - 1], steps[i - 1];
      assert Enabled(w, s) && trace[i] == Next(w, s);
      StoredProofKept(w, s);
      if trace[i].d.cached.Some? {
        var proof := trace[i].d.cached.value.proof;
        var b: nat;
        if s.CloseDecide? && w.d.cached != trace[i].d.cached {
          b := ScanIsInTrace(trace, steps, i - 1);
        } else {
          b :| ScannedAt(trace, steps, b, i - 1, proof);
        }
        ScannedLater(trace, steps, b, i - 1, proof);
      }
      if trace[i].phase.Probing? || trace[i].phase.CachedGate? {
        var proof := trace[i].phase.proof;
        var b :| ScannedAt(trace, steps, b, i - 1, proof);
        ScannedLater(trace, steps, b, i - 1, proof);
      }
    }
  }

  /** Where a stored proof, or one in hand, was a step earlier. */
  lemma {:induction false} StoredProofKept(w: World, s: Step)
    requires Enabled(w, s)
    ensures var v := Next(w, s);
            && (v.d.cached.Some? && v.d.cached != w.d.cached ==>
                  s.CloseDecide? && v.d.cached.value.proof == w.phase.scan)
            && (v.phase.Probing? || v.phase.CachedGate? ==>
                  || ((w.phase.Probing? || w.phase.CachedGate?) && v.phase.proof == w.phase.proof)
                  || (w.d.cached.Some? && v.phase.proof == w.d.cached.value.proof))
  {
    if s.Deliver? {
      NoticeEffect(w.d, w.queue[0]);
    }
  }

  // --------------------------------------------------------------- the hits

  lemma {:induction false} HitHasStep(trace: seq<World>, steps: seq<Step>, i: nat, n: nat) returns (j: nat)
    requires Run(trace, steps) && i < |trace| && n < |trace[i].hits|
    ensures j < i && trace[j + 1].hits == trace[j].hits + [trace[i].hits[n]]
  {
    var w := trace[i - 1];
    assert Enabled(w, steps[i - 1]) && trace[i] == Next(w, steps[i - 1]);
    if n < |w.hits| {
      j := HitHasStep(trace, steps, i - 1, n);
    } else {
      j := i - 1;
    }
  }

  /** Everything relevant that was read is what this workspace holds. */
  ghost predicate Snapshot(scan: Proof, t: Tree) {
    Visible(t) == Visible(scan.base) && ReadsMatch(scan.readings, t)
  }

  lemma {:induction false} CachedHitSource(w: World, s: Step, h: Hit)
    requires Inv(w) && Enabled(w, s) && Next(w, s).hits == w.hits + [h] && h.Cached?
    ensures s.GateDecide? && w.phase == CachedGate(h.key, h.proof) && MarkedTree(w.barrier) == Some(h.marked)
    ensures Snapshot(h.proof, h.marked)
  {
    assert Next(w, s).hits[|w.hits|] == h;
    StepKeepsInv(w, s);
    assert HitOk(Next(w, s).hits[|w.hits|]);
  }

  /** A cached response.  Within the request, after its acceptance at a, step k marked; at that
      moment the workspace was, as far as builds see it, the one at step b, where the scan behind
      the proof began, and held whatever that scan had read since. */
  lemma {:induction false} CachedHitInTrace(trace: seq<World>, steps: seq<Step>, j: nat, h: Hit)
    returns (a: nat, k: nat, b: nat)
    requires Run(trace, steps) && j < |steps| && trace[j + 1].hits == trace[j].hits + [h] && h.Cached?
    ensures AcceptedAt(trace, steps, a, j, h.key) && steps[j] == GateDecide
    ensures a < k < j && MarkedAt(trace, steps, k, j, trace[k].ws)
    ensures ScannedAt(trace, steps, b, j, h.proof)
    ensures Snapshot(h.proof, trace[k].ws) && Visible(trace[k].ws) == Visible(trace[b].ws)
  {
    assert Enabled(trace[j], steps[j]) && trace[j + 1] == Next(trace[j], steps[j]);
    RunKeepsInv(trace, steps, j);
    CachedHitSource(trace[j], steps[j], h);
    a := AcceptIsInTrace(trace, steps, j);
    k := MarkIsInTrace(trace, steps, j);
    NoMarkOnAccept(trace, steps, a, j, k);
    ProofIsInTrace(trace, steps, j);
    b :| ScannedAt(trace, steps, b, j, h.proof);
  }

  /** Accepting a request leaves no barrier on, so the marker came after. */
  lemma {:induction false} NoMarkOnAccept(trace: seq<World>, steps: seq<Step>, a: nat, j: nat, k: nat)
    requires Run(trace, steps) && j < |trace| && a < j && steps[a].Accept?
    requires MarkedTree(trace[j].barrier).Some? && MarkedAt(trace, steps, k, j, MarkedTree(trace[j].barrier).value)
    ensures a < k
  {
    assert Enabled(trace[a], steps[a]) && trace[a + 1] == Next(trace[a], steps[a]);
    assert trace[a + 1].barrier.Off?;
  }

  lemma {:induction false} FullHitSource(w: World, s: Step, h: Hit)
    requires Inv(w) && Enabled(w, s) && Next(w, s).hits == w.hits + [h] && h.Full? && h.ready
    ensures s.CloseDecide? && w.phase.FullClose? && w.phase.key == h.key && w.phase.scan == h.scan
    ensures MarkedTree(w.barrier).Some? && h.end == MarkedTree(w.barrier)
    ensures Snapshot(h.scan, h.end.value)
  {
    assert Next(w, s).hits[|w.hits|] == h;
    StepKeepsInv(w, s);
    assert HitOk(Next(w, s).hits[|w.hits|]);
    ReadsMatchVisible(h.scan.readings, h.scan.base, h.end.value);
  }

  /** A full response behind a passed barrier.  Within the request the scan began at b; at step k,
      after all its reads, the workspace was still the one at b, and held whatever the scan read. */
  lemma {:induction false} FullHitInTrace(trace: seq<World>, steps: seq<Step>, j: nat, h: Hit)
    returns (a: nat, b: nat, k: nat)
    requires Run(trace, steps) && j < |steps| && trace[j + 1].hits == trace[j].hits + [h] && h.Full? && h.ready
    ensures AcceptedAt(trace, steps, a, j, h.key) && steps[j] == CloseDecide
    ensures a < b < k < j && ScannedAt(trace, steps, b, k, h.scan) && MarkedAt(trace, steps, k, j, trace[k].ws)
    ensures Snapshot(h.scan, trace[k].ws) && Visible(trace[k].ws) == Visible(trace[b].ws)
  {
    assert Enabled(trace[j], steps[j]) && trace[j + 1] == Next(trace[j], steps[j]);
    RunKeepsInv(trace, steps, j);
    FullHitSource(trace[j], steps[j], h);
    a := AcceptIsInTrace(trace, steps, j);
    k := MarkIsInTrace(trace, steps, j);
    NoMarkOnAccept(trace, steps, a, j, k);
    ScanIsOver(trace, steps, k, j, trace[k].ws);
    b := ScanIsInTrace(trace, steps, k);
  }
}
