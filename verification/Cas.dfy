/** LocalCas: putting files into the store and restoring them.  Every access to the shared
    directory is preceded by whatever other writers may do there, so what a method promises
    holds for every interleaving with them. */
module Cas {
  import opened Wrappers
  import opened Word64
  import opened FastCdc
  import opened Store

  /** What may happen to the store between two accesses of a thread.  Alone: nothing.  Peers: the
      other workers of the same call run, and none of them loses an entry that passed its check in
      `base`, when the call began.  Helped: others add.  Contended: anything that keeps a good store
      good, collections included. */
  datatype Setting = Alone | Peers(base: Disk) | Helped | Contended

  /** Nothing that is there now is taken away by others. */
  predicate Steady(setting: Setting) {
    setting.Alone? || setting.Helped?
  }

  /** What restoring, and the others, may have done to the store. */
  predicate Kept(setting: Setting, z: Codec, s: Disk, t: Disk) {
    && (Good(z, s) ==> Good(z, t))
    && (setting.Alone? ==> OnlyRepairs(s, t))
    && (Good(z, s) && Steady(setting) ==> Grows(s, t))
  }

  lemma {:induction false} KeptTransitive(setting: Setting, z: Codec, s: Disk, t: Disk, u: Disk)
    requires Kept(setting, z, s, t) && Kept(setting, z, t, u)
    ensures Kept(setting, z, s, u)
  {
    if setting.Alone? {
      RepairsTransitive(s, t, u);
    }
    if Good(z, s) && Steady(setting) {
      GrowsTransitive(s, t, u);
    }
  }

  /** Removing an entry that failed its check. */
  lemma {:induction false} DiscardIsKept(setting: Setting, z: Codec, s: Disk, e: Entry)
    requires FailsCheck(s, e)
    ensures Kept(setting, z, s, RemoveEntry(s, e))
  {
  }

  predicate Has(s: Disk, e: Entry) {
    match e
    case Object(d) => d in s.objects
    case Chunk(d) => d in s.chunks
    case ManifestOf(d) => d in s.manifests
    case Patch(t, p) => (t, p) in s.patches
  }

  predicate FailsCheck(s: Disk, e: Entry) {
    match e
    case Object(d) => d in s.objects && NameOf(s.objects[d]) != d
    case Chunk(d) => d in s.chunks && !GoodChunk(d, s.chunks[d])
    case ManifestOf(d) => d in s.manifests && BadManifest(d, s.manifests[d])
    case Patch(t, p) => (t, p) in s.patches && !GoodPatch((t, p), s.patches[(t, p)])
  }

  lemma {:induction false} GoodNeverFails(z: Codec, s: Disk, e: Entry)
    requires Good(z, s)
    ensures !FailsCheck(s, e)
  {
  }

  lemma {:induction false} DiscardAfterKept(setting: Setting, z: Codec, s: Disk, atRead: Disk, after: Disk, e: Entry)
    requires Kept(setting, z, s, atRead) && FailsCheck(atRead, e)
    requires setting.Alone? ==> after == RemoveEntry(atRead, e)
    ensures Kept(setting, z, s, after)
  {
    if Good(z, atRead) {
      GoodNeverFails(z, atRead, e);
    } else if setting.Alone? {
      DiscardIsKept(setting, z, atRead, e);
      RepairsTransitive(s, atRead, after);
    }
  }

  /** Entries that pass their check survive unchanged. */
  predicate Survives(s: Disk, t: Disk) {
    && (forall d {:trigger s.objects[d]} :: d in s.objects && NameOf(s.objects[d]) == d ==>
           d in t.objects && t.objects[d] == s.objects[d])
    && (forall d {:trigger s.chunks[d]} :: d in s.chunks && GoodChunk(d, s.chunks[d]) ==>
           d in t.chunks && t.chunks[d] == s.chunks[d])
    && (forall d {:trigger s.manifests[d]} :: d in s.manifests && !BadManifest(d, s.manifests[d]) ==>
           d in t.manifests && t.manifests[d] == s.manifests[d])
    && (forall k {:trigger s.patches[k]} :: k in s.patches && GoodPatch(k, s.patches[k]) ==>
           k in t.patches && t.patches[k] == s.patches[k])
  }

  lemma {:induction false} SurvivesTransitive(s: Disk, t: Disk, u: Disk)
    requires Survives(s, t) && Survives(t, u)
    ensures Survives(s, u)
  {
  }

  /** An entry that is not, or fails its check in base, may go. */
  predicate Spare(base: Disk, e: Entry) {
    Has(base, e) ==> FailsCheck(base, e)
  }

  /** What a worker finds failing was so, or missing, when the call began. */
  lemma {:induction false} FailingIsSpare(base: Disk, s: Disk, e: Entry)
    requires Survives(base, s) && FailsCheck(s, e)
    ensures Spare(base, e)
  {
  }

  lemma {:induction false} SpareMayGo(base: Disk, s: Disk, e: Entry)
    requires Survives(base, s) && Spare(base, e)
    ensures Survives(base, RemoveEntry(s, e))
  {
  }

  lemma {:induction false} PublishedMayCome(base: Disk, s: Disk, step: Step)
    requires Survives(base, s) && !step.Remove?
    requires step.PutManifest? ==>
               var d := step.manifest.digest; d !in base.manifests || BadManifest(d, base.manifests[d])
    ensures Survives(base, Apply(s, step))
  {
  }

  /** Two workers of one call meet at a damaged chunk.  Both read it; one removes it and rebuilds it
      for another reference; the slow one then removes what it takes for the damaged file.  A chunk
      that passes its check is gone, and still nothing that passed when the call began. */
  lemma {:induction false} SlowWorkerUndoesRepair(s: Disk, content: Bytes)
    requires FailsCheck(s, Chunk(Sha(content)))
    ensures var e := Chunk(Sha(content));
            var rebuilt := Apply(RemoveEntry(s, e), PutChunk(content));
            var after := RemoveEntry(rebuilt, e);
            && Has(rebuilt, e) && !FailsCheck(rebuilt, e) && !Has(after, e) && !OnlyRepairs(rebuilt, after)
            && Spare(s, e) && Survives(s, rebuilt) && Survives(s, after)
  {
    var e := Chunk(Sha(content));
    var rebuilt := Apply(RemoveEntry(s, e), PutChunk(content));
    SpareMayGo(s, s, e);
    PublishedMayCome(s, RemoveEntry(s, e), PutChunk(content));
    SpareMayGo(s, rebuilt, e);
  }

  // -------------------------------------------------------- positioned writes

  lemma {:induction false} TotalGrows(refs: seq<ChunkRef>, i: nat, j: nat)
    requires i <= j <= |refs|
    ensures Total(refs[..i]) <= Total(refs[..j])
    decreases j
  {
    if i < j {
      assert refs[..j][..j - 1] == refs[..j - 1];
      TotalGrows(refs, i, j - 1);
    }
  }

  /** The range of reference i holds the bytes it names. */
  predicate Placed(out: Bytes, refs: seq<ChunkRef>, i: nat)
    requires i < |refs|
  {
    var start := Total(refs[..i]);
    && refs[i].sha.Sha? && |refs[i].sha.bytes| == refs[i].length && start + refs[i].length <= |out|
    && out[start..start + refs[i].length] == refs[i].sha.bytes
  }

  lemma {:induction false} TotalNext(refs: seq<ChunkRef>, i: nat)
    requires i < |refs|
    ensures Total(refs[..i + 1]) == Total(refs[..i]) + refs[i].length
    ensures Contents(refs[..i + 1]) == Contents(refs[..i]) + Piece(refs[i])
    ensures Names(refs[..i + 1]) == Names(refs[..i]) + {refs[i].sha}
  {
    assert refs[..i + 1][..i] == refs[..i];
  }

  lemma {:induction false} TotalFits(refs: seq<ChunkRef>, i: nat)
    requires i < |refs|
    ensures Total(refs[..i]) + refs[i].length <= Total(refs)
  {
    TotalNext(refs, i);
    TotalGrows(refs, i + 1, |refs|);
    assert refs[..|refs|] == refs;
  }

  /** Ranges of different references do not overlap. */
  lemma {:induction false} RangesApart(refs: seq<ChunkRef>, i: nat, k: nat)
    requires i < k < |refs|
    ensures Total(refs[..i]) + refs[i].length <= Total(refs[..k])
  {
    TotalNext(refs, i);
    TotalGrows(refs, i + 1, k);
  }

  lemma {:induction false} SliceOutside(out: Bytes, after: Bytes, lo: nat, hi: nat, a: nat, b: nat)
    requires SameOutside(out, after, lo, hi) && a <= b <= |out| && (b <= lo || hi <= a)
    ensures after[a..b] == out[a..b]
  {
  }

  /** A write to one range leaves the others placed. */
  lemma {:induction false} WriteElsewhere(out: Bytes, after: Bytes, refs: seq<ChunkRef>, k: nat, i: nat)
    requires i < |refs| && k < |refs| && i != k && Placed(out, refs, i)
    requires SameOutside(out, after, Total(refs[..k]), Total(refs[..k]) + refs[k].length)
    ensures Placed(after, refs, i)
  {
    if i < k {
      RangesApart(refs, i, k);
    } else {
      RangesApart(refs, k, i);
    }
    var start := Total(refs[..i]);
    SliceOutside(out, after, Total(refs[..k]), Total(refs[..k]) + refs[k].length, start, start + refs[i].length);
  }

  predicate SameOutside(a: Bytes, b: Bytes, lo: nat, hi: nat) {
    |a| == |b| && forall j {:trigger b[j]} :: 0 <= j < |a| && !(lo <= j < hi) ==> b[j] == a[j]
  }

  lemma {:induction false} PlacedStep(out: Bytes, refs: seq<ChunkRef>, n: nat)
    requires n < |refs| && Placed(out, refs, n)
    requires out[..Total(refs[..n])] == Contents(refs[..n])
    ensures Total(refs[..n + 1]) <= |out| && out[..Total(refs[..n + 1])] == Contents(refs[..n + 1])
  {
    TotalNext(refs, n);
    TakeMore(out, Total(refs[..n]), refs[n].length);
  }

  /** The ranges tile the file: once all are placed, in whatever order, the file is the
      concatenation. */
  lemma {:induction false} PlacedIsContents(out: Bytes, refs: seq<ChunkRef>, n: nat)
    requires n <= |refs| && AllPlaced(out, refs, n)
    ensures Total(refs[..n]) <= |out| && out[..Total(refs[..n])] == Contents(refs[..n])
    decreases n
  {
    if n > 0 {
      PlacedIsContents(out, refs, n - 1);
      assert Placed(out, refs, n - 1);
      PlacedStep(out, refs, n - 1);
    }
  }

  lemma {:induction false} Tiled(out: Bytes, refs: seq<ChunkRef>)
    requires |out| == Total(refs) && AllPlaced(out, refs, |refs|)
    ensures out == Contents(refs)
  {
    PlacedIsContents(out, refs, |refs|);
    assert refs[..|refs|] == refs && out[..|out|] == out;
  }

  lemma {:induction false} TakeMore(out: Bytes, start: nat, length: nat)
    requires start + length <= |out|
    ensures out[..start + length] == out[..start] + out[start..start + length]
  {
  }

  // ------------------------------------------------------------------ the store

  function WithChunk(s: Disk, d: Digest): Disk {
    if d.Sha? then Apply(s, PutChunk(d.bytes)) else s
  }

  predicate DeltaAvailable(s: Disk, r: ChunkRef) {
    r.delta.Some? && r.delta.value.base in s.chunks && (r.sha, r.delta.value.patch) in s.patches
  }

  /** What the restoration of one chunk promises about its answer. */
  predicate Answers(setting: Setting, z: Codec, s: Disk, r: ChunkRef, available: bool, got: bool, t: Disk) {
    Good(z, s) && GoodRef(z, r) ==>
      && (Steady(setting) && available ==> got)
      && (setting.Alone? ==> got == available && t == if got then WithChunk(s, r.sha) else s)
  }

  predicate AllGoodRefs(z: Codec, refs: seq<ChunkRef>) {
    forall i {:trigger refs[i]} :: 0 <= i < |refs| ==> GoodRef(z, refs[i])
  }

  predicate AllObtainable(s: Disk, refs: seq<ChunkRef>) {
    forall i {:trigger refs[i]} :: 0 <= i < |refs| ==> Obtainable(s, refs[i])
  }

  predicate AllPlaced(out: Bytes, refs: seq<ChunkRef>, n: nat)
    requires n <= |refs|
  {
    forall i {:trigger Placed(out, refs, i)} :: 0 <= i < n ==> Placed(out, refs, i)
  }

  lemma {:induction false} PlaceNext(before: Bytes, after: Bytes, refs: seq<ChunkRef>, n: nat)
    requires n < |refs| && AllPlaced(before, refs, n) && Placed(after, refs, n)
    requires SameOutside(before, after, Total(refs[..n]), Total(refs[..n]) + refs[n].length)
    ensures AllPlaced(after, refs, n + 1)
  {
    forall i | 0 <= i < n
      ensures Placed(after, refs, i)
    {
      WriteElsewhere(before, after, refs, n, i);
    }
  }

  /** The store once the chunks of refs are all there. */
  function WithNames(s: Disk, refs: seq<ChunkRef>): Disk {
    if refs == [] then s else WithChunk(WithNames(s, refs[..|refs| - 1]), refs[|refs| - 1].sha)
  }

  lemma {:induction false} WithNamesAdds(z: Codec, s: Disk, refs: seq<ChunkRef>, n: nat)
    requires AllGoodRefs(z, refs) && n <= |refs|
    ensures WithNames(s, refs[..n]).chunks.Keys == s.chunks.Keys + Names(refs[..n])
    ensures WithNames(s, refs[..n]).patches == s.patches
    decreases n
  {
    if n > 0 {
      WithNamesAdds(z, s, refs, n - 1);
      assert refs[..n][..n - 1] == refs[..n - 1];
      assert refs[n - 1].sha.Sha?;
    }
  }

  /** Working alone on a good store, the loop is still ready after n references exactly when each
      was available in its turn, and it has added their chunks and nothing else. */
  predicate InOrderSoFar(s: Disk, refs: seq<ChunkRef>, n: nat, ready: bool, t: Disk)
    requires n <= |refs|
  {
    (ready <==> ReadyInOrder(s, refs[..n])) && (ready ==> t == WithNames(s, refs[..n]))
  }

  lemma {:induction false} InOrderStep(z: Codec, s: Disk, refs: seq<ChunkRef>, n: nat, ready: bool, t: Disk, ok: bool,
                                       u: Disk)
    requires n < |refs| && AllGoodRefs(z, refs) && InOrderSoFar(s, refs, n, ready, t)
    requires ok == Obtainable(t, refs[n]) && u == if ok then WithChunk(t, refs[n].sha) else t
    ensures InOrderSoFar(s, refs, n + 1, ready && ok, u)
  {
    assert refs[..n + 1][..n] == refs[..n];
    WithNamesAdds(z, s, refs, n);
  }

  /** The references of an order are the given ones. */
  ghost predicate SameRefs(order: seq<ChunkRef>, refs: seq<ChunkRef>) {
    forall r :: r in order <==> r in refs
  }

  /** In some order of the references each is available in its turn. */
  ghost predicate ReadyInSomeOrder(s: Disk, refs: seq<ChunkRef>) {
    exists order: seq<ChunkRef> :: SameRefs(order, refs) && ReadyInOrder(s, order)
  }

  ghost predicate FromChunksInSomeOrder(s: Disk, d: Digest) {
    d in s.manifests && s.manifests[d].Some? && ReadyInSomeOrder(s, s.manifests[d].value.chunks)
  }

  /** The references outside pending have been restored, in this order, and nothing else happened. */
  predicate RestoredSoFar(s: Disk, refs: seq<ChunkRef>, pending: set<nat>, order: seq<ChunkRef>, t: Disk) {
    && (forall r :: r in order ==> r in refs)
    && (forall i {:trigger refs[i]} :: 0 <= i < |refs| && i !in pending ==> refs[i] in order)
    && ReadyInOrder(s, order) && t == WithNames(s, order)
  }

  lemma {:induction false} RestoreOne(z: Codec, s: Disk, refs: seq<ChunkRef>, pending: set<nat>, order: seq<ChunkRef>,
                                      t: Disk, k: nat)
    requires AllGoodRefs(z, refs) && RestoredSoFar(s, refs, pending, order, t)
    requires k < |refs| && Obtainable(t, refs[k])
    ensures RestoredSoFar(s, refs, pending - {k}, order + [refs[k]], WithChunk(t, refs[k].sha))
  {
    var more := order + [refs[k]];
    forall i | 0 <= i < |order|
      ensures GoodRef(z, order[i])
    {
      assert order[i] in refs;
    }
    WithNamesAdds(z, s, order, |order|);
    assert order[..|order|] == order && more[..|order|] == order;
  }

  lemma {:induction false} AllRestored(s: Disk, refs: seq<ChunkRef>, order: seq<ChunkRef>, t: Disk)
    requires RestoredSoFar(s, refs, {}, order, t)
    ensures ReadyInSomeOrder(s, refs)
  {
    forall r | r in refs
      ensures r in order
    {
      var i :| 0 <= i < |refs| && refs[i] == r;
    }
    assert SameRefs(order, refs);
  }

  function Below(n: nat): (r: set<nat>)
    ensures forall k: nat :: k in r <==> k < n
  {
    if n == 0 then {} else Below(n - 1) + {n - 1}
  }

  predicate AllPlacedExcept(out: Bytes, refs: seq<ChunkRef>, pending: set<nat>) {
    forall i {:trigger Placed(out, refs, i)} :: 0 <= i < |refs| && i !in pending ==> Placed(out, refs, i)
  }

  lemma {:induction false} PlaceOne(before: Bytes, after: Bytes, refs: seq<ChunkRef>, pending: set<nat>, k: nat)
    requires k < |refs| && k in pending && AllPlacedExcept(before, refs, pending) && Placed(after, refs, k)
    requires SameOutside(before, after, Total(refs[..k]), Total(refs[..k]) + refs[k].length)
    ensures AllPlacedExcept(after, refs, pending - {k})
  {
    forall i | 0 <= i < |refs| && i !in pending
      ensures Placed(after, refs, i)
    {
      WriteElsewhere(before, after, refs, k, i);
    }
  }

  /** When all chunks of a splice are ready: surely if each can be had and nothing is lost meanwhile,
      and alone only if each was available in its turn, in the order of the references for the
      serial loop, in some order for the parallel one. */
  ghost predicate Spliced(setting: Setting, parallel: bool, s: Disk, refs: seq<ChunkRef>, ready: bool) {
    && (Steady(setting) && AllObtainable(s, refs) ==> ready)
    && (setting.Alone? && !parallel ==> (ready <==> ReadyInOrder(s, refs)))
    && (setting.Alone? && ready ==> ReadyInSomeOrder(s, refs))
  }

  /** The same, as of the store before the manifest was read. */
  lemma {:induction false} SplicedSince(setting: Setting, parallel: bool, s: Disk, t: Disk, d: Digest, m: Manifest,
                                        ready: bool)
    requires Spliced(setting, parallel, t, m.chunks, ready) && (Steady(setting) ==> Grows(s, t))
    requires Steady(setting) && d in s.manifests ==> s.manifests[d] == Some(m)
    requires setting.Alone? ==> s == t && d in s.manifests && s.manifests[d] == Some(m)
    ensures Steady(setting) && FromChunks(s, d) ==> ready
    ensures setting.Alone? && !parallel ==> (ready <==> FromChunksInOrder(s, d))
    ensures setting.Alone? && ready ==> FromChunksInSomeOrder(s, d)
  {
    if Steady(setting) && FromChunks(s, d) {
      forall i | 0 <= i < |m.chunks|
        ensures Obtainable(t, m.chunks[i])
      {
        assert Obtainable(s, m.chunks[i]);
      }
    }
  }

  /** On success the destination alone changed, and now hashes to the digest; else nothing did. */
  predicate Delivered(before: map<string, File>, after: map<string, File>, d: Digest, destination: string, ok: bool) {
    if ok then
      destination in after && NameOf(after[destination]) == d && after == before[destination := after[destination]]
    else after == before
  }

  // ------------------------------------------------------------------- putting

  /** What a put may have done to the store. */
  predicate KeptByPut(setting: Setting, z: Codec, s: Disk, t: Disk) {
    (Good(z, s) ==> Good(z, t)) && (setting.Alone? ==> Survives(s, t))
  }

  lemma {:induction false} KeptByPutTransitive(setting: Setting, z: Codec, s: Disk, t: Disk, u: Disk)
    requires KeptByPut(setting, z, s, t) && KeptByPut(setting, z, t, u)
    ensures KeptByPut(setting, z, s, u)
  {
  }

  lemma {:induction false} KeptImpliesKeptByPut(setting: Setting, z: Codec, s: Disk, t: Disk)
    requires Kept(setting, z, s, t)
    ensures KeptByPut(setting, z, s, t)
  {
  }

  /** What preparing chunks may have done: manifests are left to the end. */
  predicate Prepares(setting: Setting, z: Codec, s: Disk, t: Disk) {
    KeptByPut(setting, z, s, t) && (setting.Alone? ==> t.manifests == s.manifests)
  }

  lemma {:induction false} PreparesTransitive(setting: Setting, z: Codec, s: Disk, t: Disk, u: Disk)
    requires Prepares(setting, z, s, t) && Prepares(setting, z, t, u)
    ensures Prepares(setting, z, s, u)
  {
    KeptByPutTransitive(setting, z, s, t, u);
  }

  /** Patches between chunks can always be made and applied, and stay below 4 GiB. */
  ghost predicate NeverFails(z: Codec) {
    forall base: Bytes, target: Bytes | |target| <= DEFAULT_MAX :: PatchWorks(z, base, target)
  }

  predicate PatchWorks(z: Codec, base: Bytes, target: Bytes) {
    var patch := z.delta(base, target);
    patch.Some? && |patch.value| < U32_LIMIT && z.undelta(base, patch.value, |target|).Some?
  }

  /** The path's last blob has a manifest that validates. */
  predicate HasPrevious(s: Disk, source: string) {
    source in s.heads && s.heads[source] in s.manifests && !BadManifest(s.heads[source], s.manifests[s.heads[source]])
  }

  /** Nobody takes entries away, and no patch is made, or none fails. */
  ghost predicate NothingInTheWay(setting: Setting, z: Codec, s: Disk, source: string) {
    && (setting.Alone? || (setting.Helped? && Good(z, s)))
    && (NeverFails(z) || (setting.Alone? && !HasPrevious(s, source)))
  }

  /** How much of [a, b) reference i covers. */
  function Overlap(refs: seq<ChunkRef>, i: nat, a: nat, b: nat): nat
    requires i < |refs|
  {
    var start := Total(refs[..i]);
    var lo, hi := if start >= a then start else a, FastCdc.Min(start + refs[i].length, b);
    if hi > lo then hi - lo else 0
  }

  function Overlaps(refs: seq<ChunkRef>, n: nat, a: nat, b: nat): (r: seq<nat>)
    requires n <= |refs|
    ensures |r| == n && forall i {:trigger r[i]} :: 0 <= i < n ==> r[i] == Overlap(refs, i, a, b)
  {
    if n == 0 then [] else Overlaps(refs, n - 1, a, b) + [Overlap(refs, n - 1, a, b)]
  }

  /** max_by_key over the positive overlaps: later maxima win. */
  function LastMax(overlaps: seq<nat>): (r: Option<nat>)
    ensures r.Some? ==> r.value < |overlaps|
  {
    if overlaps == [] then None
    else
      var n := |overlaps| - 1;
      var best := LastMax(overlaps[..n]);
      if overlaps[n] > 0 && (best.None? || overlaps[best.value] <= overlaps[n]) then Some(n) else best
  }

  /** positional_base. */
  function PositionalBase(refs: seq<ChunkRef>, a: nat, b: nat): Option<ChunkRef> {
    var best := LastMax(Overlaps(refs, |refs|, a, b));
    if best.Some? then Some(refs[best.value]) else None
  }

  lemma {:induction false} LastMaxIsBest(overlaps: seq<nat>)
    ensures match LastMax(overlaps)
            case None => forall j :: 0 <= j < |overlaps| ==> overlaps[j] == 0
            case Some(k) =>
              && 0 < overlaps[k]
              && (forall j :: 0 <= j < k ==> overlaps[j] <= overlaps[k])
              && (forall j :: k < j < |overlaps| ==> overlaps[j] < overlaps[k])
  {
    if overlaps != [] {
      LastMaxIsBest(overlaps[..|overlaps| - 1]);
    }
  }

  /** The base chosen is the last of those that cover most of the target range; there is none
      exactly when no chunk touches the range. */
  lemma {:induction false} PositionalBaseIsBest(refs: seq<ChunkRef>, a: nat, b: nat)
    ensures match PositionalBase(refs, a, b)
            case None => forall j :: 0 <= j < |refs| ==> Overlap(refs, j, a, b) == 0
            case Some(r) =>
              exists k :: 0 <= k < |refs| && refs[k] == r && 0 < Overlap(refs, k, a, b)
                && (forall j :: 0 <= j < k ==> Overlap(refs, j, a, b) <= Overlap(refs, k, a, b))
                && (forall j :: k < j < |refs| ==> Overlap(refs, j, a, b) < Overlap(refs, k, a, b))
  {
    var overlaps := Overlaps(refs, |refs|, a, b);
    LastMaxIsBest(overlaps);
    assert forall j :: 0 <= j < |refs| ==> overlaps[j] == Overlap(refs, j, a, b);
    var best := LastMax(overlaps);
    if best.Some? {
      assert refs[best.value] == refs[best.value];
    }
  }

  /** A reference prepared for these bytes. */
  predicate Prepared(z: Codec, r: ChunkRef, content: Bytes) {
    && r.sha == Sha(content) && r.length == |content| && GoodRef(z, r)
    && (r.delta.Some? ==> r.delta.value.patchBytes > 0)
  }

  function Slice(bytes: Bytes, item: (nat, nat)): Bytes
    requires item.0 + item.1 <= |bytes|
  {
    bytes[item.0..item.0 + item.1]
  }

  predicate Within(bytes: Bytes, items: seq<(nat, nat)>) {
    forall i {:trigger items[i]} :: 0 <= i < |items| ==>
        items[i].0 + items[i].1 <= |bytes| && 0 < items[i].1 <= DEFAULT_MAX
  }

  predicate AllPrepared(z: Codec, refs: seq<ChunkRef>, bytes: Bytes, items: seq<(nat, nat)>)
    requires |refs| == |items| && Within(bytes, items)
  {
    forall i {:trigger refs[i]} :: 0 <= i < |refs| ==> Prepared(z, refs[i], Slice(bytes, items[i]))
  }

  /** The items are the chunks of bytes. */
  predicate ItemsOf(lengths: seq<nat>, items: seq<(nat, nat)>) {
    && |items| == |lengths|
    && forall i {:trigger items[i]} :: 0 <= i < |items| ==> items[i] == (Sum(lengths[..i]), lengths[i])
  }

  /** Where the first n items end. */
  function EndOf(items: seq<(nat, nat)>, n: nat): nat
    requires n <= |items|
  {
    if n == 0 then 0 else items[n - 1].0 + items[n - 1].1
  }

  /** The items are contiguous ranges that cover the bytes. */
  predicate Covers(bytes: Bytes, items: seq<(nat, nat)>) {
    && Within(bytes, items) && EndOf(items, |items|) == |bytes|
    && forall i {:trigger EndOf(items, i)} :: 0 <= i < |items| ==> items[i].0 == EndOf(items, i)
  }

  lemma {:induction false} PreparedTiles(z: Codec, refs: seq<ChunkRef>, bytes: Bytes, items: seq<(nat, nat)>, n: nat)
    requires n <= |refs| == |items| && Covers(bytes, items) && AllPrepared(z, refs, bytes, items)
    ensures Total(refs[..n]) == EndOf(items, n) <= |bytes|
    ensures Contents(refs[..n]) == bytes[..EndOf(items, n)]
    decreases n
  {
    if n > 0 {
      PreparedTiles(z, refs, bytes, items, n - 1);
      var r, item := refs[n - 1], items[n - 1];
      assert Prepared(z, r, Slice(bytes, item));
      TotalNext(refs, n - 1);
      TakeMore(bytes, item.0, item.1);
    }
  }

  predicate IsDefault(c: Chunker) {
    Valid(c) && c.average == DEFAULT_AVG && c.minimum == DEFAULT_MIN && c.maximum == DEFAULT_MAX
  }

  lemma {:induction false} Doubled(n: nat, k: nat)
    requires n > 0 && IsPowerOfTwo(n) && TrailingZeros(n) == k
    ensures IsPowerOfTwo(2 * n) && TrailingZeros(2 * n) == k + 1
  {
    var m := 2 * n;
    Halved(m, n);
    assert IsPowerOfTwo(m) && TrailingZeros(m) == 1 + TrailingZeros(n);
  }

  lemma {:induction false} Halved(m: nat, n: nat)
    requires m == 2 * n
    ensures m % 2 == 0 && m / 2 == n
  {
  }

  lemma {:induction false} FourTimes(n: nat, k: nat)
    requires n > 0 && IsPowerOfTwo(n) && TrailingZeros(n) == k
    ensures IsPowerOfTwo(4 * n) && TrailingZeros(4 * n) == k + 2
  {
    Doubled(n, k);
    Doubled(2 * n, k + 1);
  }

  lemma {:induction false} DefaultIsPower()
    ensures IsPowerOfTwo(DEFAULT_AVG) && TrailingZeros(DEFAULT_AVG) == 19
  {
    assert IsPowerOfTwo(8) && TrailingZeros(8) == 3;
    FourTimes(8, 3);
    FourTimes(32, 5);
    FourTimes(128, 7);
    FourTimes(512, 9);
    FourTimes(2048, 11);
    FourTimes(8192, 13);
    FourTimes(32768, 15);
    FourTimes(131072, 17);
  }

  /** FastCdc::default. */
  lemma {:induction false} DefaultChunkerIsValid(seed: Bits, gear: seq<Bits>)
    requires IsWord(seed) && AllWords(gear) && |gear| == 256
    ensures var c := New(DEFAULT_AVG, DEFAULT_MIN, DEFAULT_MAX, DEFAULT_NORMALIZATION, seed, gear);
            c.Some? && IsDefault(c.value)
  {
    DefaultIsPower();
    NewIsValid(DEFAULT_AVG, DEFAULT_MIN, DEFAULT_MAX, DEFAULT_NORMALIZATION, seed, gear);
  }

  function ManifestFor(d: Digest, total: nat, exec: bool, refs: seq<ChunkRef>): Manifest {
    Manifest(MANIFEST_VERSION, d, total, exec, DEFAULT_AVG, DEFAULT_MIN, DEFAULT_MAX, DEFAULT_NORMALIZATION,
        DEFAULT_SEED, refs)
  }

  lemma {:induction false} ItemsCover(c: Chunker, bytes: Bytes, items: seq<(nat, nat)>)
    requires IsDefault(c) && ItemsOf(Lengths(c, bytes), items)
    ensures Covers(bytes, items)
  {
    ChunksPartition(c, bytes);
    var ls := Lengths(c, bytes);
    assert ls[..|ls|] == ls;
    forall i | 0 <= i < |items|
      ensures items[i].0 + items[i].1 <= |bytes| && 0 < items[i].1 <= DEFAULT_MAX && items[i].0 == EndOf(items, i)
    {
      SumFits(ls, i);
      ItemEnds(ls, items, i);
    }
    ItemEnds(ls, items, |items|);
  }

  lemma {:induction false} ItemEnds(ls: seq<nat>, items: seq<(nat, nat)>, n: nat)
    requires ItemsOf(ls, items) && n <= |items|
    ensures EndOf(items, n) == Sum(ls[..n])
  {
    if n > 0 {
      SumNext(ls, n - 1);
      assert items[n - 1] == (Sum(ls[..n - 1]), ls[n - 1]);
    }
  }

  lemma {:induction false} SumNext(ls: seq<nat>, i: nat)
    requires i < |ls|
    ensures Sum(ls[..i + 1]) == Sum(ls[..i]) + ls[i]
  {
    SumAppend(ls[..i], ls[i]);
    assert ls[..i] + [ls[i]] == ls[..i + 1];
  }

  lemma {:induction false} SumFits(ls: seq<nat>, i: nat)
    requires i < |ls|
    ensures Sum(ls[..i]) + ls[i] <= Sum(ls)
    decreases i
  {
    if i > 0 {
      SumFits(ls[1..], i - 1);
      assert ls[..i][1..] == ls[1..][..i - 1];
    }
  }

  /** What put_chunks publishes is faithful. */
  lemma {:induction false} PreparedIsFaithful(z: Codec, f: File, refs: seq<ChunkRef>, items: seq<(nat, nat)>)
    requires f.bytes != [] && |f.bytes| < U64_LIMIT
    requires |refs| == |items| && Covers(f.bytes, items) && AllPrepared(z, refs, f.bytes, items)
    ensures Faithful(z, ManifestFor(NameOf(f), |f.bytes|, f.exec, refs), NameOf(f))
  {
    PreparedTiles(z, refs, f.bytes, items, |refs|);
    assert refs[..|refs|] == refs && f.bytes[..|f.bytes|] == f.bytes;
    CheckedIsTotal(refs);
    forall i | 0 <= i < |refs|
      ensures ValidRef(refs[i]) && GoodRef(z, refs[i])
    {
    }
  }

  /** The references prepared so far. */
  predicate Collected(z: Codec, ready: map<nat, ChunkRef>, bytes: Bytes, items: seq<(nat, nat)>, pending: set<nat>)
    requires Within(bytes, items)
  {
    forall i: nat {:trigger i in ready} :: i < |items| && i !in pending ==>
        i in ready && Prepared(z, ready[i], Slice(bytes, items[i]))
  }

  lemma {:induction false} CollectOne(z: Codec, ready: map<nat, ChunkRef>, bytes: Bytes, items: seq<(nat, nat)>,
                                      pending: set<nat>,
                                      k: nat, r: ChunkRef)
    requires Within(bytes, items) && k < |items| && Collected(z, ready, bytes, items, pending)
    requires Prepared(z, r, Slice(bytes, items[k]))
    ensures Collected(z, ready[k := r], bytes, items, pending - {k})
  {
  }

  predicate AllCollectedStored(s: Disk, ready: map<nat, ChunkRef>) {
    forall i {:trigger ready[i]} :: i in ready ==> ready[i].sha in s.chunks
  }

  lemma {:induction false} StoredStays(z: Codec, s: Disk, t: Disk, ready: map<nat, ChunkRef>)
    requires Good(z, s) && Survives(s, t) && AllCollectedStored(s, ready)
    ensures AllCollectedStored(t, ready)
  {
    forall i | i in ready
      ensures ready[i].sha in t.chunks
    {
      assert ready[i].sha in s.chunks && GoodChunk(ready[i].sha, s.chunks[ready[i].sha]);
    }
  }

  predicate AllStored(s: Disk, refs: seq<ChunkRef>) {
    forall i {:trigger refs[i]} :: 0 <= i < |refs| ==> refs[i].sha in s.chunks
  }

  /** The prepared references in index order. */
  function InIndexOrder(ready: map<nat, ChunkRef>, n: nat): (refs: seq<ChunkRef>)
    requires forall i: nat :: i < n ==> i in ready
    ensures |refs| == n && forall i: nat :: i < n ==> refs[i] == ready[i]
  {
    if n == 0 then [] else InIndexOrder(ready, n - 1) + [ready[n - 1]]
  }

  lemma {:induction false} AllArePrepared(z: Codec, s: Disk, ready: map<nat, ChunkRef>, bytes: Bytes,
                                          items: seq<(nat, nat)>)
    requires Within(bytes, items) && Collected(z, ready, bytes, items, {})
    ensures AllPrepared(z, InIndexOrder(ready, |items|), bytes, items)
    ensures AllCollectedStored(s, ready) ==> AllStored(s, InIndexOrder(ready, |items|))
  {
    var refs := InIndexOrder(ready, |items|);
    forall i: nat | i < |items|
      ensures refs[i] == ready[i] && Prepared(z, refs[i], Slice(bytes, items[i]))
    {
      assert i in ready;
    }
  }

  // ---------------------------------------------------------------- collecting

  /** A listed file: its modification time where the system gives one, its place in path order,
      its size and the entry it holds. */
  datatype Item = Item(mtime: Option<nat>, path: nat, size: nat, entry: Entry)

  /** a is no younger than b; ties are broken by path. */
  predicate NoLater(a: Item, b: Item) {
    match (a.mtime, b.mtime)
    case (None, None) => a.path <= b.path
    case (None, Some(_)) => true
    case (Some(_), None) => false
    case (Some(x), Some(y)) => x < y || (x == y && a.path <= b.path)
  }

  predicate OldestFirst(items: seq<Item>) {
    forall i, j :: 0 <= i < j < |items| ==> NoLater(items[i], items[j])
  }

  function Insert(x: Item, items: seq<Item>): (r: seq<Item>)
    ensures multiset(r) == multiset(items) + multiset{x}
  {
    if items == [] then [x]
    else
      assert items == [items[0]] + items[1..];
      if NoLater(x, items[0]) then [x] + items else [items[0]] + Insert(x, items[1..])
  }

  function Sorted(items: seq<Item>): (r: seq<Item>)
    ensures multiset(r) == multiset(items)
  {
    if items == [] then []
    else
      assert items == [items[0]] + items[1..];
      Insert(items[0], Sorted(items[1..]))
  }

  lemma {:induction false} InsertKeepsOrder(x: Item, items: seq<Item>)
    requires OldestFirst(items)
    ensures OldestFirst(Insert(x, items))
  {
    if items != [] && !NoLater(x, items[0]) {
      var rest := Insert(x, items[1..]);
      InsertKeepsOrder(x, items[1..]);
      forall i | 0 <= i < |rest|
        ensures NoLater(items[0], rest[i])
      {
        assert rest[i] in multiset(rest);
        assert rest[i] == x || rest[i] in items[1..];
      }
    }
  }

  lemma {:induction false} SortedIsOldestFirst(items: seq<Item>)
    ensures OldestFirst(Sorted(items))
  {
    if items != [] {
      SortedIsOldestFirst(items[1..]);
      InsertKeepsOrder(items[0], Sorted(items[1..]));
    }
  }

  function SizeOf(items: seq<Item>): nat {
    if items == [] then 0 else SizeOf(items[..|items| - 1]) + items[|items| - 1].size
  }

  /** The listing names present, distinct files of a store of less than 2^64 bytes. */
  predicate Lists(s: Disk, items: seq<Item>) {
    && (forall i {:trigger items[i]} :: 0 <= i < |items| ==> Has(s, items[i].entry))
    && (forall i, j {:trigger items[i], items[j]} :: 0 <= i < j < |items| ==> items[i].entry != items[j].entry)
  }

  function RemoveAll(s: Disk, items: seq<Item>): Disk {
    if items == [] then s else RemoveEntry(RemoveAll(s, items[..|items| - 1]), items[|items| - 1].entry)
  }

  lemma {:induction false} OthersRemain(s: Disk, items: seq<Item>, n: nat, i: nat)
    requires n <= i < |items| && Lists(s, items)
    ensures Has(RemoveAll(s, items[..n]), items[i].entry)
    decreases n
  {
    if n > 0 {
      OthersRemain(s, items, n - 1, i);
      assert items[..n][..n - 1] == items[..n - 1];
      assert items[n - 1].entry != items[i].entry;
    }
  }

  lemma {:induction false} SizeNext(items: seq<Item>, n: nat)
    requires n < |items|
    ensures SizeOf(items[..n + 1]) == SizeOf(items[..n]) + items[n].size
  {
    assert items[..n + 1][..n] == items[..n];
  }

  lemma {:induction false} SizeGrows(items: seq<Item>, n: nat)
    requires n <= |items|
    ensures SizeOf(items[..n]) <= SizeOf(items)
    decreases |items| - n
  {
    if n < |items| {
      SizeNext(items, n);
      SizeGrows(items, n + 1);
    } else {
      assert items[..n] == items;
    }
  }

  /** The k oldest entries are gone, and the last of them was still in excess of the cap. */
  predicate OldestGone(s: Disk, t: Disk, order: seq<Item>, k: nat, removed: nat, cap: nat)
    requires k <= |order|
  {
    && t == RemoveAll(s, order[..k]) && removed == SizeOf(order[..k])
    && (k > 0 ==> SizeOf(order) > SizeOf(order[..k - 1]) + cap)
  }

  lemma {:induction false} OneMoreGone(s: Disk, t: Disk, order: seq<Item>, k: nat, removed: nat, cap: nat)
    requires k < |order| && Lists(s, order) && OldestGone(s, t, order, k, removed, cap)
    requires SizeOf(order) > removed + cap
    ensures Has(t, order[k].entry) && removed + order[k].size <= SizeOf(order)
    ensures OldestGone(s, RemoveEntry(t, order[k].entry), order, k + 1, removed + order[k].size, cap)
  {
    SizeNext(order, k);
    SizeGrows(order, k + 1);
    OthersRemain(s, order, k, k);
    assert order[..k + 1][..k] == order[..k];
  }

  /** The size of a file of the store; the encoded length of a manifest is left open. */
  function FileSize(s: Disk, e: Entry): Option<nat>
    requires Has(s, e)
  {
    match e
    case Object(d) => Some(|s.objects[d].bytes|)
    case Chunk(d) => Some(|s.chunks[d]|)
    case ManifestOf(_) => None
    case Patch(t, p) => Some(|s.patches[(t, p)]|)
  }

  /** The listing is the store: every file once, with its size. */
  ghost predicate ListsAll(s: Disk, items: seq<Item>) {
    && Lists(s, items)
    && (forall e: Entry {:trigger Has(s, e)} :: Has(s, e) ==> exists i :: 0 <= i < |items| && items[i].entry == e)
    && (forall i :: 0 <= i < |items| && FileSize(s, items[i].entry).Some? ==>
           items[i].size == FileSize(s, items[i].entry).value)
  }

  lemma {:induction false} SizeSplits(items: seq<Item>, k: nat)
    requires k <= |items|
    ensures SizeOf(items) == SizeOf(items[..k]) + SizeOf(items[k..])
    decreases |items|
  {
    if k == |items| {
      assert items[..k] == items && items[k..] == [];
    } else {
      var front := items[..|items| - 1];
      SizeSplits(front, k);
      assert front[..k] == items[..k] && items[k..][..|items| - k - 1] == front[k..];
    }
  }

  lemma {:induction false} RemovedAndLeft(s: Disk, items: seq<Item>, k: nat, e: Entry)
    requires k <= |items| && Lists(s, items)
    ensures Has(RemoveAll(s, items[..k]), e) <==> Has(s, e) && forall i :: 0 <= i < k ==> items[i].entry != e
    ensures Has(RemoveAll(s, items[..k]), e) ==> FileSize(RemoveAll(s, items[..k]), e) == FileSize(s, e)
    decreases k
  {
    if k > 0 {
      RemovedAndLeft(s, items, k - 1, e);
      assert items[..k][..k - 1] == items[..k - 1];
    }
  }

  /** What a collection leaves: the store is then the rest of the listing, and, going by the sizes
      of the files themselves, within the cap. */
  lemma {:induction false} LeftWithinCap(s: Disk, t: Disk, order: seq<Item>, k: nat, removed: nat, cap: nat)
    requires ListsAll(s, order) && k <= |order| && OldestGone(s, t, order, k, removed, cap)
    requires k == |order| || SizeOf(order) <= removed + cap
    ensures ListsAll(t, order[k..]) && SizeOf(order[k..]) <= cap
  {
    var rest := order[k..];
    SizeSplits(order, k);
    forall i | 0 <= i < |rest|
      ensures Has(t, rest[i].entry)
      ensures FileSize(t, rest[i].entry).Some? ==> rest[i].size == FileSize(t, rest[i].entry).value
    {
      RemovedAndLeft(s, order, k, order[k + i].entry);
    }
    forall e: Entry | Has(t, e)
      ensures exists i :: 0 <= i < |rest| && rest[i].entry == e
    {
      RemovedAndLeft(s, order, k, e);
      var j :| 0 <= j < |order| && order[j].entry == e;
      assert rest[j - k].entry == e;
    }
  }

  function SatAdd(a: nat, b: nat): nat {
    FastCdc.Min(a + b, U64_LIMIT - 1)
  }

  function SatSub(a: nat, b: nat): nat {
    if a >= b then a - b else 0
  }

  class LocalCas {
    const z: Codec
    const chunker: Chunker
    const maxBytes: nat
    const parallel: bool
    const setting: Setting
    var disk: Disk
    var files: map<string, File>
    var changed: bool

    constructor (z: Codec, chunker: Chunker, maxBytes: nat, parallel: bool, setting: Setting, disk: Disk,
                 files: map<string, File>)
      requires setting.Peers? ==> Survives(setting.base, disk)
      ensures this.z == z && this.chunker == chunker && this.maxBytes == maxBytes && this.parallel == parallel
      ensures this.setting == setting && this.disk == disk && this.files == files && !changed && Safe()
    {
      this.z, this.chunker, this.maxBytes, this.parallel, this.setting := z, chunker, maxBytes, parallel, setting;
      this.disk, this.files, changed := disk, files, false;
    }

    /** What every access of this process must leave to the others. */
    predicate Safe()
      reads this
    {
      setting.Peers? ==> Survives(setting.base, disk)
    }

    /** The others run. */
    method Others()
      requires Safe()
      modifies `disk
      ensures Safe() && Kept(setting, z, old(disk), disk)
      ensures setting.Alone? ==> disk == old(disk)
    {
      var next: Disk := *;
      var allowed := match setting
        case Alone => false
        case Peers(base) => Survives(base, next)
        case Helped => Grows(disk, next)
        case Contended => true;
      if allowed && (Good(z, disk) ==> Good(z, next)) {
        disk := next;
      }
    }

    method ReadChunk(d: Digest) returns (r: Option<Bytes>)
      requires Safe()
      modifies `disk
      ensures Safe() && Kept(setting, z, old(disk), disk)
      ensures setting.Alone? ==> disk == old(disk)
      ensures r == if d in disk.chunks then Some(disk.chunks[d]) else None
    {
      Others();
      r := if d in disk.chunks then Some(disk.chunks[d]) else None;
    }

    method ReadPatch(target: Digest, patch: Digest) returns (r: Option<Bytes>)
      requires Safe()
      modifies `disk
      ensures Safe() && Kept(setting, z, old(disk), disk)
      ensures setting.Alone? ==> disk == old(disk)
      ensures r == if (target, patch) in disk.patches then Some(disk.patches[(target, patch)]) else None
    {
      Others();
      r := if (target, patch) in disk.patches then Some(disk.patches[(target, patch)]) else None;
    }

    /** remove_file. */
    method Discard(e: Entry)
      requires Safe() && (setting.Peers? ==> Spare(setting.base, e))
      modifies `disk
      ensures Safe()
      ensures Good(z, old(disk)) ==> Good(z, disk)
      ensures setting.Alone? ==> disk == RemoveEntry(old(disk), e)
    {
      Others();
      if Good(z, disk) {
        StepKeepsGood(z, disk, Remove(e));
      }
      if setting.Peers? {
        SpareMayGo(setting.base, disk, e);
      }
      disk := Apply(disk, Remove(e));
    }

    /** publish_chunk: stage, then rename unless the chunk is there. */
    method PublishChunk(content: Bytes)
      requires Safe()
      modifies `disk, `changed
      ensures Safe() && Kept(setting, z, old(disk), disk)
      ensures Sha(content) in disk.chunks
      ensures setting.Alone? ==>
                disk == if Sha(content) in old(disk.chunks) then old(disk) else Apply(old(disk), PutChunk(content))
    {
      ghost var s := disk;
      Others();
      if Sha(content) in disk.chunks {
        return;
      }
      ghost var t := disk;
      Others();
      KeptTransitive(setting, z, s, t, disk);
      ghost var u := disk;
      if Good(z, disk) {
        StepKeepsGood(z, disk, PutChunk(content));
      }
      if setting.Peers? {
        PublishedMayCome(setting.base, disk, PutChunk(content));
      }
      disk := Apply(disk, PutChunk(content));
      changed := true;
      PublishIsKept(setting, z, s, u, content);
    }

    /** reconstruct_delta. */
    method ReconstructDelta(r: ChunkRef) returns (got: Option<Bytes>)
      requires Safe()
      modifies `disk, `changed
      ensures Safe() && Kept(setting, z, old(disk), disk)
      ensures got.Some? ==> Sha(got.value) == r.sha
      ensures r.sha !in old(disk.chunks) ==>
                Answers(setting, z, old(disk), r, DeltaAvailable(old(disk), r), got.Some?, disk)
      ensures !setting.Alone? ==> Answers(setting, z, old(disk), r, DeltaAvailable(old(disk), r), got.Some?, disk)
    {
      if r.delta.None? {
        return None;
      }
      var delta := r.delta.value;
      ghost var s := disk;
      var base := ReadChunk(delta.base);
      if base.None? {
        return None;
      }
      if Sha(base.value) != delta.base {
        ghost var atRead := disk;
        if setting.Peers? {
          FailingIsSpare(setting.base, disk, Chunk(delta.base));
        }
        Discard(Chunk(delta.base));
        DiscardAfterKept(setting, z, s, atRead, disk, Chunk(delta.base));
        return None;
      }
      ghost var t := disk;
      var patch := ReadPatch(r.sha, delta.patch);
      KeptTransitive(setting, z, s, t, disk);
      if patch.None? || |patch.value| != delta.patchBytes {
        return None;
      }
      if Sha(patch.value) != delta.patch {
        ghost var atRead := disk;
        if setting.Peers? {
          FailingIsSpare(setting.base, disk, Patch(r.sha, delta.patch));
        }
        Discard(Patch(r.sha, delta.patch));
        DiscardAfterKept(setting, z, s, atRead, disk, Patch(r.sha, delta.patch));
        return None;
      }
      var rebuilt := z.undelta(base.value, patch.value, r.length);
      if rebuilt.None? || Sha(rebuilt.value) != r.sha {
        return None;
      }
      ghost var u := disk;
      PublishChunk(rebuilt.value);
      KeptTransitive(setting, z, s, u, disk);
      return rebuilt;
    }

    /** The bytes of a chunk, from the chunk store or rebuilt from its patch. */
    method FetchChunk(r: ChunkRef) returns (got: Option<Bytes>)
      requires Safe()
      modifies `disk, `changed
      ensures Safe() && Kept(setting, z, old(disk), disk)
      ensures got.Some? ==> Sha(got.value) == r.sha && |got.value| == r.length
      ensures Answers(setting, z, old(disk), r, Obtainable(old(disk), r), got.Some?, disk)
    {
      ghost var s := disk;
      got := ReadChunk(r.sha);
      ghost var t := disk;
      if got.None? {
        got := ReconstructDelta(r);
        KeptTransitive(setting, z, s, t, disk);
        if got.None? {
          return;
        }
      }
      if Sha(got.value) != r.sha {
        if setting.Peers? {
          FailingIsSpare(setting.base, disk, Chunk(r.sha));
        }
        Discard(Chunk(r.sha));
        DiscardAfterKept(setting, z, s, t, disk, Chunk(r.sha));
        return None;
      }
      if |got.value| != r.length {
        return None;
      }
    }

    /** materialize_chunk_at: a positioned write of one verified chunk. */
    method MaterializeChunkAt(out: array<Byte>, offset: nat, r: ChunkRef) returns (ok: bool)
      requires Safe() && offset + r.length <= out.Length
      modifies `disk, `changed, out
      ensures Safe() && Kept(setting, z, old(disk), disk)
      ensures SameOutside(old(out[..]), out[..], offset, offset + r.length)
      ensures ok ==> r.sha.Sha? && |r.sha.bytes| == r.length && out[offset..offset + r.length] == r.sha.bytes
      ensures Answers(setting, z, old(disk), r, Obtainable(old(disk), r), ok, disk)
    {
      var got := FetchChunk(r);
      if got.None? {
        return false;
      }
      var bytes := got.value;
      forall i | 0 <= i < |bytes| {
        out[offset + i] := bytes[i];
      }
      ok := true;
    }

    /** Reference k at its place. */
    method SpliceOne(refs: seq<ChunkRef>, out: array<Byte>, k: nat) returns (ok: bool)
      requires Safe() && out.Length == Total(refs) && k < |refs|
      modifies `disk, `changed, out
      ensures Safe() && Kept(setting, z, old(disk), disk)
      ensures SameOutside(old(out[..]), out[..], Total(refs[..k]), Total(refs[..k]) + refs[k].length)
      ensures ok ==> Placed(out[..], refs, k)
      ensures Answers(setting, z, old(disk), refs[k], Obtainable(old(disk), refs[k]), ok, disk)
    {
      TotalFits(refs, k);
      ok := MaterializeChunkAt(out, Total(refs[..k]), refs[k]);
    }

    /** The serial loop over the references. */
    method SpliceInOrder(refs: seq<ChunkRef>, out: array<Byte>) returns (ready: bool)
      requires Safe() && out.Length == Total(refs)
      modifies `disk, `changed, out
      ensures Safe() && Kept(setting, z, old(disk), disk)
      ensures ready ==> out[..] == Contents(refs)
      ensures Good(z, old(disk)) && AllGoodRefs(z, refs) ==> Spliced(setting, false, old(disk), refs, ready)
    {
      ghost var s, good := disk, Good(z, disk) && AllGoodRefs(z, refs);
      ready := true;
      for i := 0 to |refs|
        invariant Safe() && Kept(setting, z, s, disk)
        invariant ready ==> AllPlaced(out[..], refs, i)
        invariant good && Steady(setting) && AllObtainable(s, refs) ==> ready
        invariant good && setting.Alone? ==>
                    InOrderSoFar(s, refs, i, ready, disk)
      {
        ghost var t, before := disk, out[..];
        var ok := SpliceOne(refs, out, i);
        KeptTransitive(setting, z, s, t, disk);
        if ready && ok {
          PlaceNext(before, out[..], refs, i);
        }
        if good && setting.Alone? {
          InOrderStep(z, s, refs, i, ready, t, ok, disk);
        }
        ready := ready && ok;
      }
      assert refs[..|refs|] == refs;
      if ready {
        Tiled(out[..], refs);
        assert SameRefs(refs, refs);
      }
    }

    /** The parallel loop: the workers finish in any order. */
    method SpliceInAnyOrder(refs: seq<ChunkRef>, out: array<Byte>) returns (ready: bool)
      requires Safe() && out.Length == Total(refs)
      modifies `disk, `changed, out
      ensures Safe() && Kept(setting, z, old(disk), disk)
      ensures ready ==> out[..] == Contents(refs)
      ensures Good(z, old(disk)) && AllGoodRefs(z, refs) ==> Spliced(setting, true, old(disk), refs, ready)
    {
      ghost var s, good := disk, Good(z, disk) && AllGoodRefs(z, refs);
      ghost var order: seq<ChunkRef> := [];
      ready := true;
      var pending: set<nat> := Below(|refs|);
      while pending != {}
        invariant Safe() && Kept(setting, z, s, disk)
        invariant forall i {:trigger i in pending} :: i in pending ==> i < |refs|
        invariant ready ==> AllPlacedExcept(out[..], refs, pending)
        invariant good && Steady(setting) && AllObtainable(s, refs) ==> ready
        invariant good && setting.Alone? && ready ==>
                    RestoredSoFar(s, refs, pending, order, disk)
        decreases |pending|
      {
        var k :| k in pending;
        ghost var t, before := disk, out[..];
        var ok := SpliceOne(refs, out, k);
        KeptTransitive(setting, z, s, t, disk);
        if ready && ok {
          PlaceOne(before, out[..], refs, pending, k);
          if good && setting.Alone? {
            RestoreOne(z, s, refs, pending, order, t, k);
            order := order + [refs[k]];
          }
        }
        ready, pending := ready && ok, pending - {k};
      }
      if ready {
        Tiled(out[..], refs);
        if good && setting.Alone? {
          AllRestored(s, refs, order, disk);
        }
      }
    }

    /** The two loops, by configuration. */
    method Splice(refs: seq<ChunkRef>, out: array<Byte>) returns (ready: bool)
      requires Safe() && out.Length == Total(refs)
      modifies `disk, `changed, out
      ensures Safe() && Kept(setting, z, old(disk), disk)
      ensures ready ==> out[..] == Contents(refs)
      ensures Good(z, old(disk)) && AllGoodRefs(z, refs) ==> Spliced(setting, parallel, old(disk), refs, ready)
    {
      if parallel {
        ready := SpliceInAnyOrder(refs, out);
      } else {
        ready := SpliceInOrder(refs, out);
      }
    }

    /** The manifest file, unless it is missing; one that does not decode or validate is removed. */
    method ReadManifest(d: Digest) returns (m: Option<Manifest>)
      requires Safe()
      modifies `disk
      ensures Safe() && Kept(setting, z, old(disk), disk)
      ensures m.Some? ==> ValidManifest(m.value, d) && d in disk.manifests && disk.manifests[d] == m
      ensures Good(z, old(disk)) && Steady(setting) && d in old(disk.manifests) ==> m == old(disk.manifests[d])
      ensures Good(z, old(disk)) && setting.Alone? ==>
                disk == old(disk) && m == if d in disk.manifests then disk.manifests[d] else None
    {
      ghost var s := disk;
      Others();
      if d !in disk.manifests {
        return None;
      }
      m := disk.manifests[d];
      if m.None? || !ValidManifest(m.value, d) {
        ghost var atRead := disk;
        if setting.Peers? {
          FailingIsSpare(setting.base, disk, ManifestOf(d));
        }
        Discard(ManifestOf(d));
        DiscardAfterKept(setting, z, s, atRead, disk, ManifestOf(d));
        return None;
      }
    }

    /** materialize_chunks. */
    method MaterializeChunks(d: Digest, destination: string) returns (r: Result<bool>)
      requires Safe()
      modifies this
      ensures Safe() && Kept(setting, z, old(disk), disk)
      ensures Delivered(old(files), files, d, destination, r == Ok(true))
      ensures Good(z, old(disk)) && Steady(setting) && FromChunks(old(disk), d) ==> r == Ok(true)
      ensures Good(z, old(disk)) && setting.Alone? && !parallel ==> (r == Ok(true) <==> FromChunksInOrder(old(disk), d))
      ensures Good(z, old(disk)) && setting.Alone? && r == Ok(true) ==> FromChunksInSomeOrder(old(disk), d)
    {
      ghost var s := disk;
      var found := ReadManifest(d);
      if found.None? {
        return Ok(false);
      }
      var m := found.value;
      CheckedIsTotal(m.chunks);
      ghost var t := disk;
      var out := new Byte[m.total](_ => 0);
      var ready := Splice(m.chunks, out);
      KeptTransitive(setting, z, s, t, disk);
      if Good(z, s) {
        assert GoodManifest(z, d, found);
        SplicedSince(setting, parallel, s, t, d, m, ready);
      }
      if !ready {
        return Ok(false);
      }
      var staged := File(out[..], m.executable);
      if NameOf(staged) != d {
        return Ok(false);
      }
      files := files[destination := staged];
      return Ok(true);
    }

    /** copy_and_verify. */
    method CopyAndVerify(d: Digest, destination: string) returns (r: Result<bool>)
      requires Safe()
      modifies this
      ensures Safe() && Kept(setting, z, old(disk), disk) && changed == old(changed)
      ensures setting.Alone? ==> disk == old(disk)
      ensures Delivered(old(files), files, d, destination, r == Ok(true))
      ensures d in old(disk.objects) && Steady(setting) && Good(z, old(disk)) ==> r == Ok(true)
      ensures setting.Alone? ==> r == if d !in disk.objects then Err else Ok(NameOf(disk.objects[d]) == d)
      ensures r == Ok(false) ==> FailsCheck(disk, Object(d))
    {
      Others();
      if d !in disk.objects {
        return Err;
      }
      var staged := disk.objects[d];
      if NameOf(staged) != d {
        return Ok(false);
      }
      files := files[destination := staged];
      return Ok(true);
    }

    /** materialize.  True means the destination is the named file, bytes and mode; anything else
        leaves it alone. */
    method Materialize(d: Digest, destination: string) returns (r: Result<bool>)
      requires Safe()
      modifies this
      ensures Safe() && Kept(setting, z, old(disk), disk)
      ensures Delivered(old(files), files, d, destination, r == Ok(true))
      ensures Good(z, old(disk)) && Steady(setting) && Restorable(old(disk), d) ==> r == Ok(true)
      ensures Good(z, old(disk)) && setting.Alone? && !parallel ==>
                (r == Ok(true) <==> d in old(disk.objects) || FromChunksInOrder(old(disk), d))
      ensures Good(z, old(disk)) && setting.Alone? && r == Ok(true) ==>
                d in old(disk.objects) || FromChunksInSomeOrder(old(disk), d)
    {
      ghost var s := disk;
      Others();
      ghost var t := disk;
      if d in disk.objects {
        r := CopyAndVerify(d, destination);
        KeptTransitive(setting, z, s, t, disk);
        if r != Ok(false) {
          return;
        }
        ghost var atRead := disk;
        if setting.Peers? {
          FailingIsSpare(setting.base, disk, Object(d));
        }
        Discard(Object(d));
        DiscardAfterKept(setting, z, s, atRead, disk, Object(d));
      }
      ghost var u := disk;
      r := MaterializeChunks(d, destination);
      KeptTransitive(setting, z, s, u, disk);
    }

    /** One rename into place, or the head pointer: the process's own atomic step. */
    method Publish(step: Step)
      requires Safe() && !step.Remove? && !step.PutChunk?
      requires setting.Peers? && step.PutManifest? ==> Spare(setting.base, ManifestOf(step.manifest.digest))
      modifies `disk, `changed
      ensures Safe() && (Good(z, old(disk)) && Justified(z, step) ==> Good(z, disk))
      ensures setting.Alone? ==> disk == Apply(old(disk), step)
      ensures step.PutObject? ==> NameOf(step.file) in disk.objects
    {
      Others();
      if Good(z, disk) && Justified(z, step) {
        StepKeepsGood(z, disk, step);
      }
      if setting.Peers? {
        PublishedMayCome(setting.base, disk, step);
      }
      disk := Apply(disk, step);
      changed := changed || !step.PutHead?;
    }

    /** publish_manifest. */
    method PublishManifest(m: Manifest)
      requires Safe()
      modifies `disk, `changed
      ensures Safe() && (Good(z, old(disk)) && Faithful(z, m, m.digest) ==> Good(z, disk))
      ensures setting.Alone? ==>
                disk == if m.digest in old(disk.manifests) then old(disk) else Apply(old(disk), PutManifest(m))
    {
      Others();
      if m.digest !in disk.manifests {
        Publish(PutManifest(m));
      }
    }

    /** publish_delta. */
    method PublishPatch(target: Digest, patch: Bytes)
      requires Safe()
      modifies `disk, `changed
      ensures Safe() && KeptByPut(setting, z, old(disk), disk)
      ensures setting.Alone? ==> disk.manifests == old(disk.manifests)
    {
      Others();
      if (target, Sha(patch)) !in disk.patches {
        Publish(PutPatch(target, patch));
      }
    }

    /** build_positional_delta. */
    method BuildPositionalDelta(previous: Option<Manifest>, start: nat, end: nat, target: Bytes)
      returns (r: Result<Option<DeltaRef>>)
      requires Safe() && NeverEmpty(z)
      modifies `disk, `changed
      ensures Safe() && KeptByPut(setting, z, old(disk), disk)
      ensures setting.Alone? ==> disk.manifests == old(disk.manifests)
      ensures r.Ok? && r.value.Some? ==>
                var d := r.value.value;
                && GoodDelta(z, d, target) && 0 < d.patchBytes < z.compressed(target)
                && previous.Some?
                && var base := PositionalBase(previous.value.chunks, start, end);
                   base.Some? && d.base == base.value.sha
      ensures previous.None? || (|target| <= DEFAULT_MAX && NeverFails(z)) ==> r.Ok?
    {
      if previous.None? {
        return Ok(None);
      }
      var best := PositionalBase(previous.value.chunks, start, end);
      if best.None? {
        return Ok(None);
      }
      var base := best.value.sha;
      ghost var s := disk;
      var content := ReadChunk(base);
      ghost var t := disk;
      KeptImpliesKeptByPut(setting, z, s, t);
      if content.None? {
        return Ok(None);
      }
      if Sha(content.value) != base {
        if setting.Peers? {
          FailingIsSpare(setting.base, disk, Chunk(base));
        }
        Discard(Chunk(base));
        DiscardAfterKept(setting, z, s, t, disk, Chunk(base));
        KeptImpliesKeptByPut(setting, z, s, disk);
        return Ok(None);
      }
      assert NeverFails(z) && |target| <= DEFAULT_MAX ==> PatchWorks(z, content.value, target);
      var patch := z.delta(content.value, target);
      if patch.None? {
        return Err;
      }
      if |patch.value| >= z.compressed(target) {
        return Ok(None);
      }
      var rebuilt := z.undelta(content.value, patch.value, |target|);
      if rebuilt.None? {
        return Err;
      }
      if Sha(rebuilt.value) != Sha(target) {
        return Ok(None);
      }
      if |patch.value| >= U32_LIMIT {
        return Err;
      }
      PublishPatch(Sha(target), patch.value);
      KeptByPutTransitive(setting, z, s, t, disk);
      return Ok(Some(DeltaRef(base, Sha(patch.value), |patch.value|)));
    }

    /** prepare_chunk. */
    method PrepareChunk(bytes: Bytes, previous: Option<Manifest>, offset: nat, length: nat)
      returns (r: Result<ChunkRef>)
      requires Safe() && NeverEmpty(z) && offset + length <= |bytes|
      modifies `disk, `changed
      ensures Safe() && KeptByPut(setting, z, old(disk), disk)
      ensures setting.Alone? ==> disk.manifests == old(disk.manifests)
      ensures r.Ok? ==> Prepared(z, r.value, Slice(bytes, (offset, length)))
      ensures r.Ok? && setting.Alone? ==> Sha(Slice(bytes, (offset, length))) in disk.chunks
      ensures length <= DEFAULT_MAX && (previous.None? || NeverFails(z)) ==> r.Ok?
    {
      var content := bytes[offset..offset + length];
      ghost var s := disk;
      var existing := ReadChunk(Sha(content));
      KeptImpliesKeptByPut(setting, z, s, disk);
      var delta := Ok(None);
      if existing.None? {
        ghost var t := disk;
        delta := BuildPositionalDelta(previous, offset, offset + length, content);
        KeptByPutTransitive(setting, z, s, t, disk);
        if delta.Err? {
          return Err;
        }
      }
      ghost var u := disk;
      PublishChunk(content);
      KeptImpliesKeptByPut(setting, z, u, disk);
      KeptByPutTransitive(setting, z, s, u, disk);
      if length >= U32_LIMIT {
        return Err;
      }
      return Ok(ChunkRef(Sha(content), length, delta.value));
    }

    /** One worker's share: chunk k is prepared and noted down. */
    method PrepareNext(bytes: Bytes, previous: Option<Manifest>, items: seq<(nat, nat)>, ready: map<nat, ChunkRef>,
                       k: nat,
                       pending: set<nat>) returns (ok: bool, ready': map<nat, ChunkRef>)
      requires Safe() && NeverEmpty(z) && Within(bytes, items) && k < |items|
      requires Collected(z, ready, bytes, items, pending)
      requires forall i {:trigger i in pending} :: i in pending ==> i < |items|
      modifies `disk, `changed
      ensures Safe() && Prepares(setting, z, old(disk), disk)
      ensures ok ==> Collected(z, ready', bytes, items, pending - {k})
      ensures ok && setting.Alone? && Good(z, old(disk)) && AllCollectedStored(old(disk), ready) ==>
                AllCollectedStored(disk, ready')
      ensures previous.None? || NeverFails(z) ==> ok
    {
      ghost var s := disk;
      var one := PrepareChunk(bytes, previous, items[k].0, items[k].1);
      ok, ready' := one.Ok?, ready;
      if ok {
        CollectOne(z, ready, bytes, items, pending, k, one.value);
        if setting.Alone? && Good(z, s) && AllCollectedStored(s, ready) {
          StoredStays(z, s, disk, ready);
        }
        ready' := ready[k := one.value];
      } else {
        ghost var t := disk;
        PrepareSome(bytes, previous, items, pending - {k});
        PreparesTransitive(setting, z, s, t, disk);
      }
    }

    /** The chunks are prepared in any order; once one has failed, the rest may or may not be. */
    method PrepareAll(bytes: Bytes, previous: Option<Manifest>, items: seq<(nat, nat)>)
      returns (r: Result<seq<ChunkRef>>)
      requires Safe() && NeverEmpty(z) && Within(bytes, items)
      modifies `disk, `changed
      ensures Safe() && Prepares(setting, z, old(disk), disk)
      ensures r.Ok? ==> |r.value| == |items| && AllPrepared(z, r.value, bytes, items)
      ensures r.Ok? && setting.Alone? && Good(z, old(disk)) ==> AllStored(disk, r.value)
      ensures previous.None? || NeverFails(z) ==> r.Ok?
    {
      ghost var s := disk;
      var pending: set<nat> := Below(|items|);
      var ready: map<nat, ChunkRef>, ok := map[], true;
      while pending != {} && ok
        invariant Safe() && Prepares(setting, z, s, disk)
        invariant forall i {:trigger i in pending} :: i in pending ==> i < |items|
        invariant ok ==> Collected(z, ready, bytes, items, pending)
        invariant ok && setting.Alone? && Good(z, s) ==> AllCollectedStored(disk, ready)
        invariant previous.None? || NeverFails(z) ==> ok
        decreases |pending|
      {
        var k :| k in pending;
        ghost var t := disk;
        ok, ready := PrepareNext(bytes, previous, items, ready, k, pending);
        PreparesTransitive(setting, z, s, t, disk);
        pending := pending - {k};
      }
      if !ok {
        return Err;
      }
      AllArePrepared(z, disk, ready, bytes, items);
      return Ok(InIndexOrder(ready, |items|));
    }

    /** Workers still at it after one has failed; their results are dropped. */
    method PrepareSome(bytes: Bytes, previous: Option<Manifest>, items: seq<(nat, nat)>, todo: set<nat>)
      requires Safe() && NeverEmpty(z) && Within(bytes, items) && forall i {:trigger i in todo} :: i in todo ==>
                i < |items|
      modifies `disk, `changed
      ensures Safe() && Prepares(setting, z, old(disk), disk)
    {
      ghost var s := disk;
      var pending, stop: bool := todo, *;
      while pending != {} && !stop
        invariant Safe() && Prepares(setting, z, s, disk)
        invariant pending <= todo
        decreases |pending|
      {
        var k :| k in pending;
        ghost var t := disk;
        var one := PrepareChunk(bytes, previous, items[k].0, items[k].1);
        PreparesTransitive(setting, z, s, t, disk);
        pending, stop := pending - {k}, *;
      }
    }

    /** previous_manifest: the valid manifest of the blob this path last held. */
    method PreviousManifest(source: string) returns (previous: Option<Manifest>)
      requires Safe()
      modifies `disk
      ensures Safe() && KeptByPut(setting, z, old(disk), disk)
      ensures setting.Alone? ==> disk == old(disk)
      ensures previous.Some? ==> ValidManifest(previous.value, previous.value.digest)
      ensures setting.Alone? && source in disk.heads && disk.heads[source] in disk.manifests ==>
                var found := disk.manifests[disk.heads[source]];
                previous == if BadManifest(disk.heads[source], found) then None else found
      ensures setting.Alone? ==> (previous.Some? <==> HasPrevious(disk, source))
    {
      ghost var s := disk;
      Others();
      if source !in disk.heads {
        return None;
      }
      var d := disk.heads[source];
      ghost var t := disk;
      Others();
      KeptTransitive(setting, z, s, t, disk);
      return if d in disk.manifests && !BadManifest(d, disk.manifests[d]) then disk.manifests[d] else None;
    }

    /** The chunking half of put_chunks: split, and prepare every chunk. */
    method SplitChunks(source: string, bytes: Bytes) returns (r: Result<seq<ChunkRef>>, ghost items: seq<(nat, nat)>)
      requires Safe() && NeverEmpty(z) && IsDefault(chunker)
      modifies `disk, `changed
      ensures Safe() && KeptByPut(setting, z, old(disk), disk)
      ensures setting.Alone? ==> disk.manifests == old(disk.manifests)
      ensures Covers(bytes, items)
      ensures r.Ok? ==> |r.value| == |items| && AllPrepared(z, r.value, bytes, items)
      ensures r.Ok? && setting.Alone? && Good(z, old(disk)) ==> AllStored(disk, r.value)
      ensures NeverFails(z) || (setting.Alone? && !HasPrevious(old(disk), source)) ==> r.Ok?
    {
      ghost var s := disk;
      var previous := PreviousManifest(source);
      ghost var t := disk;
      var found := Collect(chunker, bytes);
      ItemsCover(chunker, bytes, found);
      items := found;
      r := PrepareAll(bytes, previous, found);
      KeptByPutTransitive(setting, z, s, t, disk);
    }

    /** The last two renames of put_chunks. */
    method PublishChunked(source: string, m: Manifest)
      requires Safe()
      modifies `disk, `changed
      ensures Safe() && (Good(z, old(disk)) && Faithful(z, m, m.digest) ==> Good(z, disk))
      ensures setting.Alone? ==> Survives(old(disk), disk) && disk.chunks == old(disk.chunks)
      ensures setting.Alone? && m.digest !in old(disk.manifests) ==>
                disk.manifests == old(disk.manifests)[m.digest := Some(m)]
    {
      ghost var v := disk;
      PublishManifest(m);
      Publish(PutHead(source, m.digest));
      if setting.Alone? {
        PublishedSurvives(v, disk, m);
      }
    }

    /** put_chunks.  `meta` is what was read of the object before. */
    method PutChunks(source: string, d: Digest, meta: File) returns (r: Result<()>)
      requires Safe() && NeverEmpty(z) && IsDefault(chunker) && meta.bytes != []
      modifies `disk, `changed
      ensures Safe() && (setting.Alone? ==> Survives(old(disk), disk))
      ensures Good(z, old(disk)) && GoodObject(d, meta) ==> Good(z, disk)
      ensures r.Ok? && setting.Alone? && Good(z, old(disk)) && GoodObject(d, meta) && d !in old(disk.manifests) ==>
                FromChunks(disk, d)
      ensures d in old(disk.objects) && NothingInTheWay(setting, z, old(disk), source) ==> r.Ok?
    {
      ghost var s := disk;
      Others();
      KeptImpliesKeptByPut(setting, z, s, disk);
      if d !in disk.objects {
        return Err;
      }
      var bytes := disk.objects[d].bytes;
      ghost var t := disk;
      var refs, items := SplitChunks(source, bytes);
      KeptByPutTransitive(setting, z, s, t, disk);
      if refs.Err? {
        return Err;
      }
      var m := ManifestFor(d, |meta.bytes|, meta.exec, refs.value);
      if Good(z, s) && GoodObject(d, meta) {
        PreparedIsFaithful(z, meta, refs.value, items);
      }
      ghost var v := disk;
      PublishChunked(source, m);
      if setting.Alone? {
        SurvivesTransitive(s, v, disk);
      }
      if setting.Alone? && Good(z, s) && GoodObject(d, meta) && d !in s.manifests {
        StoredIsFromChunks(disk, d, m);
      }
      return Ok(());
    }

    /** put.  `staged` is what the copy of the output into the store read.  A large blob can be
        restored from chunks afterwards exactly if it had no manifest yet or already could: a put
        that finds the manifest does not look for chunks that were collected. */
    method Put(source: string, staged: File, d: Digest) returns (r: Result<()>)
      requires Safe() && NeverEmpty(z) && IsDefault(chunker) && |staged.bytes| < U64_LIMIT
      modifies `disk, `changed
      ensures Safe() && KeptByPut(setting, z, old(disk), disk)
      ensures setting.Alone? && d !in old(disk.objects) && NameOf(staged) != d ==> r.Err? && disk == old(disk)
      ensures setting.Alone? && Good(z, old(disk)) && r.Ok? ==> d in disk.objects
      ensures setting.Alone? && Good(z, old(disk)) && r.Ok? && |disk.objects[d].bytes| > DEFAULT_MAX ==>
                (FromChunks(disk, d) <==> d !in old(disk.manifests) || FromChunks(old(disk), d))
      ensures d in old(disk.objects) || NameOf(staged) == d ==>
                (NothingInTheWay(setting, z, old(disk), source) || (setting.Alone? && d in old(disk.manifests))
                 ==> r.Ok?)
      ensures setting.Alone? && d in old(disk.manifests) && r.Ok? ==>
                disk == if d in old(disk.objects) then old(disk) else Apply(old(disk), PutObject(staged))
    {
      ghost var s := disk;
      Others();
      KeptImpliesKeptByPut(setting, z, s, disk);
      if d !in disk.objects {
        if NameOf(staged) != d {
          return Err;
        }
        ghost var t := disk;
        Publish(PutObject(staged));
        KeptByPutTransitive(setting, z, s, t, disk);
      }
      ghost var u := disk;
      Others();
      KeptImpliesKeptByPut(setting, z, u, disk);
      KeptByPutTransitive(setting, z, s, u, disk);
      if d !in disk.objects {
        return Err;
      }
      var meta := disk.objects[d];
      r := Ok(());
      if |meta.bytes| > DEFAULT_MAX {
        ghost var v := disk;
        Others();
        KeptImpliesKeptByPut(setting, z, v, disk);
        KeptByPutTransitive(setting, z, s, v, disk);
        if d !in disk.manifests {
          ghost var w := disk;
          r := PutChunks(source, d, meta);
          if setting.Alone? {
            SurvivesTransitive(s, w, disk);
          }
        }
      }
    }

    method RemoveFile(e: Entry) returns (ok: bool)
      requires Safe() && !setting.Peers?
      modifies `disk
      ensures Safe() && (Good(z, old(disk)) ==> Good(z, disk))
      ensures setting.Alone? ==> ok == Has(old(disk), e) && disk == RemoveEntry(old(disk), e)
    {
      Others();
      ok := Has(disk, e);
      if Good(z, disk) {
        StepKeepsGood(z, disk, Remove(e));
      }
      disk := Apply(disk, Remove(e));
    }

    /** The scan's running total. */
    method Measure(listing: seq<Item>) returns (total: nat)
      ensures SizeOf(listing) < U64_LIMIT ==> total == SizeOf(listing)
    {
      total := 0;
      for i := 0 to |listing|
        invariant SizeOf(listing) < U64_LIMIT ==> total == SizeOf(listing[..i])
      {
        SizeNext(listing, i);
        SizeGrows(listing, i + 1);
        total := SatAdd(total, listing[i].size);
      }
      assert listing[..|listing|] == listing;
    }

    /** gc.  `listing` is the scan of the four directories, `recent` the freshness of the stamp.
        The k oldest entries go: as few as bring the total within the cap. */
    method Gc(listing: seq<Item>, recent: bool) returns (removed: nat, ghost k: nat)
      requires Safe() && !setting.Peers?
      modifies `disk
      ensures Safe() && (Good(z, old(disk)) ==> Good(z, disk))
      ensures maxBytes == 0 || (!changed && recent) ==> removed == 0 && k == 0
      ensures k <= |Sorted(listing)|
      ensures setting.Alone? && Lists(old(disk), Sorted(listing)) && SizeOf(Sorted(listing)) < U64_LIMIT ==>
                && OldestGone(old(disk), disk, Sorted(listing), k, removed, maxBytes)
                && (maxBytes > 0 && (changed || !recent) ==>
                       k == |Sorted(listing)| || SizeOf(Sorted(listing)) <= removed + maxBytes)
    {
      removed, k := 0, 0;
      if maxBytes == 0 || (!changed && recent) {
        return;
      }
      var order := Sorted(listing);
      ghost var s, exact := disk, setting.Alone? && Lists(disk, order) && SizeOf(order) < U64_LIMIT;
      var total := Measure(order);
      for i := 0 to |order|
        invariant Safe() && (Good(z, s) ==> Good(z, disk)) && k == i
        invariant exact ==> OldestGone(s, disk, order, i, removed, maxBytes) && total + removed == SizeOf(order)
      {
        if total <= maxBytes {
          return;
        }
        ghost var t, e := disk, order[i].entry;
        if exact {
          OneMoreGone(s, t, order, i, removed, maxBytes);
        }
        var ok := RemoveFile(order[i].entry);
        assert setting.Alone? ==> ok == Has(t, e) && disk == RemoveEntry(t, e);
        if ok {
          total, removed := SatSub(total, order[i].size), removed + order[i].size;
        }
        k := i + 1;
      }
    }
  }

  lemma {:induction false} StoredIsFromChunks(s: Disk, d: Digest, m: Manifest)
    requires d in s.manifests && s.manifests[d] == Some(m) && AllStored(s, m.chunks)
    ensures FromChunks(s, d)
  {
  }

  lemma {:induction false} PublishedSurvives(t: Disk, u: Disk, m: Manifest)
    requires u.objects == t.objects && u.chunks == t.chunks && u.patches == t.patches
    requires u.manifests == if m.digest in t.manifests then t.manifests else t.manifests[m.digest := Some(m)]
    ensures Survives(t, u)
  {
  }

  lemma {:induction false} PublishOneIsKept(setting: Setting, z: Codec, u: Disk, content: Bytes)
    requires setting.Alone? ==> Sha(content) !in u.chunks
    requires setting.Alone? || Good(z, u)
    ensures Kept(setting, z, u, Apply(u, PutChunk(content)))
  {
    if Good(z, u) {
      StepKeepsGood(z, u, PutChunk(content));
      ChunkGrows(z, u, content);
    }
  }

  lemma {:induction false} ChunkGrows(z: Codec, s: Disk, content: Bytes)
    requires Good(z, s)
    ensures Grows(s, Apply(s, PutChunk(content)))
  {
    var d := Sha(content);
    assert d in s.chunks ==> GoodChunk(d, s.chunks[d]);
  }

  lemma {:induction false} PublishIsKept(setting: Setting, z: Codec, s: Disk, u: Disk, content: Bytes)
    requires Kept(setting, z, s, u) && (setting.Alone? ==> Sha(content) !in u.chunks)
    ensures Kept(setting, z, s, Apply(u, PutChunk(content)))
  {
    var t := Apply(u, PutChunk(content));
    if setting.Alone? || Good(z, u) {
      assert Kept(setting, z, u, t) by {
        PublishOneIsKept(setting, z, u, content);
      }
      KeptTransitive(setting, z, s, u, t);
    }
  }

  /** The whole object evicted, and the store used since, a chunked blob is still restorable. */
  lemma {:induction false} EvictedIsRestorable(z: Codec, s: Disk, t: Disk, d: Digest)
    requires Good(z, s) && FromChunks(s, d) && Survives(RemoveEntry(s, Object(d)), t)
    ensures FromChunks(t, d)
  {
    RemoveKeepsGood(z, s, Object(d));
    SurvivesGrows(z, RemoveEntry(s, Object(d)), t);
  }

  /** In a good store everything passes its check. */
  lemma {:induction false} SurvivesGrows(z: Codec, s: Disk, t: Disk)
    requires Good(z, s) && Survives(s, t)
    ensures Grows(s, t)
  {
    forall d | d in s.objects
      ensures d in t.objects && t.objects[d] == s.objects[d]
    {
      assert GoodObject(d, s.objects[d]);
    }
    forall d | d in s.manifests
      ensures d in t.manifests && t.manifests[d] == s.manifests[d]
    {
      assert GoodManifest(z, d, s.manifests[d]);
    }
  }

  datatype Output = Output(source: string, staged: File, digest: Digest)

  /** Any number of further puts, failing or not. */
  method PutMore(cas: LocalCas, outputs: seq<Output>)
    requires cas.Safe() && NeverEmpty(cas.z) && IsDefault(cas.chunker) && cas.setting.Alone? && Good(cas.z, cas.disk)
    requires forall i :: 0 <= i < |outputs| ==> |outputs[i].staged.bytes| < U64_LIMIT
    modifies cas`disk, cas`changed
    ensures cas.Safe() && Good(cas.z, cas.disk) && Survives(old(cas.disk), cas.disk)
  {
    ghost var s := cas.disk;
    for i := 0 to |outputs|
      invariant cas.Safe() && Good(cas.z, cas.disk) && Survives(s, cas.disk)
    {
      ghost var t := cas.disk;
      var r := cas.Put(outputs[i].source, outputs[i].staged, outputs[i].digest);
      SurvivesTransitive(s, t, cas.disk);
    }
  }

  /** A large output put for the first time, its whole object evicted, other outputs put since,
      comes back byte for byte and with its mode.  The put itself fails on a wrong digest, and
      otherwise only over a patch against the path's last blob. */
  method PutEvictRestore(cas: LocalCas, output: Output, later: seq<Output>, destination: string)
    returns (put: Result<()>, restored: Result<bool>)
    requires cas.Safe() && NeverEmpty(cas.z) && IsDefault(cas.chunker) && cas.setting.Alone?
    requires Good(cas.z, cas.disk) && output.digest !in cas.disk.objects && output.digest !in cas.disk.manifests
    requires DEFAULT_MAX < |output.staged.bytes| < U64_LIMIT
    requires forall i :: 0 <= i < |later| ==> |later[i].staged.bytes| < U64_LIMIT
    modifies cas
    ensures NameOf(output.staged) != output.digest ==> put.Err?
    ensures NameOf(output.staged) == output.digest ==>
              NeverFails(cas.z) || !HasPrevious(old(cas.disk), output.source) ==> put.Ok?
    ensures put.Ok? ==> restored == Ok(true)
    ensures put.Ok? ==> destination in cas.files && cas.files[destination] == output.staged
  {
    var d := output.digest;
    put := cas.Put(output.source, output.staged, d);
    restored := Ok(false);
    if put.Ok? {
      assert GoodObject(d, cas.disk.objects[d]);
      ghost var s := cas.disk;
      var gone := cas.RemoveFile(Object(d));
      PutMore(cas, later);
      EvictedIsRestorable(cas.z, s, cas.disk, d);
      restored := cas.Materialize(d, destination);
      assert NameOf(cas.files[destination]) == NameOf(output.staged);
    }
  }

  /** Collections may take chunks and leave the manifest. */
  method RemoveChunks(cas: LocalCas)
    requires cas.Safe() && cas.setting.Alone? && Good(cas.z, cas.disk)
    modifies cas`disk
    ensures cas.Safe() && Good(cas.z, cas.disk)
    ensures cas.disk == old(cas.disk).(chunks := map[])
  {
    var todo := cas.disk.chunks.Keys;
    while todo != {}
      invariant cas.Safe() && Good(cas.z, cas.disk) && cas.disk == old(cas.disk).(chunks := cas.disk.chunks)
      invariant cas.disk.chunks.Keys == todo
      decreases |todo|
    {
      var d :| d in todo;
      var ok := cas.RemoveFile(Chunk(d));
      todo := todo - {d};
    }
    assert cas.disk.chunks == map[];
  }

  /** Starting from an empty store: an output is put, collected but for its manifest, and put again;
      both puts succeed, and once the object goes it cannot be restored. */
  method PutTwiceAndLose(cas: LocalCas, output: Output, destination: string)
    returns (first: Result<()>, second: Result<()>, restored: Result<bool>)
    requires NeverEmpty(cas.z) && IsDefault(cas.chunker) && cas.setting.Alone? && cas.disk == EMPTY
    requires NameOf(output.staged) == output.digest && DEFAULT_MAX < |output.staged.bytes| < U64_LIMIT
    modifies cas
    ensures first.Ok? && second.Ok? && restored != Ok(true)
  {
    var d := output.digest;
    first := cas.Put(output.source, output.staged, d);
    assert GoodObject(d, cas.disk.objects[d]);
    var gone := cas.RemoveFile(Object(d));
    RemoveChunks(cas);
    second := cas.Put(output.source, output.staged, d);
    assert GoodObject(d, cas.disk.objects[d]);
    gone := cas.RemoveFile(Object(d));
    NoChunksNoRestore(cas.z, cas.disk, d);
    restored := cas.Materialize(d, destination);
  }

  lemma {:induction false} NoChunksNoRestore(z: Codec, s: Disk, d: Digest)
    requires Good(z, s) && d in s.manifests && s.chunks == map[]
    ensures !FromChunksInSomeOrder(s, d)
  {
    assert GoodManifest(z, d, s.manifests[d]);
    var refs := s.manifests[d].value.chunks;
    forall order | SameRefs(order, refs)
      ensures !ReadyInOrder(s, order)
    {
      assert refs[0] in order;
      NeverReady(s, order);
    }
  }

  lemma {:induction false} NeverReady(s: Disk, refs: seq<ChunkRef>)
    requires s.chunks == map[] && refs != []
    ensures !ReadyInOrder(s, refs)
  {
    var before := refs[..|refs| - 1];
    if before == [] {
      assert Names(before) == {};
      assert s.chunks.Keys + Names(before) == {};
    } else {
      NeverReady(s, before);
    }
  }
}
