/** The content-addressed store on disk as a value: whole objects, FastCDC chunks, chunk
    manifests and delta patches.  A digest is a free constructor over what it digests, so two
    digests are equal exactly when their inputs are, and every other file name is a Text. */
module Store {
  import opened Wrappers
  import opened FastCdc

  datatype Digest = Sha(bytes: Bytes) | Blob(content: Bytes, exec: bool) | Text(text: string)

  datatype File = File(bytes: Bytes, exec: bool)

  /** The BLAKE3 digest of a file covers its executable bit. */
  function NameOf(f: File): Digest {
    Blob(f.bytes, f.exec)
  }

  const U64_LIMIT: nat := 0x1_0000_0000_0000_0000
  const U32_LIMIT: nat := 0x1_0000_0000
  const MANIFEST_VERSION: nat := 2
  const DEFAULT_AVG: nat := 524288
  const DEFAULT_MIN: nat := 131072
  const DEFAULT_MAX: nat := 2097152
  const DEFAULT_NORMALIZATION: nat := 2
  const DEFAULT_SEED: nat := 0

  /** The zstd calls: patch against a base, apply a patch, size of plain compression.  A zstd
      frame is never empty. */
  datatype Codec = Codec(delta: (Bytes, Bytes) -> Option<Bytes>, undelta: (Bytes, Bytes, nat) -> Option<Bytes>,
                         compressed: Bytes -> nat)

  ghost predicate NeverEmpty(z: Codec) {
    forall base, target :: z.delta(base, target) != Some([])
  }

  datatype DeltaRef = DeltaRef(base: Digest, patch: Digest, patchBytes: nat)

  datatype ChunkRef = ChunkRef(sha: Digest, length: nat, delta: Option<DeltaRef>)

  datatype Manifest = Manifest(version: nat, digest: Digest, total: nat, executable: bool, average: nat, minimum: nat,
                               maximum: nat, normalization: nat, seed: nat, chunks: seq<ChunkRef>)

  predicate IsHex(c: char) {
    '0' <= c <= '9' || 'a' <= c <= 'f' || 'A' <= c <= 'F'
  }

  /** 64 hexadecimal digits. */
  predicate IsDigest(d: Digest) {
    d.Text? ==> |d.text| == 64 && forall i :: 0 <= i < 64 ==> IsHex(d.text[i])
  }

  // --------------------------------------------------------------- manifests

  function Total(refs: seq<ChunkRef>): nat {
    if refs == [] then 0 else Total(refs[..|refs| - 1]) + refs[|refs| - 1].length
  }

  function Piece(r: ChunkRef): Bytes {
    if r.sha.Sha? then r.sha.bytes else []
  }

  function Contents(refs: seq<ChunkRef>): Bytes {
    if refs == [] then [] else Contents(refs[..|refs| - 1]) + Piece(refs[|refs| - 1])
  }

  predicate ValidRef(r: ChunkRef) {
    && 0 < r.length <= DEFAULT_MAX && IsDigest(r.sha)
    && (r.delta.Some? ==> IsDigest(r.delta.value.base) && IsDigest(r.delta.value.patch) && r.delta.value.patchBytes > 0)
  }

  /** The running u64 sum of the lengths, None on overflow. */
  function CheckedTotal(refs: seq<ChunkRef>): Option<nat> {
    if refs == [] then Some(0)
    else
      var t := CheckedTotal(refs[..|refs| - 1]);
      if t.Some? && t.value + refs[|refs| - 1].length < U64_LIMIT then Some(t.value + refs[|refs| - 1].length) else None
  }

  predicate ValidManifest(m: Manifest, expected: Digest) {
    && m.version == MANIFEST_VERSION && m.digest == expected
    && m.average == DEFAULT_AVG && m.minimum == DEFAULT_MIN && m.maximum == DEFAULT_MAX
    && m.normalization == DEFAULT_NORMALIZATION && m.seed == DEFAULT_SEED
    && m.chunks != [] && (forall i {:trigger m.chunks[i]} :: 0 <= i < |m.chunks| ==> ValidRef(m.chunks[i]))
    && CheckedTotal(m.chunks) == Some(m.total)
  }

  lemma {:induction false} CheckedIsTotal(refs: seq<ChunkRef>)
    ensures CheckedTotal(refs) == if Total(refs) < U64_LIMIT then Some(Total(refs)) else None
  {
    if refs != [] {
      CheckedIsTotal(refs[..|refs| - 1]);
    }
  }

  // -------------------------------------------------------------- good entries

  /** A reference names bytes of its length, and its patch turns its base into them. */
  predicate GoodRef(z: Codec, r: ChunkRef) {
    && r.sha.Sha? && |r.sha.bytes| == r.length
    && (r.delta.Some? ==> GoodDelta(z, r.delta.value, r.sha.bytes))
  }

  predicate GoodDelta(z: Codec, d: DeltaRef, target: Bytes) {
    && d.base.Sha? && d.patch.Sha? && |d.patch.bytes| == d.patchBytes
    && z.undelta(d.base.bytes, d.patch.bytes, |target|) == Some(target)
  }

  /** The manifest passes validation and its chunks concatenate to the blob it names. */
  predicate Faithful(z: Codec, m: Manifest, d: Digest) {
    && ValidManifest(m, d)
    && (forall i {:trigger m.chunks[i]} :: 0 <= i < |m.chunks| ==> GoodRef(z, m.chunks[i]))
    && d == Blob(Contents(m.chunks), m.executable)
  }

  /** objects, chunks and manifests are keyed by digest, patches by target and patch digest;
      a manifest that does not decode is None; heads map an output path to its last blob. */
  datatype Disk = Disk(objects: map<Digest, File>, chunks: map<Digest, Bytes>, manifests: map<Digest, Option<Manifest>>,
                       patches: map<(Digest, Digest), Bytes>, heads: map<string, Digest>)

  predicate GoodObject(d: Digest, f: File) {
    NameOf(f) == d && |f.bytes| < U64_LIMIT
  }

  predicate GoodChunk(d: Digest, bytes: Bytes) {
    Sha(bytes) == d
  }

  predicate GoodManifest(z: Codec, d: Digest, m: Option<Manifest>) {
    m.Some? && Faithful(z, m.value, d)
  }

  predicate GoodPatch(key: (Digest, Digest), bytes: Bytes) {
    Sha(bytes) == key.1
  }

  predicate GoodObjects(objects: map<Digest, File>) {
    forall d {:trigger objects[d]} :: d in objects ==> GoodObject(d, objects[d])
  }

  predicate GoodChunks(chunks: map<Digest, Bytes>) {
    forall d {:trigger chunks[d]} :: d in chunks ==> GoodChunk(d, chunks[d])
  }

  predicate GoodManifests(z: Codec, manifests: map<Digest, Option<Manifest>>) {
    forall d {:trigger manifests[d]} :: d in manifests ==> GoodManifest(z, d, manifests[d])
  }

  predicate GoodPatches(patches: map<(Digest, Digest), Bytes>) {
    forall k {:trigger patches[k]} :: k in patches ==> GoodPatch(k, patches[k])
  }

  /** Every object, chunk and patch hashes to its name, and each manifest's chunks concatenate
      to the blob it names. */
  predicate Good(z: Codec, s: Disk) {
    GoodObjects(s.objects) && GoodChunks(s.chunks) && GoodManifests(z, s.manifests) && GoodPatches(s.patches)
  }

  // ------------------------------------------------------------- atomic steps

  datatype Entry = Object(d: Digest) | Chunk(d: Digest) | ManifestOf(d: Digest) | Patch(target: Digest, patch: Digest)

  /** One atomic change of the store: a rename into place, the head pointer, or a removal. */
  datatype Step =
    | PutObject(file: File)
    | PutChunk(content: Bytes)
    | PutPatch(target: Digest, diff: Bytes)
    | PutManifest(manifest: Manifest)
    | PutHead(source: string, head: Digest)
    | Remove(entry: Entry)

  function RemoveEntry(s: Disk, e: Entry): Disk {
    match e
    case Object(d) => s.(objects := s.objects - {d})
    case Chunk(d) => s.(chunks := s.chunks - {d})
    case ManifestOf(d) => s.(manifests := s.manifests - {d})
    case Patch(t, p) => s.(patches := s.patches - {(t, p)})
  }

  /** Publications file an entry under the digest computed from its content. */
  function Apply(s: Disk, step: Step): Disk {
    match step
    case PutObject(f) => s.(objects := s.objects[NameOf(f) := f])
    case PutChunk(b) => s.(chunks := s.chunks[Sha(b) := b])
    case PutPatch(t, p) => s.(patches := s.patches[(t, Sha(p)) := p])
    case PutManifest(m) => s.(manifests := s.manifests[m.digest := Some(m)])
    case PutHead(src, d) => s.(heads := s.heads[src := d])
    case Remove(e) => RemoveEntry(s, e)
  }

  /** What the code has checked before it takes the step. */
  predicate Justified(z: Codec, step: Step) {
    match step
    case PutObject(f) => |f.bytes| < U64_LIMIT
    case PutManifest(m) => Faithful(z, m, m.digest)
    case _ => true
  }

  lemma {:induction false} RemoveKeepsGood(z: Codec, s: Disk, e: Entry)
    requires Good(z, s)
    ensures Good(z, RemoveEntry(s, e))
  {
    match e
    case Object(d) => assert GoodObjects(s.objects - {d});
    case Chunk(d) => assert GoodChunks(s.chunks - {d});
    case ManifestOf(d) =>
      forall k | k in s.manifests - {d}
        ensures GoodManifest(z, k, s.manifests[k])
      {
      }
    case Patch(t, p) => assert GoodPatches(s.patches - {(t, p)});
  }

  lemma {:induction false} StepKeepsGood(z: Codec, s: Disk, step: Step)
    requires Good(z, s) && Justified(z, step)
    ensures Good(z, Apply(s, step))
  {
    match step
    case PutObject(f) =>
    case PutManifest(m) =>
    case Remove(e) => RemoveKeepsGood(z, s, e);
    case _ =>
  }

  function Replay(s: Disk, steps: seq<Step>): Disk {
    if steps == [] then s else Apply(Replay(s, steps[..|steps| - 1]), steps[|steps| - 1])
  }

  const EMPTY := Disk(map[], map[], map[], map[], map[])

  /** Whatever puts, restores and collections ran and however their file steps interleaved, the
      store is good. */
  lemma {:induction false} RunKeepsGood(z: Codec, steps: seq<Step>)
    requires forall i :: 0 <= i < |steps| ==> Justified(z, steps[i])
    ensures Good(z, Replay(EMPTY, steps))
  {
    if steps != [] {
      RunKeepsGood(z, steps[..|steps| - 1]);
      StepKeepsGood(z, Replay(EMPTY, steps[..|steps| - 1]), steps[|steps| - 1]);
    }
  }

  // ------------------------------------------------------------------ restoring

  /** The chunk survives, or its patch and the patch's base do. */
  predicate Available(chunks: set<Digest>, patches: set<(Digest, Digest)>, r: ChunkRef) {
    r.sha in chunks || (r.delta.Some? && r.delta.value.base in chunks && (r.sha, r.delta.value.patch) in patches)
  }

  predicate Obtainable(s: Disk, r: ChunkRef) {
    Available(s.chunks.Keys, s.patches.Keys, r)
  }

  /** The object is there, or the manifest and each chunk it needs. */
  predicate Restorable(s: Disk, d: Digest) {
    d in s.objects || FromChunks(s, d)
  }

  predicate FromChunks(s: Disk, d: Digest) {
    && d in s.manifests && s.manifests[d].Some?
    && var refs := s.manifests[d].value.chunks;
       forall i {:trigger refs[i]} :: 0 <= i < |refs| ==> Obtainable(s, refs[i])
  }

  function Names(refs: seq<ChunkRef>): set<Digest> {
    if refs == [] then {} else Names(refs[..|refs| - 1]) + {refs[|refs| - 1].sha}
  }

  /** Taken in order, every reference is available, where a chunk rebuilt for an earlier
      reference may serve as the base of a later one. */
  predicate ReadyInOrder(s: Disk, refs: seq<ChunkRef>) {
    refs == [] ||
    var before, last := refs[..|refs| - 1], refs[|refs| - 1];
    ReadyInOrder(s, before) && Available(s.chunks.Keys + Names(before), s.patches.Keys, last)
  }

  predicate FromChunksInOrder(s: Disk, d: Digest) {
    d in s.manifests && s.manifests[d].Some? && ReadyInOrder(s, s.manifests[d].value.chunks)
  }

  /** Everything in s is still in t. */
  predicate Grows(s: Disk, t: Disk) {
    && (forall d {:trigger s.objects[d]} :: d in s.objects ==> d in t.objects && t.objects[d] == s.objects[d])
    && (forall d {:trigger s.chunks[d]} :: d in s.chunks ==> d in t.chunks && t.chunks[d] == s.chunks[d])
    && (forall d {:trigger s.manifests[d]} :: d in s.manifests ==> d in t.manifests && t.manifests[d] == s.manifests[d])
    && (forall k {:trigger s.patches[k]} :: k in s.patches ==> k in t.patches && t.patches[k] == s.patches[k])
  }

  lemma {:induction false} GrowsTransitive(s: Disk, t: Disk, u: Disk)
    requires Grows(s, t) && Grows(t, u)
    ensures Grows(s, u)
  {
  }

  // ------------------------------------------------------------------- repairs

  /** A manifest file that fails to decode or to validate. */
  predicate BadManifest(d: Digest, m: Option<Manifest>) {
    m.None? || !ValidManifest(m.value, d)
  }

  /** From s to t only entries that fail their check went away, and only chunks that pass
      theirs appeared. */
  predicate OnlyRepairs(s: Disk, t: Disk) {
    && t.heads == s.heads
    && (forall d {:trigger t.objects[d]} :: d in t.objects ==> d in s.objects && t.objects[d] == s.objects[d])
    && (forall d {:trigger s.objects[d]} :: d in s.objects ==> d in t.objects || NameOf(s.objects[d]) != d)
    && (forall d {:trigger t.chunks[d]} :: d in t.chunks ==>
           (d in s.chunks && t.chunks[d] == s.chunks[d]) || GoodChunk(d, t.chunks[d]))
    && (forall d {:trigger s.chunks[d]} :: d in s.chunks && GoodChunk(d, s.chunks[d]) ==>
           d in t.chunks && t.chunks[d] == s.chunks[d])
    && (forall d {:trigger t.manifests[d]} :: d in t.manifests ==> d in s.manifests && t.manifests[d] == s.manifests[d])
    && (forall d {:trigger s.manifests[d]} :: d in s.manifests ==> d in t.manifests || BadManifest(d, s.manifests[d]))
    && (forall k {:trigger t.patches[k]} :: k in t.patches ==> k in s.patches && t.patches[k] == s.patches[k])
    && (forall k {:trigger s.patches[k]} :: k in s.patches ==> k in t.patches || !GoodPatch(k, s.patches[k]))
  }

  lemma {:induction false} RepairsTransitive(s: Disk, t: Disk, u: Disk)
    requires OnlyRepairs(s, t) && OnlyRepairs(t, u)
    ensures OnlyRepairs(s, u)
  {
  }
}
