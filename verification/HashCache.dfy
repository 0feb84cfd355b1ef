/** HashCache of hashcache.rs: a snapshot loaded from disk, the updates of this build, and the
    digests already settled.  A query answers as hashing the file would, as long as every path
    frost rewrote was invalidated. */
module HashCache {
  import opened Wrappers

  type Path = string
  type Hash = string

  const MISSING: Hash := "MISSING"

  /** Modification time, size with the mode mixed in, inode. */
  datatype Stat = Stat(mtime: int, size: nat, ino: nat)

  datatype Entry = Entry(stat: Stat, hash: Hash)

  /** A file as metadata and hash_file see it. */
  datatype FileState = FileState(stat: Stat, hash: Hash)

  type Tree = map<Path, FileState>

  /** i128::MIN. */
  const NEVER: int := -0x8000_0000_0000_0000_0000_0000_0000_0000

  const TOMBSTONE := Entry(Stat(NEVER, 0, 0), "")

  /** Uncached hashing. */
  function Direct(tree: Tree, p: Path): Hash {
    if p in tree then tree[p].hash else MISSING
  }

  predicate Live(e: Option<Entry>) {
    e.Some? && e.value.hash != ""
  }

  function Get(entries: map<Path, Entry>, p: Path): Option<Entry> {
    if p in entries then Some(entries[p]) else None
  }

  /** An entry whose stat matches tells the truth. */
  predicate Truthful(e: Option<Entry>, tree: Tree, p: Path) {
    Live(e) && p in tree && e.value.stat == tree[p].stat ==> e.value.hash == tree[p].hash
  }

  predicate SettledRight(settled: map<Path, Hash>, tree: Tree, p: Path) {
    p in settled ==> settled[p] == Direct(tree, p)
  }

  class HashCache {
    var snapshot: map<Path, Entry>
    var updates: map<Path, Entry>
    var changed: bool
    var settled: map<Path, Hash>

    /** load; an absent or undecodable file gives an empty snapshot. */
    constructor (disk: Option<map<Path, Entry>>)
      ensures Valid() && snapshot == (if disk.Some? then disk.value else map[]) && updates == map[] && settled == map[]
      ensures !changed
    {
      snapshot := if disk.Some? then disk.value else map[];
      updates, settled, changed := map[], map[], false;
    }

    /** Updates are consulted only once the flag is up. */
    predicate Valid()
      reads `updates, `changed
    {
      updates != map[] ==> changed
    }

    /** lookup. */
    function Lookup(p: Path): (e: Option<Entry>)
      reads `snapshot, `updates, `changed
    {
      if changed && p in updates then Some(updates[p]) else Get(snapshot, p)
    }

    /** What is cached for a path agrees with the tree. */
    predicate Fits(tree: Tree, p: Path)
      reads this
    {
      SettledRight(settled, tree, p) && Truthful(Lookup(p), tree, p)
    }

    ghost predicate Coherent(tree: Tree, dirty: set<Path>)
      reads this
    {
      Valid() && forall p {:trigger Fits(tree, p)} :: p !in dirty ==> Fits(tree, p)
    }

    /** store. */
    method Store(tree: Tree, ghost dirty: set<Path>, p: Path, e: Entry)
      requires Coherent(tree, dirty) && (p !in dirty ==> Truthful(Some(e), tree, p))
      modifies `updates, `changed
      ensures Coherent(tree, dirty)
      ensures Lookup(p) == Some(e) && forall q :: q != p ==> Lookup(q) == old(Lookup(q))
    {
      updates, changed := updates[p := e], true;
      forall q | q !in dirty
        ensures Fits(tree, q)
      {
        assert old(Fits(tree, q));
      }
    }

    /** settle. */
    method Settle(tree: Tree, ghost dirty: set<Path>, p: Path, h: Hash)
      requires Coherent(tree, dirty) && (p !in dirty ==> h == Direct(tree, p))
      modifies `settled
      ensures Coherent(tree, dirty)
      ensures settled == old(settled)[p := h]
    {
      settled := settled[p := h];
      forall q | q !in dirty
        ensures Fits(tree, q)
      {
        assert old(Fits(tree, q));
      }
    }

    /** forget: the removal is remembered, so the snapshot is not consulted again. */
    method Forget(tree: Tree, ghost dirty: set<Path>, p: Path)
      requires Coherent(tree, dirty)
      modifies this
      ensures Coherent(tree, dirty - {p})
      ensures settled == old(settled) - {p} && snapshot == old(snapshot)
      ensures Lookup(p) == Some(TOMBSTONE) && forall q :: q != p ==> Lookup(q) == old(Lookup(q))
    {
      updates, settled, changed := updates[p := TOMBSTONE], settled - {p}, true;
      forall q | q !in dirty - {p}
        ensures Fits(tree, q)
      {
        assert q != p ==> old(Fits(tree, q));
      }
    }

    /** invalidate: the path is clean again, whatever was written to it. */
    method Invalidate(tree: Tree, ghost dirty: set<Path>, p: Path)
      requires Coherent(tree, dirty)
      modifies this
      ensures Coherent(tree, dirty - {p})
      ensures p !in settled && !Live(Lookup(p))
    {
      Forget(tree, dirty, p);
    }

    /** digest. */
    method Digest(tree: Tree, ghost dirty: set<Path>, p: Path) returns (r: Hash)
      requires Coherent(tree, dirty)
      modifies this
      ensures Coherent(tree, dirty)
      ensures p !in dirty || (p !in old(settled) && !Live(old(Lookup(p)))) ==> r == Direct(tree, p)
    {
      assert p !in dirty ==> Fits(tree, p);
      if p in settled {
        return settled[p];
      }
      if p !in tree {
        if Live(Lookup(p)) {
          Forget(tree, dirty, p);
        }
        return MISSING;
      }
      var e := Lookup(p);
      if Live(e) && e.value.stat == tree[p].stat {
        Settle(tree, dirty, p, e.value.hash);
        return e.value.hash;
      }
      r := tree[p].hash;
      Settle(tree, dirty, p, r);
      Store(tree, dirty, p, Entry(tree[p].stat, r));
    }

    /** The first pass over one path of digest_many: an answer, or a miss to hash later. */
    method Probe(tree: Tree, ghost dirty: set<Path>, p: Path) returns (hit: Option<Hash>)
      requires Coherent(tree, dirty)
      modifies this
      ensures Coherent(tree, dirty)
      ensures p !in dirty && hit.Some? ==> hit.value == Direct(tree, p)
      ensures hit.None? ==> p in tree
    {
      assert p !in dirty ==> Fits(tree, p);
      if p in settled {
        return Some(settled[p]);
      }
      if p !in tree {
        if Live(Lookup(p)) {
          Forget(tree, dirty, p);
        }
        return Some(MISSING);
      }
      var e := Lookup(p);
      if Live(e) && e.value.stat == tree[p].stat {
        Settle(tree, dirty, p, e.value.hash);
        return Some(e.value.hash);
      }
      return None;
    }

    /** digest_many: misses are hashed together and written back afterwards. */
    method DigestMany(tree: Tree, ghost dirty: set<Path>, paths: seq<Path>) returns (ready: map<Path, Hash>)
      requires Coherent(tree, dirty)
      modifies this
      ensures Coherent(tree, dirty)
      ensures forall p :: p in ready <==> p in paths
      ensures forall p :: p in ready && p !in dirty ==> ready[p] == Direct(tree, p)
    {
      ready := map[];
      var misses: seq<Path> := [];
      for i := 0 to |paths|
        invariant Coherent(tree, dirty)
        invariant forall p :: p in ready || p in misses <==> p in paths[..i]
        invariant forall p :: p in ready && p !in dirty ==> ready[p] == Direct(tree, p)
        invariant forall p :: p in misses ==> p in tree
      {
        var hit := Probe(tree, dirty, paths[i]);
        if hit.Some? {
          ready := ready[paths[i] := hit.value];
        } else {
          misses := misses + [paths[i]];
        }
      }
      assert paths[..|paths|] == paths;
      for i := 0 to |misses|
        invariant Coherent(tree, dirty)
        invariant forall p :: p in ready || p in misses[i..] <==> p in paths
        invariant forall p :: p in ready && p !in dirty ==> ready[p] == Direct(tree, p)
      {
        var p := misses[i];
        assert p in misses && p in misses[i..] && misses[i..] == [p] + misses[i + 1..];
        Settle(tree, dirty, p, tree[p].hash);
        Store(tree, dirty, p, Entry(tree[p].stat, tree[p].hash));
        ready := ready[p := tree[p].hash];
      }
    }

    /** One check of matches_many, which reads only. */
    method Check(tree: Tree, p: Path, digest: Hash) returns (matched: bool, update: Option<Entry>)
      ensures Truthful(Lookup(p), tree, p) ==> (matched <==> Direct(tree, p) == digest)
      ensures update.Some? ==> p in tree && update.value == Entry(tree[p].stat, tree[p].hash)
    {
      if p !in tree {
        return digest == MISSING, None;
      }
      var e := Lookup(p);
      if Live(e) && e.value.stat == tree[p].stat {
        return e.value.hash == digest, None;
      }
      return tree[p].hash == digest, Some(Entry(tree[p].stat, tree[p].hash));
    }

    /** matches_many: the checks all run against the cache as it was, then the updates are
        stored. */
    method MatchesMany(tree: Tree, ghost dirty: set<Path>, expected: seq<(Path, Hash)>) returns (matches: bool)
      requires Coherent(tree, dirty)
      modifies this
      ensures Coherent(tree, dirty)
      ensures (forall x :: x in expected ==> x.0 !in dirty) ==>
                (matches <==> forall x :: x in expected ==> Direct(tree, x.0) == x.1)
    {
      var checked: seq<(bool, Option<Entry>)> := [];
      for i := 0 to |expected|
        invariant |checked| == i && Coherent(tree, dirty)
        invariant forall k {:trigger checked[k]} :: 0 <= k < i ==>
                    && (expected[k].0 !in dirty ==> (checked[k].0 <==> Direct(tree, expected[k].0) == expected[k].1))
                    && (checked[k].1.Some? ==>
                          && expected[k].0 in tree
                          && checked[k].1.value == Entry(tree[expected[k].0].stat, tree[expected[k].0].hash))
      {
        assert expected[i].0 !in dirty ==> Fits(tree, expected[i].0);
        var matched, update := Check(tree, expected[i].0, expected[i].1);
        checked := checked + [(matched, update)];
      }
      matches := true;
      for i := 0 to |checked|
        invariant Coherent(tree, dirty)
        invariant matches <==> forall k {:trigger checked[k]} :: 0 <= k < i ==> checked[k].0
      {
        matches := matches && checked[i].0;
        if checked[i].1.Some? {
          Store(tree, dirty, expected[i].0, checked[i].1.value);
        }
      }
      if forall x :: x in expected ==> x.0 !in dirty {
        forall k | 0 <= k < |checked|
          ensures checked[k].0 <==> Direct(tree, expected[k].0) == expected[k].1
        {
          assert expected[k] in expected;
        }
      }
    }

    /** save: the file is rewritten only if something changed. */
    method Save(disk: Option<map<Path, Entry>>) returns (after: Option<map<Path, Entry>>)
      requires Valid() && snapshot == (if disk.Some? then disk.value else map[])
      ensures forall p :: Live(Lookup(p)) ==> after.Some? && Get(after.value, p) == Lookup(p)
      ensures forall p :: after.Some? && Live(Get(after.value, p)) ==> Lookup(p) == Get(after.value, p)
      ensures forall p :: Lookup(p) == Some(TOMBSTONE) && p in updates ==> after.Some? && p !in after.value
    {
      if !changed {
        return disk;
      }
      var merged := snapshot;
      var todo := updates.Keys;
      while todo != {}
        invariant todo <= updates.Keys
        invariant forall p :: p !in updates || p in todo ==> Get(merged, p) == Get(snapshot, p)
        invariant forall p :: p in updates && p !in todo ==>
                    Get(merged, p) == if updates[p].hash == "" then None else Some(updates[p])
      {
        var p :| p in todo;
        if updates[p].hash == "" {
          merged := merged - {p};
        } else {
          merged := merged[p := updates[p]];
        }
        todo := todo - {p};
      }
      return Some(merged);
    }
  }

  /** Loading what was saved finds every live entry again and no tombstone. */
  method SaveAndLoad(cache: HashCache, disk: Option<map<Path, Entry>>) returns (next: HashCache)
    requires cache.Valid() && cache.snapshot == (if disk.Some? then disk.value else map[])
    ensures fresh(next) && next.Valid()
    ensures forall p :: Live(cache.Lookup(p)) ==> next.Lookup(p) == cache.Lookup(p)
    ensures forall p :: !Live(cache.Lookup(p)) ==> !Live(next.Lookup(p))
  {
    var saved := cache.Save(disk);
    next := new HashCache(saved);
  }

  /** A cache fresh from disk is coherent exactly when every snapshot entry whose stat still
      matches has the right hash. */
  lemma {:induction false} FreshIsCoherent(cache: HashCache, tree: Tree)
    requires cache.updates == map[] && cache.settled == map[]
    ensures cache.Coherent(tree, {}) <==> forall p :: Truthful(Get(cache.snapshot, p), tree, p)
  {
    forall p
      ensures cache.Fits(tree, p) <==> Truthful(Get(cache.snapshot, p), tree, p)
    {
    }
  }

  // ------------------------------------------------------------- whole builds

  /** A query, a write by frost (None removes the file), or the invalidation that follows it. */
  datatype Op =
    | Ask(path: Path)
    | AskMany(paths: seq<Path>)
    | Match(expected: seq<(Path, Hash)>)
    | Write(target: Path, state: Option<FileState>)
    | Drop(written: Path)

  datatype Answer = One(hash: Hash) | Many(hashes: map<Path, Hash>) | Verdict(ok: bool) | Nothing

  function Written(tree: Tree, p: Path, state: Option<FileState>): Tree {
    if state.Some? then tree[p := state.value] else tree - {p}
  }

  function After(tree: Tree, op: Op): Tree {
    if op.Write? then Written(tree, op.target, op.state) else tree
  }

  function DirtyAfter(dirty: set<Path>, op: Op): set<Path> {
    match op
    case Write(p, _) => dirty + {p}
    case Drop(p) => dirty - {p}
    case _ => dirty
  }

  /** What uncached hashing answers. */
  function Uncached(tree: Tree, op: Op): Answer {
    match op
    case Ask(p) => One(Direct(tree, p))
    case AskMany(ps) => Many(map p | p in ps :: Direct(tree, p))
    case Match(expected) => Verdict(forall x :: x in expected ==> Direct(tree, x.0) == x.1)
    case _ => Nothing
  }

  /** A query asks for no path that was written and not yet invalidated. */
  predicate Clean(dirty: set<Path>, op: Op) {
    match op
    case Ask(p) => p !in dirty
    case AskMany(ps) => forall p :: p in ps ==> p !in dirty
    case Match(expected) => forall x :: x in expected ==> x.0 !in dirty
    case _ => true
  }

  function TreeAt(tree: Tree, ops: seq<Op>, n: nat): Tree
    requires n <= |ops|
  {
    if n == 0 then tree else After(TreeAt(tree, ops, n - 1), ops[n - 1])
  }

  function DirtyAt(ops: seq<Op>, n: nat): set<Path>
    requires n <= |ops|
  {
    if n == 0 then {} else DirtyAfter(DirtyAt(ops, n - 1), ops[n - 1])
  }

  /** One operation on the cache. */
  method Perform(cache: HashCache, tree: Tree, ghost dirty: set<Path>, op: Op) returns (answer: Answer)
    requires cache.Coherent(tree, dirty) && Clean(dirty, op)
    modifies cache
    ensures cache.Coherent(After(tree, op), DirtyAfter(dirty, op))
    ensures answer == Uncached(tree, op)
  {
    match op {
      case Ask(p) =>
        var h := cache.Digest(tree, dirty, p);
        answer := One(h);
      case AskMany(ps) =>
        var hs := cache.DigestMany(tree, dirty, ps);
        assert hs == map p | p in ps :: Direct(tree, p);
        answer := Many(hs);
      case Match(expected) =>
        var ok := cache.MatchesMany(tree, dirty, expected);
        answer := Verdict(ok);
      case Write(p, state) =>
        forall q | q !in dirty + {p}
          ensures cache.Fits(Written(tree, p, state), q)
        {
          assert cache.Fits(tree, q);
        }
        answer := Nothing;
      case Drop(p) =>
        cache.Invalidate(tree, dirty, p);
        answer := Nothing;
    }
  }

  /** A whole build: starting from a snapshot whose matching stats tell the truth, every query
      of every sequence is answered as uncached hashing would, though frost's own writes may
      leave the stat of a file as it was. */
  method Build(cache: HashCache, tree: Tree, ops: seq<Op>) returns (answers: seq<Answer>)
    requires cache.Coherent(tree, {})
    requires forall i {:trigger ops[i]} :: 0 <= i < |ops| ==> Clean(DirtyAt(ops, i), ops[i])
    modifies cache
    ensures |answers| == |ops|
    ensures forall i {:trigger answers[i]} :: 0 <= i < |ops| ==> answers[i] == Uncached(TreeAt(tree, ops, i), ops[i])
  {
    answers := [];
    var now := tree;
    for i := 0 to |ops|
      invariant |answers| == i && now == TreeAt(tree, ops, i)
      invariant cache.Coherent(now, DirtyAt(ops, i))
      invariant forall k {:trigger answers[k]} :: 0 <= k < i ==> answers[k] == Uncached(TreeAt(tree, ops, k), ops[k])
    {
      var answer := Perform(cache, now, DirtyAt(ops, i), ops[i]);
      answers := answers + [answer];
      now := After(now, ops[i]);
    }
  }
}
