/** The state frostd keeps under its mutex, and every locked section of the server thread and
    of the watcher callback.  Each method of the class is tied to a function on values; the
    protocol that interleaves these sections is in BarrierProtocol. */
module Daemon {
  import Decimal
  import opened Wrappers

  /** A workspace-relative path, by components. */
  type Path = seq<string>

  const BARRIER_PREFIX := ".frostd-barrier-"
  const U64_LIMIT: nat := 0x1_0000_0000_0000_0000

  /** u64::from_str: an optional plus sign and at least one digit, without overflow. */
  function ParseU64(s: string): Option<nat> {
    var digits := if s != [] && s[0] == '+' then s[1..] else s;
    if digits == [] || !Decimal.AllDigits(digits) then None
    else if Decimal.Value(digits) >= U64_LIMIT then None
    else Some(Decimal.Value(digits))
  }

  /** watcher_barrier_id. */
  function BarrierId(p: Path): Option<nat> {
    if |p| == 2 && p[0] == ".frost" && BARRIER_PREFIX <= p[1] then ParseU64(p[1][|BARRIER_PREFIX|..]) else None
  }

  function MarkerPath(id: nat): Path {
    [".frost", BARRIER_PREFIX + Decimal.Print(id)]
  }

  /** The callback recognises every marker the daemon writes, and only by its own id. */
  lemma {:induction false} MarkerIsRecognised(id: nat)
    requires id < U64_LIMIT
    ensures BarrierId(MarkerPath(id)) == Some(id)
  {
    Decimal.ValueOfPrint(id);
    var name := MarkerPath(id)[1];
    assert name[|BARRIER_PREFIX|..] == Decimal.Print(id);
    assert Decimal.Print(id)[0] != '+';
  }

  /** Paths whose changes count: neither a marker nor inside .git. */
  predicate Relevant(p: Path) {
    BarrierId(p).None? && !(p != [] && p[0] == ".git")
  }

  /** The output-affecting part of a request: profile, platform and keying environment. */
  type Key = string
  /** What a successful scan established: the paths read and what was read there. */
  type Readings = seq<(Path, Option<string>)>

  datatype CachedNoop<P> = CachedNoop(key: Key, proof: P)

  datatype State<P> = State(dirty: set<Path>, trusted: bool, epoch: nat, nextBarrier: nat, barrierSeen: nat,
                            cached: Option<CachedNoop<P>>)

  const INITIAL_EPOCH: nat := 0

  function Initial<P>(): State<P> {
    State({}, true, INITIAL_EPOCH, 0, 0, None)
  }

  /** What the backend hands to the callback. */
  datatype Notice = Failed | Other | Touched(paths: seq<Path>)

  function Max(a: nat, b: nat): nat {
    if a >= b then a else b
  }

  /** One path of a create, modify or remove event. */
  function TouchOne<P>(s: State<P>, p: Path): State<P> {
    match BarrierId(p)
    case Some(id) => s.(barrierSeen := Max(s.barrierSeen, id))
    case None =>
      if p != [] && p[0] == ".git" then s
      else s.(dirty := s.dirty + {p}, cached := None, epoch := s.epoch + 1)
  }

  function Touch<P>(s: State<P>, paths: seq<Path>): State<P> {
    if paths == [] then s else TouchOne(Touch(s, paths[..|paths| - 1]), paths[|paths| - 1])
  }

  function Distrust<P>(s: State<P>): State<P> {
    s.(trusted := false, cached := None)
  }

  function OnNotice<P>(s: State<P>, n: Notice): State<P> {
    match n
    case Failed => Distrust(s).(epoch := s.epoch + 1)
    case Other => s
    case Touched(paths) => Touch(s, paths)
  }

  function ProofFor<P>(s: State<P>, key: Key): Option<P> {
    if s.trusted && s.dirty == {} && s.cached.Some? && s.cached.value.key == key then Some(s.cached.value.proof)
    else None
  }

  /** The verdict of a barrier under the lock, after waiting or timing out. */
  predicate Observed<P>(s: State<P>, id: nat) {
    s.trusted && s.barrierSeen >= id
  }

  function AfterBarrier<P>(s: State<P>, id: nat): State<P> {
    if Observed(s, id) then s else Distrust(s)
  }

  predicate GateOpen<P>(s: State<P>) {
    s.trusted && s.dirty == {} && s.cached.Some?
  }

  function AfterOpen<P>(s: State<P>, ready: bool): State<P> {
    if ready && s.trusted then s.(dirty := {}) else s
  }

  predicate Quiet<P>(s: State<P>, stable: bool, baseline: nat) {
    stable && s.trusted && s.epoch == baseline
  }

  function AfterScan<P>(s: State<P>, stable: bool, baseline: nat, key: Key, proof: Option<P>): State<P> {
    if Quiet(s, stable, baseline)
      then s.(dirty := {}, cached := if proof.Some? then Some(CachedNoop(key, proof.value)) else None)
      else s.(cached := None)
  }

  /** No shortcut is open, now or after any later event. */
  ghost predicate NeverAnswers<P>(s: State<P>) {
    && (forall key :: ProofFor(s, key).None?) && !GateOpen(s)
    && forall n: Notice, key :: ProofFor(OnNotice(s, n), key).None? && !GateOpen(OnNotice(s, n))
  }

  lemma {:induction false} TouchNeverTrusts<P>(s: State<P>, paths: seq<Path>)
    requires !s.trusted
    ensures !Touch(s, paths).trusted
  {
    if paths != [] {
      TouchNeverTrusts(s, paths[..|paths| - 1]);
    }
  }

  lemma {:induction false} DistrustIsFinal<P>(s: State<P>)
    requires !s.trusted
    ensures NeverAnswers(s)
  {
    forall n: Notice
      ensures !OnNotice(s, n).trusted
    {
      if n.Touched? {
        TouchNeverTrusts(s, n.paths);
      }
    }
  }

  /** The mutex-protected object.  Counters do not wrap in this model. */
  class SharedState<P> {
    var dirty: set<Path>
    var trusted: bool
    var epoch: nat
    var nextBarrier: nat
    var barrierSeen: nat
    var cached: Option<CachedNoop<P>>

    function Value(): State<P>
      reads this
    {
      State(dirty, trusted, epoch, nextBarrier, barrierSeen, cached)
    }

    constructor ()
      ensures Value() == Initial()
    {
      dirty, trusted, epoch, nextBarrier, barrierSeen, cached := {}, true, INITIAL_EPOCH, 0, 0, None;
    }

    /** The watcher callback. */
    method OnEvent(n: Notice)
      modifies this
      ensures Value() == OnNotice(old(Value()), n)
    {
      match n
      case Failed =>
        trusted := false;
        cached := None;
        epoch := epoch + 1;
      case Other =>
      case Touched(paths) =>
        ghost var before := Value();
        for i := 0 to |paths|
          invariant Value() == Touch(before, paths[..i])
        {
          assert paths[..i + 1][..i] == paths[..i];
          var p := paths[i];
          match BarrierId(p) {
            case Some(id) =>
              barrierSeen := Max(barrierSeen, id);
            case None =>
              if !(p != [] && p[0] == ".git") {
                dirty := dirty + {p};
                cached := None;
                epoch := epoch + 1;
              }
          }
        }
        assert paths[..|paths|] == paths;
    }

    /** First locked section of watcher_barrier. */
    method BeginBarrier() returns (id: Option<nat>)
      modifies this
      ensures old(trusted) ==>
                id == Some(old(nextBarrier) + 1) && Value() == old(Value()).(nextBarrier := old(nextBarrier) + 1)
      ensures !old(trusted) ==> id == None && Value() == old(Value())
      ensures id.Some? && old(barrierSeen <= nextBarrier) ==> barrierSeen < id.value
    {
      if !trusted {
        return None;
      }
      nextBarrier := nextBarrier + 1;
      id := Some(nextBarrier);
    }

    /** The marker file could not be written. */
    method MarkerFailed()
      modifies this
      ensures Value() == Distrust(old(Value()))
      ensures NeverAnswers(Value())
    {
      trusted := false;
      cached := None;
      DistrustIsFinal(Value());
    }

    /** Last locked section of watcher_barrier: the marker was seen, or time is up. */
    method EndBarrier(id: nat) returns (observed: bool)
      modifies this
      ensures observed == Observed(old(Value()), id) && Value() == AfterBarrier(old(Value()), id)
      ensures if observed then trusted && barrierSeen >= id && cached == old(cached) else NeverAnswers(Value())
    {
      observed := trusted && barrierSeen >= id;
      if !observed {
        trusted := false;
        cached := None;
        DistrustIsFinal(Value());
      }
    }

    /** First locked section of try_cached_noop. */
    method ReadProof(key: Key) returns (proof: Option<P>)
      ensures proof == ProofFor(Value(), key)
      ensures proof.Some? ==> trusted && dirty == {} && cached == Some(CachedNoop(key, proof.value))
    {
      if !trusted || dirty != {} {
        return None;
      }
      match cached
      case Some(c) => proof := if c.key == key then Some(c.proof) else None;
      case None => proof := None;
    }

    method DropProof()
      modifies this
      ensures Value() == old(Value()).(cached := None)
    {
      cached := None;
    }

    /** Last locked section of try_cached_noop. */
    method Gate() returns (hit: bool)
      ensures hit == GateOpen(Value())
    {
      hit := trusted && dirty == {} && cached.Some?;
    }

    /** try_full_noop, between the first barrier and the scan. */
    method OpenScan(ready: bool) returns (baseline: nat)
      modifies this
      ensures baseline == epoch && Value() == AfterOpen(old(Value()), ready)
    {
      if ready && trusted {
        dirty := {};
      }
      baseline := epoch;
    }

    /** try_full_noop, after the second barrier. */
    method CloseScan(stable: bool, baseline: nat, key: Key, proof: Option<P>) returns (quiet: bool)
      modifies this
      ensures quiet == Quiet(old(Value()), stable, baseline)
      ensures Value() == AfterScan(old(Value()), stable, baseline, key, proof)
      ensures cached.Some? ==>
                stable && trusted && epoch == baseline && dirty == {} && proof == Some(cached.value.proof)
    {
      quiet := stable && trusted && epoch == baseline;
      if quiet {
        dirty := {};
        cached := match proof case Some(p) => Some(CachedNoop(key, p)) case None => None;
      } else {
        cached := None;
      }
    }

    /** After a successful child build. */
    method AfterChild()
      modifies this
      ensures Value() == old(Value()).(dirty := {}, cached := None)
    {
      dirty := {};
      cached := None;
    }
  }
}
