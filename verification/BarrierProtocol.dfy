/** The watcher-barrier protocol of frostd: outside writers, a FIFO queue of watcher events, the
    watcher callback and the single server thread, interleaved one atomic step at a time.
    Every change of the workspace enqueues its event at once, and only the daemon makes markers. */
module BarrierProtocol {
  import opened Daemon
  import opened Wrappers

  type Tree = map<Path, string>
  /** New contents of the touched paths; None removes a path. */
  type Edit = map<Path, Option<string>>

  function Lookup(t: Tree, p: Path): Option<string> {
    if p in t then Some(t[p]) else None
  }

  function Apply(t: Tree, e: Edit): Tree {
    map p | p in t.Keys + e.Keys && (p in e ==> e[p].Some?) :: if p in e then e[p].value else t[p]
  }

  /** The workspace as far as builds are concerned: without .git and marker files. */
  function Visible(t: Tree): Tree {
    map p | p in t && Relevant(p) :: t[p]
  }

  /** An event in flight.  `edit` is the change it announces, or the change whose announcement
      was lost when the backend reports a failure instead. */
  datatype Event = Event(notice: Notice, edit: Edit)

  function Announced(e: Event): set<Path> {
    if e.notice.Touched? then set p | p in e.notice.paths else {}
  }

  /** A notice names every path it is about, unless it is a failure. */
  ghost predicate Honest(e: Event) {
    !e.notice.Failed? ==> e.edit.Keys <= Announced(e)
  }

  predicate Mentions(e: Event, id: nat) {
    e.notice.Touched? && exists i :: 0 <= i < |e.notice.paths| && BarrierId(e.notice.paths[i]) == Some(id)
  }

  /** Will delivering e advance the event epoch? */
  predicate Bumps(e: Event) {
    e.notice.Failed? || (e.notice.Touched? && exists i :: 0 <= i < |e.notice.paths| && Relevant(e.notice.paths[i]))
  }

  function ApplyAll(t: Tree, q: seq<Event>): Tree
    decreases |q|
  {
    if q == [] then t else ApplyAll(Apply(t, q[0].edit), q[1..])
  }

  /** The events queued ahead of the first one that mentions marker id. */
  function Before(q: seq<Event>, id: nat): seq<Event> {
    if q == [] || Mentions(q[0], id) then [] else [q[0]] + Before(q[1..], id)
  }

  predicate InFlight(q: seq<Event>, id: nat) {
    q != [] && (Mentions(q[0], id) || InFlight(q[1..], id))
  }

  // ------------------------------------------------------------------ state

  /** What a stored proof stands for: the workspace when the validating scan began, and what
      the scan read. */
  datatype Proof = Proof(base: Tree, readings: Readings)

  type DState = Daemon.State<Proof>

  /** Progress of watcher_barrier; `marked` is the workspace when the marker was enqueued. */
  datatype Barrier = Off | Marking(id: nat) | Waiting(id: nat, marked: Tree) | Passed(marked: Tree) | Missed

  /** Where the server thread is in the Run arm of handle. */
  datatype Phase =
    | Idle
    | Probing(key: Key, proof: Proof)
    | CachedGate(key: Key, proof: Proof)
    | FullOpen(key: Key)
    | FullScan(key: Key, ready: bool, baseline: nat, scan: Proof)
    | FullClose(key: Key, ready: bool, baseline: nat, scan: Proof, watchable: bool)
    | Child
    | ChildDrain

  /** Responses served without running a build. */
  datatype Hit =
    | Cached(key: Key, marked: Tree, proof: Proof)
    | Full(key: Key, ready: bool, scan: Proof, end: Option<Tree>)

  /** ws is the disk; view is the disk as the delivered events describe it. */
  datatype World = World(ws: Tree, view: Tree, queue: seq<Event>, d: DState, phase: Phase, barrier: Barrier,
                         hits: seq<Hit>)

  datatype Step =
    | Write(edit: Edit, paths: seq<Path>)     // anybody changes files outside the marker names
    | Lose(edit: Edit)                        // a change the backend can only report as an error
    | Noise                                   // an event of a kind the callback ignores
    | Echo(id: nat, content: Option<string>)  // further events of a marker file, its removal included
    | Deliver                                 // the callback consumes the oldest event
    | Accept(key: Key)                        // a request with a fast path
    | AcceptPlain                             // a request without one
    | Probe(ok: bool)                         // the stored proof is checked
    | BarrierBegin
    | Mark(text: string)
    | MarkFails
    | BarrierEnd                              // marker seen, or deadline passed
    | GateDecide
    | OpenDecide
    | Read(path: Path)
    | ScanDone(valid: bool, watchable: bool)
    | CloseDecide
    | ChildDone(success: bool)
    | DrainDecide
    | Fails                                   // an error ends the request

  predicate BarrierPhase(ph: Phase) {
    ph.CachedGate? || ph.FullOpen? || ph.FullClose? || ph.ChildDrain?
  }

  predicate BarrierOver(b: Barrier) {
    b.Passed? || b.Missed?
  }

  function MarkedTree(b: Barrier): Option<Tree> {
    match b
    case Waiting(_, marked) => Option.Some(marked)
    case Passed(marked) => Option.Some(marked)
    case _ => None
  }

  predicate Enabled(w: World, s: Step) {
    match s
    case Write(edit, paths) =>
      edit.Keys <= (set p | p in paths) && forall i :: 0 <= i < |paths| ==> BarrierId(paths[i]).None?
    case Lose(_) => true
    case Noise => true
    case Echo(id, _) => 1 <= id <= w.d.nextBarrier && id < U64_LIMIT && w.barrier != Marking(id)
    case Deliver => w.queue != []
    case Accept(_) => w.phase.Idle?
    case AcceptPlain => w.phase.Idle?
    case Probe(_) => w.phase.Probing?
    case BarrierBegin => BarrierPhase(w.phase) && w.barrier.Off?
    case Mark(_) => w.barrier.Marking? && w.barrier.id < U64_LIMIT
    case MarkFails => w.barrier.Marking?
    case BarrierEnd => w.barrier.Waiting?
    case GateDecide => w.phase.CachedGate? && BarrierOver(w.barrier)
    case OpenDecide => w.phase.FullOpen? && BarrierOver(w.barrier)
    case Read(_) => w.phase.FullScan?
    case ScanDone(_, _) => w.phase.FullScan?
    case CloseDecide => w.phase.FullClose? && BarrierOver(w.barrier)
    case ChildDone(_) => w.phase.Child?
    case DrainDecide => w.phase.ChildDrain? && BarrierOver(w.barrier)
    case Fails => w.phase.Probing? || w.phase.FullScan? || w.phase.Child?
  }

  function Enqueue(w: World, e: Event): World {
    w.(ws := Apply(w.ws, e.edit), queue := w.queue + [e])
  }

  function MarkerEvent(id: nat, content: Option<string>): Event {
    Event(Touched([MarkerPath(id)]), map[MarkerPath(id) := content])
  }

  function Next(w: World, s: Step): World
    requires Enabled(w, s)
  {
    match s
    case Write(edit, paths) => Enqueue(w, Event(Touched(paths), edit))
    case Lose(edit) => Enqueue(w, Event(Failed, edit))
    case Noise => Enqueue(w, Event(Other, map[]))
    case Echo(id, content) => Enqueue(w, MarkerEvent(id, content))
    case Deliver =>
      var e := w.queue[0];
      w.(view := Apply(w.view, e.edit), queue := w.queue[1..], d := OnNotice(w.d, e.notice))
    case Accept(key) =>
      var proof := ProofFor(w.d, key);
      w.(phase := if proof.Some? then Probing(key, proof.value) else FullOpen(key), barrier := Off)
    case AcceptPlain => w.(phase := Child, barrier := Off)
    case Probe(ok) =>
      if ok then w.(phase := CachedGate(w.phase.key, w.phase.proof), barrier := Off)
      else w.(d := w.d.(cached := None), phase := FullOpen(w.phase.key), barrier := Off)
    case BarrierBegin =>
      if !w.d.trusted then w.(barrier := Missed)
      else w.(d := w.d.(nextBarrier := w.d.nextBarrier + 1), barrier := Marking(w.d.nextBarrier + 1))
    case Mark(text) =>
      Enqueue(w, MarkerEvent(w.barrier.id, Some(text))).(barrier := Waiting(w.barrier.id, w.ws))
    case MarkFails => w.(d := Distrust(w.d), barrier := Missed)
    case BarrierEnd =>
      w.(d := AfterBarrier(w.d, w.barrier.id),
         barrier := if Observed(w.d, w.barrier.id) then Passed(w.barrier.marked) else Missed)
    case GateDecide =>
      if w.barrier.Passed? && GateOpen(w.d)
        then w.(hits := w.hits + [Cached(w.phase.key, w.barrier.marked, w.phase.proof)], phase := Idle, barrier := Off)
        else w.(phase := FullOpen(w.phase.key), barrier := Off)
    case OpenDecide =>
      w.(d := AfterOpen(w.d, w.barrier.Passed?), barrier := Off,
         phase := FullScan(w.phase.key, w.barrier.Passed?, w.d.epoch, Proof(w.ws, [])))
    case Read(p) =>
      var scan := w.phase.scan;
      w.(phase := FullScan(w.phase.key, w.phase.ready, w.phase.baseline,
                           Proof(scan.base, scan.readings + [(p, Lookup(w.ws, p))])))
    case ScanDone(valid, watchable) =>
      if !valid then w.(phase := Child)
      else w.(phase := FullClose(w.phase.key, w.phase.ready, w.phase.baseline, w.phase.scan, watchable),
              barrier := if w.phase.ready then Off else Missed)
    case CloseDecide =>
      var proof := if w.phase.watchable then Option.Some(w.phase.scan) else None;
      var quiet := Quiet(w.d, w.barrier.Passed?, w.phase.baseline);
      var d := AfterScan(w.d, w.barrier.Passed?, w.phase.baseline, w.phase.key, proof);
      if !w.phase.ready || quiet
        then w.(d := d, hits := w.hits + [Full(w.phase.key, w.phase.ready, w.phase.scan, MarkedTree(w.barrier))],
                phase := Idle, barrier := Off)
        else w.(d := d, phase := Child, barrier := Off)
    case ChildDone(success) => w.(phase := if success then ChildDrain else Idle, barrier := Off)
    case DrainDecide => w.(d := w.d.(dirty := {}, cached := None), phase := Idle, barrier := Off)
    case Fails => w.(phase := Idle, barrier := Off)
  }

  // ------------------------------------------------------------- invariants

  /** Everything that was read is what t holds. */
  ghost predicate ReadsMatch(readings: Readings, t: Tree) {
    forall i :: 0 <= i < |readings| && Relevant(readings[i].0) ==> readings[i].1 == Lookup(t, readings[i].0)
  }

  /** The events that must still be delivered before the current barrier can pass. */
  function Pending(w: World): seq<Event> {
    match w.barrier
    case Waiting(id, _) => if w.d.barrierSeen >= id then [] else Before(w.queue, id)
    case Passed(_) => []
    case _ => w.queue
  }

  predicate AnyBumps(q: seq<Event>) {
    q != [] && (Bumps(q[0]) || AnyBumps(q[1..]))
  }

  /** Marker numbers in flight were handed out before, and a marker being written is not in flight. */
  ghost predicate IdsOk(w: World) {
    && w.d.barrierSeen <= w.d.nextBarrier
    && (forall id: nat :: InFlight(w.queue, id) ==> id <= w.d.nextBarrier)
    && (w.barrier.Marking? ==>
          w.barrier.id == w.d.nextBarrier && w.d.barrierSeen < w.barrier.id && !InFlight(w.queue, w.barrier.id))
    && (w.barrier.Waiting? ==> w.barrier.id == w.d.nextBarrier)
  }

  ghost predicate QueueOk(w: World) {
    && w.ws == ApplyAll(w.view, w.queue)
    && forall i :: 0 <= i < |w.queue| ==> Honest(w.queue[i])
  }

  /** A stored proof describes the workspace as delivered so far. */
  ghost predicate CacheOk(w: World) {
    w.d.cached.Some? ==>
      && Visible(w.view) == Visible(w.d.cached.value.proof.base)
      && ReadsMatch(w.d.cached.value.proof.readings, w.d.cached.value.proof.base)
  }

  /** While the marker is in flight the queue ahead of it leads to the marked workspace;
      once it was seen, a surviving proof describes the marked workspace. */
  ghost predicate BarrierOk(w: World) {
    match w.barrier
    case Waiting(id, marked) =>
      if w.d.barrierSeen < id
        then InFlight(w.queue, id) && ApplyAll(w.view, Before(w.queue, id)) == marked
        else w.d.cached.Some? ==> Visible(marked) == Visible(w.d.cached.value.proof.base)
    case Passed(marked) => w.d.cached.Some? ==> Visible(marked) == Visible(w.d.cached.value.proof.base)
    case _ => true
  }

  /** The proof in the server's hand is the stored one, if one is still stored. */
  ghost predicate HandOk(w: World) {
    (w.phase.Probing? || w.phase.CachedGate?) && w.d.cached.Some? ==>
      w.d.cached.value == CachedNoop(w.phase.key, w.phase.proof)
  }

  /** A scan that no event has disturbed, and that no event ahead of the barrier will, has read
      one consistent workspace. */
  ghost predicate ScanOk(w: World) {
    w.phase.FullScan? || w.phase.FullClose? ==>
      && w.phase.baseline <= w.d.epoch
      && (w.d.epoch == w.phase.baseline && !AnyBumps(Pending(w)) ==>
            && Visible(w.view) == Visible(w.phase.scan.base)
            && ReadsMatch(w.phase.scan.readings, w.phase.scan.base)
            && (MarkedTree(w.barrier).Some? ==> Visible(MarkedTree(w.barrier).value) == Visible(w.phase.scan.base)))
  }

  /** Barriers only run where the server waits for one, and proofs only live while the watcher is trusted. */
  ghost predicate ModeOk(w: World) {
    && (!BarrierPhase(w.phase) ==> w.barrier.Off?)
    && (w.phase.FullClose? && !w.phase.ready ==> w.barrier.Missed?)
    && (w.d.cached.Some? ==> w.d.trusted)
  }

  ghost predicate HitOk(h: Hit) {
    match h
    case Cached(_, marked, proof) => Visible(marked) == Visible(proof.base) && ReadsMatch(proof.readings, marked)
    case Full(_, ready, scan, end) =>
      ready ==> ReadsMatch(scan.readings, scan.base) && end.Some? && Visible(end.value) == Visible(scan.base)
  }

  ghost predicate HitsOk(w: World) {
    forall i :: 0 <= i < |w.hits| ==> HitOk(w.hits[i])
  }

  ghost predicate Inv(w: World) {
    IdsOk(w) && QueueOk(w) && CacheOk(w) && BarrierOk(w) && HandOk(w) && ScanOk(w) && ModeOk(w) && HitsOk(w)
  }

  // ---------------------------------------------------------- queue lemmas

  lemma {:induction false} ApplyAllAppend(t: Tree, q: seq<Event>, e: Event)
    ensures ApplyAll(t, q + [e]) == Apply(ApplyAll(t, q), e.edit)
    decreases |q|
  {
    if q == [] {
      assert (q + [e])[1..] == [];
    } else {
      assert (q + [e])[1..] == q[1..] + [e];
      ApplyAllAppend(Apply(t, q[0].edit), q[1..], e);
    }
  }

  lemma {:induction false} InFlightAppend(q: seq<Event>, e: Event, id: nat)
    ensures InFlight(q + [e], id) == (InFlight(q, id) || Mentions(e, id))
  {
    if q == [] {
      assert (q + [e])[1..] == [];
    } else {
      assert (q + [e])[1..] == q[1..] + [e];
      InFlightAppend(q[1..], e, id);
    }
  }

  lemma {:induction false} BeforeAppend(q: seq<Event>, e: Event, id: nat)
    ensures Before(q + [e], id) ==
            if InFlight(q, id) then Before(q, id) else if Mentions(e, id) then q else q + [e]
  {
    if q == [] {
      assert (q + [e])[1..] == [];
    } else {
      assert (q + [e])[1..] == q[1..] + [e];
      assert q == [q[0]] + q[1..];
      BeforeAppend(q[1..], e, id);
    }
  }

  lemma {:induction false} AnyBumpsAppend(q: seq<Event>, e: Event)
    ensures AnyBumps(q + [e]) == (AnyBumps(q) || Bumps(e))
  {
    if q == [] {
      assert (q + [e])[1..] == [];
    } else {
      assert (q + [e])[1..] == q[1..] + [e];
      AnyBumpsAppend(q[1..], e);
    }
  }

  lemma {:induction false} BeforeBumps(q: seq<Event>, id: nat)
    ensures AnyBumps(Before(q, id)) ==> AnyBumps(q)
  {
    if q != [] && !Mentions(q[0], id) {
      assert Before(q, id)[1..] == Before(q[1..], id);
      BeforeBumps(q[1..], id);
    }
  }

  lemma {:induction false} SilentQueueKeepsVisible(t: Tree, q: seq<Event>)
    requires !AnyBumps(q) && forall i :: 0 <= i < |q| ==> Honest(q[i])
    ensures Visible(ApplyAll(t, q)) == Visible(t)
    decreases |q|
  {
    if q != [] {
      SilentQueueKeepsVisible(Apply(t, q[0].edit), q[1..]);
    }
  }

  lemma {:induction false} VisibleLookup(a: Tree, b: Tree, p: Path)
    requires Visible(a) == Visible(b) && Relevant(p)
    ensures Lookup(a, p) == Lookup(b, p)
  {
    assert p in a <==> p in Visible(a);
    assert p in b <==> p in Visible(b);
    assert p in a ==> Visible(a)[p] == a[p];
    assert p in b ==> Visible(b)[p] == b[p];
  }

  lemma {:induction false} ReadsMatchVisible(readings: Readings, a: Tree, b: Tree)
    requires Visible(a) == Visible(b) && ReadsMatch(readings, a)
    ensures ReadsMatch(readings, b)
  {
    forall i | 0 <= i < |readings| && Relevant(readings[i].0)
      ensures readings[i].1 == Lookup(b, readings[i].0)
    {
      VisibleLookup(a, b, readings[i].0);
    }
  }

  // ------------------------------------------------------- callback lemmas

  lemma {:induction false} TouchEffect<P>(s: State<P>, paths: seq<Path>)
    ensures var t := Touch(s, paths);
            && t.trusted == s.trusted && t.nextBarrier == s.nextBarrier
            && s.epoch <= t.epoch && s.barrierSeen <= t.barrierSeen
            && (t.cached == s.cached || t.cached == None)
  {
    if paths != [] {
      TouchEffect(s, paths[..|paths| - 1]);
    }
  }

  /** A relevant path advances the epoch and drops the stored proof. */
  lemma {:induction false} TouchRelevant<P>(s: State<P>, paths: seq<Path>, i: nat)
    requires i < |paths| && Relevant(paths[i])
    ensures Touch(s, paths).epoch > s.epoch && Touch(s, paths).cached == None
  {
    if i < |paths| - 1 {
      TouchRelevant(s, paths[..|paths| - 1], i);
    } else {
      TouchEffect(s, paths[..|paths| - 1]);
    }
  }

  lemma {:induction false} TouchSeen<P>(s: State<P>, paths: seq<Path>, i: nat, id: nat)
    requires i < |paths| && BarrierId(paths[i]) == Some(id)
    ensures Touch(s, paths).barrierSeen >= id
  {
    if i < |paths| - 1 {
      TouchSeen(s, paths[..|paths| - 1], i, id);
    }
  }

  /** barrierSeen only takes numbers that some path carries. */
  lemma {:induction false} TouchSeenSource<P>(s: State<P>, paths: seq<Path>)
    ensures Touch(s, paths).barrierSeen == s.barrierSeen ||
            exists i :: 0 <= i < |paths| && BarrierId(paths[i]) == Some(Touch(s, paths).barrierSeen)
  {
    if paths != [] {
      var front := paths[..|paths| - 1];
      TouchSeenSource(s, front);
      var seen := Touch(s, paths).barrierSeen;
      if BarrierId(paths[|paths| - 1]) != Some(seen) && seen != s.barrierSeen {
        var i :| 0 <= i < |front| && BarrierId(front[i]) == Some(Touch(s, front).barrierSeen);
        assert BarrierId(paths[i]) == Some(Touch(s, paths).barrierSeen);
      }
    }
  }

  /** What one delivery does to the shared state. */
  lemma {:induction false} NoticeEffect(d: DState, e: Event)
    ensures var d' := OnNotice(d, e.notice);
            && (d'.trusted ==> d.trusted) && (d'.cached.Some? ==> d'.trusted == d.trusted)
            && d'.nextBarrier == d.nextBarrier
            && d.epoch <= d'.epoch
            && (Bumps(e) ==> d'.epoch > d.epoch && d'.cached == None)
            && (d'.cached == d.cached || d'.cached == None)
            && d.barrierSeen <= d'.barrierSeen
            && (d'.barrierSeen == d.barrierSeen || Mentions(e, d'.barrierSeen))
    ensures forall id: nat :: Mentions(e, id) ==> OnNotice(d, e.notice).barrierSeen >= id
  {
    if e.notice.Touched? {
      var paths := e.notice.paths;
      TouchEffect(d, paths);
      TouchSeenSource(d, paths);
      if i :| 0 <= i < |paths| && Relevant(paths[i]) {
        TouchRelevant(d, paths, i);
      }
      forall id: nat | Mentions(e, id)
        ensures Touch(d, paths).barrierSeen >= id
      {
        var i :| 0 <= i < |paths| && BarrierId(paths[i]) == Some(id);
        TouchSeen(d, paths, i, id);
      }
    }
  }

  // ------------------------------------------------------- every step keeps it

  /** A new event at the back of the queue. */
  lemma {:induction false} EnqueueKeepsInv(w: World, e: Event)
    requires Inv(w) && Honest(e)
    requires forall id: nat :: Mentions(e, id) ==> id <= w.d.nextBarrier && w.barrier != Marking(id)
    ensures Inv(Enqueue(w, e))
  {
    ApplyAllAppend(w.view, w.queue, e);
    forall id: nat
      ensures InFlight(w.queue + [e], id) == (InFlight(w.queue, id) || Mentions(e, id))
    {
      InFlightAppend(w.queue, e, id);
    }
    AnyBumpsAppend(w.queue, e);
    if w.barrier.Waiting? {
      BeforeAppend(w.queue, e, w.barrier.id);
    }
  }

  lemma {:induction false} MarkerEventMentions(id: nat, content: Option<string>)
    requires id < U64_LIMIT
    ensures forall other: nat :: Mentions(MarkerEvent(id, content), other) <==> other == id
    ensures Honest(MarkerEvent(id, content))
  {
    MarkerIsRecognised(id);
    var e := MarkerEvent(id, content);
    assert e.notice.paths[0] == MarkerPath(id);
  }

  /** Writing the marker: the queue so far is exactly what stands between the view and now. */
  lemma {:induction false} MarkKeepsInv(w: World, text: string)
    requires Inv(w) && Enabled(w, Mark(text))
    ensures Inv(Next(w, Mark(text)))
  {
    var id := w.barrier.id;
    var e := MarkerEvent(id, Some(text));
    MarkerEventMentions(id, Some(text));
    ApplyAllAppend(w.view, w.queue, e);
    forall other: nat
      ensures InFlight(w.queue + [e], other) == (InFlight(w.queue, other) || Mentions(e, other))
    {
      InFlightAppend(w.queue, e, other);
    }
    BeforeAppend(w.queue, e, id);
    if !AnyBumps(w.queue) {
      SilentQueueKeepsVisible(w.view, w.queue);
    }
  }

  lemma {:induction false} HeadMentionIsInFlight(q: seq<Event>, id: nat)
    requires q != [] && (Mentions(q[0], id) || InFlight(q[1..], id))
    ensures InFlight(q, id)
  {
  }

  lemma {:induction false} DeliverKeepsIds(w: World)
    requires IdsOk(w) && w.queue != []
    ensures IdsOk(Next(w, Deliver))
  {
    var e := w.queue[0];
    NoticeEffect(w.d, e);
    forall id: nat | InFlight(w.queue[1..], id)
      ensures InFlight(w.queue, id)
    {
      HeadMentionIsInFlight(w.queue, id);
    }
    var seen := OnNotice(w.d, e.notice).barrierSeen;
    if seen != w.d.barrierSeen {
      HeadMentionIsInFlight(w.queue, seen);
    }
  }

  lemma {:induction false} DeliverKeepsQueue(w: World)
    requires QueueOk(w) && w.queue != []
    ensures QueueOk(Next(w, Deliver))
  {
  }

  lemma {:induction false} DeliverKeepsCache(w: World)
    requires CacheOk(w) && QueueOk(w) && w.queue != []
    ensures CacheOk(Next(w, Deliver))
  {
    var e := w.queue[0];
    NoticeEffect(w.d, e);
  }

  lemma {:induction false} DeliverKeepsBarrier(w: World)
    requires IdsOk(w) && CacheOk(w) && QueueOk(w) && BarrierOk(w) && w.queue != []
    ensures BarrierOk(Next(w, Deliver))
  {
    var e := w.queue[0];
    NoticeEffect(w.d, e);
    if w.barrier.Waiting? && w.d.barrierSeen < w.barrier.id {
      var id, seen := w.barrier.id, OnNotice(w.d, e.notice).barrierSeen;
      if Mentions(e, id) {
        assert Before(w.queue, id) == [];
      } else {
        assert Before(w.queue, id)[1..] == Before(w.queue[1..], id);
        if seen != w.d.barrierSeen {
          HeadMentionIsInFlight(w.queue, seen);
        }
      }
    }
  }

  /** If the head does not advance the epoch and nothing pending behind it does, nothing pending does. */
  lemma {:induction false} PendingBehindHead(w: World)
    requires IdsOk(w) && w.queue != [] && !Bumps(w.queue[0]) && !AnyBumps(Pending(Next(w, Deliver)))
    ensures !AnyBumps(Pending(w))
  {
    var e, v := w.queue[0], Next(w, Deliver);
    NoticeEffect(w.d, e);
    if w.barrier.Waiting? && w.d.barrierSeen < w.barrier.id && !Mentions(e, w.barrier.id) {
      assert Before(w.queue, w.barrier.id)[1..] == Before(w.queue[1..], w.barrier.id);
      if v.d.barrierSeen != w.d.barrierSeen {
        HeadMentionIsInFlight(w.queue, v.d.barrierSeen);
      }
    }
  }

  lemma {:induction false} DeliverKeepsScan(w: World)
    requires IdsOk(w) && QueueOk(w) && ScanOk(w) && w.queue != []
    ensures ScanOk(Next(w, Deliver))
  {
    var e, v := w.queue[0], Next(w, Deliver);
    NoticeEffect(w.d, e);
    if (w.phase.FullScan? || w.phase.FullClose?) && v.d.epoch == w.phase.baseline && !AnyBumps(Pending(v)) {
      PendingBehindHead(w);
    }
  }

  lemma {:induction false} DeliverKeepsInv(w: World)
    requires Inv(w) && Enabled(w, Deliver)
    ensures Inv(Next(w, Deliver))
  {
    DeliverKeepsIds(w);
    DeliverKeepsQueue(w);
    DeliverKeepsCache(w);
    DeliverKeepsBarrier(w);
    DeliverKeepsScan(w);
    NoticeEffect(w.d, w.queue[0]);
  }

  lemma {:induction false} BarrierEndKeepsInv(w: World)
    requires Inv(w) && Enabled(w, BarrierEnd)
    ensures Inv(Next(w, BarrierEnd))
  {
    BeforeBumps(w.queue, w.barrier.id);
  }

  lemma {:induction false} GateKeepsInv(w: World)
    requires Inv(w) && Enabled(w, GateDecide)
    ensures Inv(Next(w, GateDecide))
  {
    if w.barrier.Passed? && GateOpen(w.d) {
      ReadsMatchVisible(w.phase.proof.readings, w.phase.proof.base, w.barrier.marked);
    }
  }

  lemma {:induction false} OpenKeepsInv(w: World)
    requires Inv(w) && Enabled(w, OpenDecide)
    ensures Inv(Next(w, OpenDecide))
  {
    if !AnyBumps(w.queue) {
      SilentQueueKeepsVisible(w.view, w.queue);
    }
  }

  lemma {:induction false} ReadKeepsInv(w: World, p: Path)
    requires Inv(w) && Enabled(w, Read(p))
    ensures Inv(Next(w, Read(p)))
  {
    if w.d.epoch == w.phase.baseline && !AnyBumps(w.queue) {
      SilentQueueKeepsVisible(w.view, w.queue);
      if Relevant(p) {
        VisibleLookup(w.ws, w.phase.scan.base, p);
      }
    }
  }

  lemma {:induction false} CloseKeepsInv(w: World)
    requires Inv(w) && Enabled(w, CloseDecide)
    ensures Inv(Next(w, CloseDecide))
  {
  }

  /** The remaining steps move the server along without touching queue or view. */
  lemma {:induction false} AcceptKeepsInv(w: World, s: Step)
    requires Inv(w) && Enabled(w, s) && (s.Accept? || s.AcceptPlain? || s.Probe?)
    ensures Inv(Next(w, s))
  {
  }

  lemma {:induction false} ScanDoneKeepsInv(w: World, s: Step)
    requires Inv(w) && Enabled(w, s) && s.ScanDone?
    ensures Inv(Next(w, s))
  {
  }

  lemma {:induction false} ServerStepKeepsInv(w: World, s: Step)
    requires Inv(w) && Enabled(w, s) && (s.ChildDone? || s.DrainDecide? || s.Fails?)
    ensures Inv(Next(w, s))
  {
  }

  lemma {:induction false} BarrierStartKeepsInv(w: World, s: Step)
    requires Inv(w) && Enabled(w, s) && (s.BarrierBegin? || s.MarkFails?)
    ensures Inv(Next(w, s))
  {
  }

  lemma {:induction false} StepKeepsInv(w: World, s: Step)
    requires Inv(w) && Enabled(w, s)
    ensures Inv(Next(w, s))
  {
    match s
    case Write(edit, paths) => EnqueueKeepsInv(w, Event(Touched(paths), edit));
    case Lose(edit) => EnqueueKeepsInv(w, Event(Failed, edit));
    case Noise => EnqueueKeepsInv(w, Event(Other, map[]));
    case Echo(id, content) =>
      MarkerEventMentions(id, content);
      EnqueueKeepsInv(w, MarkerEvent(id, content));
    case Deliver => DeliverKeepsInv(w);
    case Mark(text) => MarkKeepsInv(w, text);
    case BarrierEnd => BarrierEndKeepsInv(w);
    case GateDecide => GateKeepsInv(w);
    case OpenDecide => OpenKeepsInv(w);
    case Read(p) => ReadKeepsInv(w, p);
    case CloseDecide => CloseKeepsInv(w);
    case BarrierBegin => BarrierStartKeepsInv(w, s);
    case MarkFails => BarrierStartKeepsInv(w, s);
    case ScanDone(_, _) => ScanDoneKeepsInv(w, s);
    case ChildDone(_) => ServerStepKeepsInv(w, s);
    case DrainDecide => ServerStepKeepsInv(w, s);
    case Fails => ServerStepKeepsInv(w, s);
    case _ => AcceptKeepsInv(w, s);
  }

  // ------------------------------------------------------------- whole runs

  ghost predicate Start(w: World) {
    w.queue == [] && w.view == w.ws && w.d == Daemon.Initial() && w.phase.Idle? && w.barrier.Off? && w.hits == []
  }

  /** A run is a start and any list of steps, each enabled where it happens. */
  ghost predicate Run(trace: seq<World>, steps: seq<Step>) {
    && |trace| == |steps| + 1
    && Start(trace[0])
    && forall i :: 0 <= i < |steps| ==> Enabled(trace[i], steps[i]) && trace[i + 1] == Next(trace[i], steps[i])
  }

  lemma {:induction false} RunKeepsInv(trace: seq<World>, steps: seq<Step>, i: nat)
    requires Run(trace, steps) && i < |trace|
    ensures Inv(trace[i])
  {
    if i > 0 {
      RunKeepsInv(trace, steps, i - 1);
      StepKeepsInv(trace[i - 1], steps[i - 1]);
    }
  }

  /** Safety of the shortcuts, over every interleaving.  A cached hit: the workspace its marker
      stands for is, as far as builds see it, the one the stored proof was validated on, and every
      file that proof read has the content it read.  A full hit behind a passed first barrier: the
      scan read one consistent workspace, and the second marker stands for it, too.  Which steps of
      the run, within the request, those workspaces belong to is in BarrierTrace. */
  lemma {:induction false} HitsAreSound(trace: seq<World>, steps: seq<Step>, i: nat, h: Hit)
    requires Run(trace, steps) && i < |trace| && h in trace[i].hits
    ensures h.Cached? ==> Visible(h.marked) == Visible(h.proof.base) && ReadsMatch(h.proof.readings, h.marked)
    ensures h.Full? && h.ready ==>
              ReadsMatch(h.scan.readings, h.scan.base) && h.end.Some? && Visible(h.end.value) == Visible(h.scan.base)
  {
    RunKeepsInv(trace, steps, i);
    var k :| 0 <= k < |trace[i].hits| && trace[i].hits[k] == h;
    assert HitOk(trace[i].hits[k]);
  }

  lemma {:induction false} StepNeverTrusts(w: World, s: Step)
    requires Inv(w) && Enabled(w, s) && !w.d.trusted
    ensures !Next(w, s).d.trusted
    ensures |w.hits| <= |Next(w, s).hits|
    ensures forall k :: |w.hits| <= k < |Next(w, s).hits| ==> Next(w, s).hits[k].Full? && !Next(w, s).hits[k].ready
    ensures forall k :: 0 <= k < |w.hits| ==> Next(w, s).hits[k] == w.hits[k]
  {
    if s.Deliver? {
      NoticeEffect(w.d, w.queue[0]);
    }
  }

  /** Distrust is permanent: from then on every hit comes from the ordinary certificate path. */
  lemma {:induction false} UntrustedForever(trace: seq<World>, steps: seq<Step>, i: nat, j: nat)
    requires Run(trace, steps) && i <= j < |trace| && !trace[i].d.trusted
    ensures !trace[j].d.trusted && |trace[i].hits| <= |trace[j].hits|
    ensures forall k :: |trace[i].hits| <= k < |trace[j].hits| ==> trace[j].hits[k].Full? && !trace[j].hits[k].ready
  {
    if i < j {
      UntrustedForever(trace, steps, i, j - 1);
      RunKeepsInv(trace, steps, j - 1);
      StepNeverTrusts(trace[j - 1], steps[j - 1]);
      forall k | |trace[i].hits| <= k < |trace[j].hits|
        ensures trace[j].hits[k].Full? && !trace[j].hits[k].ready
      {
        assert trace[j] == Next(trace[j - 1], steps[j - 1]);
        if k < |trace[j - 1].hits| {
          assert trace[j].hits[k] == trace[j - 1].hits[k];
        }
      }
    }
  }
}
