/** BuildGraph of graph.rs: interning files, claiming producers, and the closure of actions
    behind a set of targets. */
module BuildGraph {
  import opened Digraph
  import opened Toposort
  import opened Wrappers

  datatype FileNode = FileNode(path: string, producer: Option<nat>)

  datatype Action = Action(inputs: seq<nat>, orderOnly: seq<nat>, outputs: seq<nat>)

  datatype TargetNode = TargetNode(deps: seq<Name>, actions: seq<nat>)

  /** Id of the new action; an output another action claimed; or an output the same action lists
      twice, where the error message indexes the action that is not there yet. */
  datatype Pushed = Id(id: nat) | Conflict | Panic

  /** File ids and paths are in bijection. */
  predicate Indexed(files: seq<FileNode>, ids: map<string, nat>) {
    && (forall i {:trigger files[i]} :: 0 <= i < |files| ==> files[i].path in ids && ids[files[i].path] == i)
    && (forall p {:trigger ids[p]} :: p in ids ==> ids[p] < |files| && files[ids[p]].path == p)
  }

  predicate InRange(ids: seq<nat>, n: nat) {
    forall k {:trigger ids[k]} :: 0 <= k < |ids| ==> ids[k] < n
  }

  predicate ActionFits(a: Action, n: nat) {
    InRange(a.inputs, n) && InRange(a.orderOnly, n) && InRange(a.outputs, n)
  }

  /** A file's producer is exactly the action that lists it as an output. */
  predicate Produced(files: seq<FileNode>, actions: seq<Action>) {
    && (forall a {:trigger actions[a]} :: 0 <= a < |actions| ==> ActionFits(actions[a], |files|))
    && (forall f {:trigger files[f]} :: 0 <= f < |files| ==> ProducerFits(files, actions, f))
    && (forall a {:trigger actions[a]} :: 0 <= a < |actions| ==> Claims(files, actions[a].outputs, a))
  }

  predicate ProducerFits(files: seq<FileNode>, actions: seq<Action>, f: nat)
    requires f < |files|
  {
    match files[f].producer
    case None => true
    case Some(a) => a < |actions| && f in actions[a].outputs
  }

  predicate Claims(files: seq<FileNode>, outputs: seq<nat>, a: nat)
    requires InRange(outputs, |files|)
  {
    forall k {:trigger outputs[k]} :: 0 <= k < |outputs| ==> files[outputs[k]].producer == Some(a)
  }

  /** Each file keeps at most one producer. */
  lemma {:induction false} OneProducer(files: seq<FileNode>, actions: seq<Action>, a: nat, b: nat, f: nat)
    requires Produced(files, actions) && a < |actions| && b < |actions|
    requires f in actions[a].outputs && f in actions[b].outputs
    ensures a == b
  {
    assert Claims(files, actions[a].outputs, a) && Claims(files, actions[b].outputs, b);
    var k :| 0 <= k < |actions[a].outputs| && actions[a].outputs[k] == f;
    var l :| 0 <= l < |actions[b].outputs| && actions[b].outputs[l] == f;
    assert ActionFits(actions[a], |files|) && ActionFits(actions[b], |files|);
    assert actions[b].outputs[l] == f;
  }

  /** files with the given ones claimed by action id. */
  predicate Marked(before: seq<FileNode>, after: seq<FileNode>, claimed: seq<nat>, id: nat) {
    && |after| == |before|
    && forall f {:trigger after[f]} :: 0 <= f < |after| ==>
         after[f] == if f in claimed then FileNode(before[f].path, Some(id)) else before[f]
  }

  predicate Free(files: seq<FileNode>, outputs: seq<nat>)
    requires InRange(outputs, |files|)
  {
    forall k {:trigger outputs[k]} :: 0 <= k < |outputs| ==> files[outputs[k]].producer.None?
  }

  lemma {:induction false} PushKeepsProduced(before: seq<FileNode>, after: seq<FileNode>, actions: seq<Action>,
                                             a: Action)
    requires Produced(before, actions) && ActionFits(a, |before|) && Free(before, a.outputs)
    requires Marked(before, after, a.outputs, |actions|)
    ensures Produced(after, actions + [a])
  {
    var longer := actions + [a];
    forall f | 0 <= f < |after|
      ensures ProducerFits(after, longer, f)
    {
      assert ProducerFits(before, actions, f);
    }
    forall b | 0 <= b < |longer|
      ensures ActionFits(longer[b], |after|) && Claims(after, longer[b].outputs, b)
    {
      if b < |actions| {
        var outs := actions[b].outputs;
        assert ActionFits(actions[b], |before|) && Claims(before, outs, b);
        forall k | 0 <= k < |outs|
          ensures after[outs[k]].producer == Some(b)
        {
          assert before[outs[k]].producer == Some(b);
          assert outs[k] !in a.outputs;
        }
      }
    }
  }

  // ---------------------------------------------------------- files and paths

  /** Files keep their ids and paths. */
  predicate Grown(before: seq<FileNode>, after: seq<FileNode>) {
    |before| <= |after| && forall f {:trigger after[f]} :: 0 <= f < |before| ==> after[f].path == before[f].path
  }

  predicate Names(files: seq<FileNode>, ids: seq<nat>, paths: seq<string>) {
    && |ids| == |paths|
    && forall k {:trigger ids[k]} :: 0 <= k < |ids| ==> ids[k] < |files| && files[ids[k]].path == paths[k]
  }

  /** What the manifest asks of one action: the paths it reads, waits for and writes. */
  datatype Spec = Spec(inputs: seq<string>, orderOnly: seq<string>, outputs: seq<string>)

  predicate Realises(files: seq<FileNode>, a: Action, spec: Spec) {
    && Names(files, a.inputs, spec.inputs) && Names(files, a.orderOnly, spec.orderOnly)
    && Names(files, a.outputs, spec.outputs)
  }

  /** An action in the order in which they are pushed: place of its target, index within it. */
  datatype Item = Item(target: Name, place: nat, index: nat, spec: Spec)

  predicate AllRealised(files: seq<FileNode>, actions: seq<Action>, items: seq<Item>) {
    && |actions| == |items|
    && forall a {:trigger items[a]} :: 0 <= a < |items| ==> Realises(files, actions[a], items[a].spec)
  }

  lemma {:induction false} RealisedStable(before: seq<FileNode>, after: seq<FileNode>, actions: seq<Action>,
                                          items: seq<Item>)
    requires Grown(before, after) && AllRealised(before, actions, items)
    ensures AllRealised(after, actions, items)
  {
    forall a | 0 <= a < |items|
      ensures Realises(after, actions[a], items[a].spec)
    {
      assert Realises(before, actions[a], items[a].spec);
    }
  }

  predicate Apart(a: seq<string>, b: seq<string>) {
    forall p :: p in a ==> p !in b
  }

  lemma {:induction false} DistinctIds(files: seq<FileNode>, ids: map<string, nat>, fs: seq<nat>, paths: seq<string>)
    requires Indexed(files, ids) && Names(files, fs, paths)
    ensures Distinct(fs) <==> Distinct(paths)
  {
    forall i, j | 0 <= i < j < |fs|
      ensures fs[i] == fs[j] <==> paths[i] == paths[j]
    {
      assert files[fs[i]].path == paths[i] && files[fs[j]].path == paths[j];
    }
  }

  /** Output ids are free exactly when no earlier action writes those paths. */
  lemma {:induction false} FreeIsApart(files: seq<FileNode>, ids: map<string, nat>, actions: seq<Action>,
                                       items: seq<Item>, fs: seq<nat>, paths: seq<string>)
    requires Indexed(files, ids) && Produced(files, actions) && AllRealised(files, actions, items)
    requires Names(files, fs, paths)
    ensures Free(files, fs)
            <==> forall a {:trigger items[a]} :: 0 <= a < |items| ==> Apart(items[a].spec.outputs, paths)
  {
    forall k | 0 <= k < |fs| && files[fs[k]].producer.Some?
      ensures exists a :: 0 <= a < |items| && !Apart(items[a].spec.outputs, paths)
    {
      assert ProducerFits(files, actions, fs[k]);
      var a := files[fs[k]].producer.value;
      var l :| 0 <= l < |actions[a].outputs| && actions[a].outputs[l] == fs[k];
      assert Realises(files, actions[a], items[a].spec);
      assert items[a].spec.outputs[l] == paths[k] && paths[k] in paths;
      assert !Apart(items[a].spec.outputs, paths);
    }
    forall a | 0 <= a < |items| && !Apart(items[a].spec.outputs, paths)
      ensures !Free(files, fs)
    {
      var p :| p in items[a].spec.outputs && p in paths;
      SharedPathIsClaimed(files, ids, actions, items, a, fs, paths, p);
    }
  }

  lemma {:induction false} SharedPathIsClaimed(files: seq<FileNode>, ids: map<string, nat>, actions: seq<Action>,
                                               items: seq<Item>, a: nat,
                            fs: seq<nat>, paths: seq<string>, p: string)
    requires Indexed(files, ids) && Produced(files, actions) && AllRealised(files, actions, items)
    requires Names(files, fs, paths)
    requires a < |items| && p in items[a].spec.outputs && p in paths
    ensures !Free(files, fs)
  {
    var l :| 0 <= l < |items[a].spec.outputs| && items[a].spec.outputs[l] == p;
    var k :| 0 <= k < |paths| && paths[k] == p;
    assert Realises(files, actions[a], items[a].spec);
    assert files[actions[a].outputs[l]].path == p && files[fs[k]].path == p;
    assert actions[a].outputs[l] == fs[k];
    assert Claims(files, actions[a].outputs, a);
  }

  // -------------------------------------------------------------- the closure

  /** Action b writes a file that action a consumes. */
  ghost predicate Feeds(files: seq<FileNode>, actions: seq<Action>, a: nat, b: nat) {
    && a < |actions|
    && exists f {:trigger files[f]} ::
         0 <= f < |files| && (f in actions[a].inputs || f in actions[a].orderOnly) && files[f].producer == Some(b)
  }

  ghost predicate Contains(files: seq<FileNode>, actions: seq<Action>, roots: seq<nat>, s: set<nat>) {
    && (forall a :: a in roots ==> a in s)
    && (forall a, b {:trigger Feeds(files, actions, a, b)} :: a in s && Feeds(files, actions, a, b) ==> b in s)
  }

  ghost predicate IsLeastClosure(files: seq<FileNode>, actions: seq<Action>, roots: seq<nat>, s: set<nat>) {
    && Contains(files, actions, roots, s) && (forall a :: a in s ==> a < |actions|)
    && forall t: set<nat> {:trigger Contains(files, actions, roots, t)} :: Contains(files, actions, roots, t) ==> s <= t
  }

  predicate AllIn(selected: set<nat>, stack: seq<nat>, s: set<nat>) {
    selected <= s && forall k {:trigger stack[k]} :: 0 <= k < |stack| ==> stack[k] in s
  }

  lemma {:induction false} SelectStep(files: seq<FileNode>, actions: seq<Action>, roots: seq<nat>, selected: set<nat>,
                                      rest: seq<nat>, a: nat, more: seq<nat>)
    requires Produced(files, actions) && a < |actions|
    requires forall s: set<nat> {:trigger Contains(files, actions, roots, s)} :: Contains(files, actions, roots, s) ==>
              AllIn(selected, rest + [a], s)
    requires var fs := actions[a].inputs + actions[a].orderOnly;
             && InRange(fs, |files|)
             && forall b :: b in more <==> exists k {:trigger fs[k]} ::
                    0 <= k < |fs| && files[fs[k]].producer == Some(b)
    ensures forall b :: b in more <==> Feeds(files, actions, a, b)
    ensures forall s: set<nat> {:trigger Contains(files, actions, roots, s)} :: Contains(files, actions, roots, s) ==>
              AllIn(selected + {a}, rest + more, s)
  {
    var fs := actions[a].inputs + actions[a].orderOnly;
    forall b
      ensures b in more <==> Feeds(files, actions, a, b)
    {
      if b in more {
        var k :| 0 <= k < |fs| && files[fs[k]].producer == Some(b);
        assert fs[k] in actions[a].inputs || fs[k] in actions[a].orderOnly;
      }
      if Feeds(files, actions, a, b) {
        var f :| 0 <= f < |files| && (f in actions[a].inputs || f in actions[a].orderOnly)
            && files[f].producer == Some(b);
        assert f in fs;
      }
    }
    forall s: set<nat> | Contains(files, actions, roots, s)
      ensures AllIn(selected + {a}, rest + more, s)
    {
      assert AllIn(selected, rest + [a], s) && (rest + [a])[|rest|] == a;
      forall k | 0 <= k < |rest + more|
        ensures (rest + more)[k] in s
      {
        if k < |rest| {
          assert (rest + [a])[k] == rest[k];
        } else {
          assert more[k - |rest|] in more;
        }
      }
    }
  }

  function Unselected(n: nat, selected: set<nat>): nat {
    if n == 0 then 0 else Unselected(n - 1, selected) + if n - 1 in selected then 0 else 1
  }

  lemma {:induction false} UnselectedFalls(n: nat, selected: set<nat>, a: nat)
    requires a !in selected
    ensures Unselected(n, selected + {a}) == Unselected(n, selected) - if a < n then 1 else 0
  {
    if n > 0 {
      UnselectedFalls(n - 1, selected, a);
    }
  }

  /** The actions of the first n named targets. */
  function RootsOf(targets: map<Name, TargetNode>, names: seq<Name>, n: nat): seq<nat>
    requires n <= |names|
  {
    if n == 0 then []
    else RootsOf(targets, names, n - 1) + if names[n - 1] in targets then targets[names[n - 1]].actions else []
  }

  predicate Ascending(ids: seq<nat>) {
    forall i, j :: 0 <= i < j < |ids| ==> ids[i] < ids[j]
  }

  lemma {:induction false} AscendingAppend(ids: seq<nat>, a: nat)
    requires Ascending(ids) && forall b :: b in ids ==> b < a
    ensures Ascending(ids + [a])
  {
    forall i, j | 0 <= i < j < |ids + [a]|
      ensures (ids + [a])[i] < (ids + [a])[j]
    {
      assert ids[i] in ids;
    }
  }

  function Members(ids: seq<nat>): set<nat> {
    set a | a in ids
  }

  lemma {:induction false} MembersAppend(ids: seq<nat>, a: nat)
    ensures Members(ids + [a]) == Members(ids) + {a}
  {
    assert forall x :: x in ids + [a] <==> x in ids || x == a;
  }

  class Graph {
    var files: seq<FileNode>
    var actions: seq<Action>
    var targets: map<Name, TargetNode>
    var fileIds: map<string, nat>

    constructor ()
      ensures Valid() && files == [] && actions == [] && targets == map[]
    {
      files, actions, targets, fileIds := [], [], map[], map[];
    }

    predicate Valid()
      reads this
    {
      && Indexed(files, fileIds) && Produced(files, actions)
      && forall t {:trigger targets[t]} :: t in targets ==> InRange(targets[t].actions, |actions|)
    }

    /** file. */
    method File(path: string) returns (id: nat)
      requires Valid()
      modifies `files, `fileIds
      ensures Valid() && id < |files| && files[id].path == path
      ensures files == if path in old(fileIds) then old(files) else old(files) + [FileNode(path, None)]
    {
      if path in fileIds {
        return fileIds[path];
      }
      id := |files|;
      InternKeeps(files, actions, fileIds, path);
      files, fileIds := files + [FileNode(path, None)], fileIds[path := id];
    }

    /** push_action. */
    method PushAction(action: Action) returns (r: Pushed)
      requires Valid() && ActionFits(action, |files|)
      modifies `files, `actions
      ensures r.Id? <==> Free(old(files), action.outputs) && Distinct(action.outputs)
      ensures r.Id? ==> r.id == |old(actions)| && Valid() && actions == old(actions) + [action]
                        && Marked(old(files), files, action.outputs, r.id)
      ensures r.Panic? <==> PanicsAt(old(files), action.outputs)
      ensures !r.Id? ==> actions == old(actions)
    {
      var id := |actions|;
      ghost var before := files;
      for k := 0 to |action.outputs|
        invariant actions == old(actions) && Marked(before, files, action.outputs[..k], id)
        invariant Free(before, action.outputs[..k]) && Distinct(action.outputs[..k])
      {
        var out := action.outputs[k];
        ghost var done := action.outputs[..k];
        if files[out].producer.Some? {
          var other := files[out].producer.value;
          assert ProducerFits(before, actions, out);
          assert other == id <==> out in done;
          StopsHere(before, action.outputs, k);
          return if other < |actions| then Conflict else Panic;
        }
        assert action.outputs[..k + 1] == done + [out];
        files := files[out := FileNode(files[out].path, Some(id))];
      }
      assert action.outputs[..|action.outputs|] == action.outputs;
      forall k | 0 <= k < |action.outputs| && Distinct(action.outputs)
        ensures !Repeats(before, action.outputs, k)
      {
      }
      PushKeepsProduced(before, files, actions, action);
      actions := actions + [action];
      return Id(id);
    }

    /** Interning a list of paths. */
    method Files(paths: seq<string>) returns (ids: seq<nat>)
      requires Valid()
      modifies `files, `fileIds
      ensures Valid() && Grown(old(files), files) && Names(files, ids, paths)
    {
      ids := [];
      for i := 0 to |paths|
        invariant Valid() && Grown(old(files), files) && Names(files, ids, paths[..i])
      {
        ghost var before := files;
        var id := File(paths[i]);
        assert paths[..i + 1] == paths[..i] + [paths[i]];
        ids := ids + [id];
      }
      assert paths[..|paths|] == paths;
    }

    /** One action of a target: its files are interned and it claims its outputs. */
    method AddAction(spec: Spec, ghost items: seq<Item>) returns (r: Pushed)
      requires Valid() && AllRealised(files, actions, items)
      modifies `files, `fileIds, `actions
      ensures r.Id? <==> Distinct(spec.outputs) && forall a {:trigger items[a]} :: 0 <= a < |items| ==>
                Apart(items[a].spec.outputs, spec.outputs)
      ensures r.Id? ==> Valid() && r.id == |old(actions)| && |actions| == |items| + 1
      ensures r.Id? ==> Realises(files, actions[|items|], spec) && AllRealised(files, actions[..|items|], items)
    {
      ghost var f0 := files;
      var inputs := Files(spec.inputs);
      ghost var f1 := files;
      var orderOnly := Files(spec.orderOnly);
      ghost var f2 := files;
      var outputs := Files(spec.outputs);
      ghost var f3 := files;
      RealisedStable(f0, f3, actions, items);
      FreeIsApart(files, fileIds, actions, items, outputs, spec.outputs);
      DistinctIds(files, fileIds, outputs, spec.outputs);
      var action := Action(inputs, orderOnly, outputs);
      r := PushAction(action);
      if r.Id? {
        RealisedStable(f3, files, old(actions), items);
        assert actions[..|items|] == old(actions);
      }
    }

    /** The worklist of action_closure, seeded with the targets' actions. */
    method Select(roots: seq<nat>) returns (selected: set<nat>)
      requires Valid() && InRange(roots, |actions|)
      ensures IsLeastClosure(files, actions, roots, selected)
    {
      selected := {};
      var stack := roots;
      while stack != []
        invariant InRange(stack, |actions|) && forall a :: a in selected ==> a < |actions|
        invariant forall a :: a in roots ==> a in selected || a in stack
        invariant forall a, b {:trigger Feeds(files, actions, a, b)} :: a in selected && Feeds(files, actions, a, b) ==>
                    b in selected || b in stack
        invariant forall s: set<nat> {:trigger Contains(files, actions, roots, s)} ::
                    Contains(files, actions, roots, s) ==> AllIn(selected, stack, s)
        decreases Unselected(|actions|, selected), |stack|
      {
        var a, rest := stack[|stack| - 1], stack[..|stack| - 1];
        assert stack == rest + [a];
        if a in selected {
          stack := rest;
        } else {
          var more := Producers(actions[a].inputs + actions[a].orderOnly);
          SelectStep(files, actions, roots, selected, rest, a, more);
          UnselectedFalls(|actions|, selected, a);
          selected, stack := selected + {a}, rest + more;
        }
      }
    }

    method Producers(fs: seq<nat>) returns (more: seq<nat>)
      requires Valid() && InRange(fs, |files|)
      ensures InRange(more, |actions|)
      ensures forall b :: b in more <==> exists k {:trigger fs[k]} :: 0 <= k < |fs| && files[fs[k]].producer == Some(b)
    {
      more := [];
      for i := 0 to |fs|
        invariant InRange(more, |actions|)
        invariant forall b :: b in more <==> exists k {:trigger fs[k]} :: 0 <= k < i && files[fs[k]].producer == Some(b)
      {
        assert ProducerFits(files, actions, fs[i]);
        if files[fs[i]].producer.Some? {
          more := more + [files[fs[i]].producer.value];
        }
      }
    }

    /** action_closure: the least set of actions that holds the targets' own and the producers of
        whatever its members consume, by ascending id. */
    method ActionClosure(names: seq<Name>) returns (r: Result<seq<nat>>)
      requires Valid()
      ensures r.Err? <==> exists t :: t in names && t !in targets
      ensures r.Ok? ==>
                Ascending(r.value) && IsLeastClosure(files, actions, RootsOf(targets, names, |names|), Members(r.value))
    {
      var roots: seq<nat> := [];
      for i := 0 to |names|
        invariant forall t :: t in names[..i] ==> t in targets
        invariant roots == RootsOf(targets, names, i) && InRange(roots, |actions|)
      {
        if names[i] !in targets {
          return Err;
        }
        assert InRange(targets[names[i]].actions, |actions|);
        roots := roots + targets[names[i]].actions;
      }
      var selected := Select(roots);
      var order: seq<nat> := [];
      for a := 0 to |actions|
        invariant Ascending(order) && Members(order) == set b | b in selected && b < a
        invariant forall b :: b in order ==> b < a
      {
        if a in selected {
          MembersAppend(order, a);
          AscendingAppend(order, a);
          order := order + [a];
        }
      }
      assert Members(order) == selected;
      return Ok(order);
    }
  }

  lemma {:induction false} InternKeeps(files: seq<FileNode>, actions: seq<Action>, ids: map<string, nat>, path: string)
    requires Indexed(files, ids) && Produced(files, actions) && path !in ids
    ensures Indexed(files + [FileNode(path, None)], ids[path := |files|])
    ensures Produced(files + [FileNode(path, None)], actions)
  {
    var after := files + [FileNode(path, None)];
    forall f | 0 <= f < |after|
      ensures ProducerFits(after, actions, f)
    {
      assert f < |files| ==> ProducerFits(files, actions, f);
    }
    forall a | 0 <= a < |actions|
      ensures ActionFits(actions[a], |after|) && Claims(after, actions[a].outputs, a)
    {
      assert ActionFits(actions[a], |files|) && Claims(files, actions[a].outputs, a);
    }
  }

  /** The first output that is not free is a repetition within the same action. */
  predicate PanicsAt(files: seq<FileNode>, outputs: seq<nat>)
    requires InRange(outputs, |files|)
  {
    exists k {:trigger outputs[k]} :: 0 <= k < |outputs| && Repeats(files, outputs, k)
  }

  predicate Repeats(files: seq<FileNode>, outputs: seq<nat>, k: nat)
    requires InRange(outputs, |files|) && k < |outputs|
  {
    outputs[k] in outputs[..k] && Free(files, outputs[..k]) && Distinct(outputs[..k])
  }

  lemma {:induction false} StopsHere(files: seq<FileNode>, outputs: seq<nat>, k: nat)
    requires InRange(outputs, |files|) && k < |outputs| && Free(files, outputs[..k]) && Distinct(outputs[..k])
    requires outputs[k] in outputs[..k] || files[outputs[k]].producer.Some?
    ensures !(Free(files, outputs) && Distinct(outputs))
    ensures PanicsAt(files, outputs) <==> outputs[k] in outputs[..k]
  {
    if outputs[k] in outputs[..k] {
      assert Repeats(files, outputs, k);
    } else {
      forall j | 0 <= j < |outputs|
        ensures !Repeats(files, outputs, j)
      {
        if j > k {
          assert outputs[..j][k] == outputs[k];
        } else if j < k {
          assert outputs[..k][..j] == outputs[..j];
        }
      }
    }
  }

  // ------------------------------------------------------------ whole manifests

  datatype TargetSpec = TargetSpec(deps: seq<Name>, actions: seq<Spec>)

  type Manifest = map<Name, TargetSpec>

  function DepGraph(m: Manifest): map<Name, seq<Name>> {
    map t | t in m :: m[t].deps
  }

  /** The first n actions of the target at the given place. */
  function ItemsOf(m: Manifest, t: Name, place: nat, n: nat): seq<Item>
    requires t in m && n <= |m[t].actions|
  {
    if n == 0 then [] else ItemsOf(m, t, place, n - 1) + [Item(t, place, n - 1, m[t].actions[n - 1])]
  }

  /** All actions of the first n targets, in the order they are pushed. */
  function Flat(m: Manifest, order: seq<Name>, n: nat): seq<Item>
    requires n <= |order| && forall t :: t in order ==> t in m
  {
    if n == 0 then [] else Flat(m, order, n - 1) + ItemsOf(m, order[n - 1], n - 1, |m[order[n - 1]].actions|)
  }

  /** No path is written twice. */
  predicate NoClash(items: seq<Item>) {
    items == [] ||
    var before, last := items[..|items| - 1], items[|items| - 1].spec.outputs;
    && NoClash(before) && Distinct(last)
    && forall a {:trigger before[a]} :: 0 <= a < |before| ==> Apart(before[a].spec.outputs, last)
  }

  lemma {:induction false} ClashStays(items: seq<Item>, more: seq<Item>)
    requires NoClash(items + more)
    ensures NoClash(items)
    decreases |more|
  {
    if more == [] {
      assert items + more == items;
    } else {
      assert (items + more)[..|items + more| - 1] == items + more[..|more| - 1];
      ClashStays(items, more[..|more| - 1]);
    }
  }

  predicate Precedes(a: Item, b: Item) {
    a.place < b.place || (a.place == b.place && a.index < b.index)
  }

  predicate ItemFits(m: Manifest, order: seq<Name>, a: Item) {
    && a.place < |order| && a.target == order[a.place] && a.target in m
    && a.index < |m[a.target].actions| && a.spec == m[a.target].actions[a.index]
  }

  lemma {:induction false} ItemsFit(m: Manifest, order: seq<Name>, place: nat, n: nat)
    requires place < |order| && order[place] in m && n <= |m[order[place]].actions|
    ensures var items := ItemsOf(m, order[place], place, n);
            && |items| == n
            && forall i {:trigger items[i]} :: 0 <= i < n ==>
                   ItemFits(m, order, items[i]) && items[i].place == place && items[i].index == i
    decreases n
  {
    if n > 0 {
      ItemsFit(m, order, place, n - 1);
    }
  }

  predicate InPushOrder(m: Manifest, order: seq<Name>, items: seq<Item>) {
    && (forall i {:trigger items[i]} :: 0 <= i < |items| ==> ItemFits(m, order, items[i]))
    && (forall i, j {:trigger items[i], items[j]} :: 0 <= i < j < |items| ==> Precedes(items[i], items[j]))
  }

  lemma {:induction false} FlatInOrder(m: Manifest, order: seq<Name>, n: nat)
    requires n <= |order| && forall t :: t in order ==> t in m
    ensures InPushOrder(m, order, Flat(m, order, n))
    ensures forall i {:trigger Flat(m, order, n)[i]} :: 0 <= i < |Flat(m, order, n)| ==> Flat(m, order, n)[i].place < n
    decreases n
  {
    if n > 0 {
      FlatInOrder(m, order, n - 1);
      ItemsFit(m, order, n - 1, |m[order[n - 1]].actions|);
      var before, items := Flat(m, order, n - 1), ItemsOf(m, order[n - 1], n - 1, |m[order[n - 1]].actions|);
      assert Flat(m, order, n) == before + items;
      forall i, j | 0 <= i < j < |before + items|
        ensures Precedes((before + items)[i], (before + items)[j])
      {
        if i < |before| && j < |before| {
          assert Precedes(before[i], before[j]);
        } else if i < |before| {
          assert before[i].place < n - 1 && items[j - |before|].place == n - 1;
        } else {
          assert items[i - |before|].index < items[j - |before|].index;
        }
      }
    }
  }

  predicate Consumes(spec: Spec, p: string) {
    p in spec.inputs || p in spec.orderOnly
  }

  /** Such an input: an action that lists its only output twice. */
  method RepeatedOutputPanics(path: string) returns (r: Pushed)
    ensures r == Panic
  {
    var g := new Graph();
    var f := g.File(path);
    var action := Action([], [], [f, f]);
    assert action.outputs[..1] == [f] && action.outputs[0] == action.outputs[1];
    assert Repeats(g.files, action.outputs, 1);
    r := g.PushAction(action);
  }

  /** Every generated path an action consumes is written by an earlier action of its target or by
      a transitive dependency of it. */
  ghost predicate ProducersFirst(m: Manifest) {
    forall t, i: nat, u, j: nat, p {:trigger Uses(m, t, i, p), Writes(m, u, j, p)} ::
      Uses(m, t, i, p) && Writes(m, u, j, p) ==> if u == t then j < i else Reaches(DepGraph(m), t, u)
  }

  predicate Uses(m: Manifest, t: Name, i: nat, p: string) {
    t in m && i < |m[t].actions| && Consumes(m[t].actions[i], p)
  }

  predicate Writes(m: Manifest, t: Name, i: nat, p: string) {
    t in m && i < |m[t].actions| && p in m[t].actions[i].outputs
  }

  /** A transitive dependency stands earlier in a topological order. */
  lemma {:induction false} DependencyStandsEarlier(g: map<Name, seq<Name>>, order: seq<Name>, i: nat, j: nat)
    requires IsTopological(g, order) && i < |order| && j < |order| && i != j && Reaches(g, order[i], order[j])
    ensures j < i
  {
    var rank := RankOf(order);
    var p :| WalkBetween(g, p, order[i], order[j]);
    assert order[i] != order[j];
    RankFallsAlongWalk(g, rank, p, |p| - 1);
  }

  lemma {:induction false} WriterStandsEarlier(m: Manifest, order: seq<Name>, x: Item, y: Item, p: string)
    requires IsTopological(DepGraph(m), order) && ProducersFirst(m) && ItemFits(m, order, x) && ItemFits(m, order, y)
    requires Consumes(x.spec, p) && p in y.spec.outputs
    ensures Precedes(y, x)
  {
    assert Uses(m, x.target, x.index, p) && Writes(m, y.target, y.index, p);
    if x.place != y.place {
      assert x.target != y.target;
      DependencyStandsEarlier(DepGraph(m), order, x.place, y.place);
    }
  }

  /** Ids ascend along production: a consumed file's producer has a smaller id. */
  lemma {:induction false} ProducerIsEarlier(m: Manifest, order: seq<Name>, items: seq<Item>, files: seq<FileNode>,
                                             actions: seq<Action>, a: nat, f: nat, b: nat)
    requires IsTopological(DepGraph(m), order) && ProducersFirst(m) && InPushOrder(m, order, items)
    requires Produced(files, actions) && AllRealised(files, actions, items)
    requires a < |actions| && (f in actions[a].inputs || f in actions[a].orderOnly)
    requires f < |files| && files[f].producer == Some(b)
    ensures b < a
  {
    assert ProducerFits(files, actions, f);
    WriterStandsEarlier(m, order, items[a], items[b], files[f].path);
  }

  /** n ids from the first one on. */
  function Numbers(first: nat, n: nat): (r: seq<nat>)
    ensures |r| == n
  {
    if n == 0 then [] else Numbers(first, n - 1) + [first + n - 1]
  }

  lemma {:induction false} NumbersAscend(first: nat, n: nat)
    ensures forall j :: 0 <= j < n ==> Numbers(first, n)[j] == first + j
  {
    if n > 0 {
      NumbersAscend(first, n - 1);
    }
  }

  /** The node of the k-th target: its declared dependencies, and the ids its actions got. */
  function NodeOf(m: Manifest, order: seq<Name>, k: nat): TargetNode
    requires k < |order| && forall t :: t in order ==> t in m
  {
    TargetNode(m[order[k]].deps, Numbers(|Flat(m, order, k)|, |m[order[k]].actions|))
  }

  ghost predicate NodesSet(targets: map<Name, TargetNode>, m: Manifest, order: seq<Name>, n: nat)
    requires n <= |order| && forall t :: t in order ==> t in m
  {
    forall k {:trigger NodeOf(m, order, k)} :: 0 <= k < n ==>
        order[k] in targets && targets[order[k]] == NodeOf(m, order, k)
  }

  lemma {:induction false} NodesSetNext(targets: map<Name, TargetNode>, m: Manifest, order: seq<Name>, n: nat)
    requires n < |order| && Distinct(order) && (forall t :: t in order ==> t in m) && NodesSet(targets, m, order, n)
    ensures NodesSet(targets[order[n] := NodeOf(m, order, n)], m, order, n + 1)
  {
    var more := targets[order[n] := NodeOf(m, order, n)];
    forall k | 0 <= k < n + 1
      ensures order[k] in more && more[order[k]] == NodeOf(m, order, k)
    {
      if k < n {
        var node := NodeOf(m, order, k);
        assert order[k] != order[n] && targets[order[k]] == node;
      }
    }
  }

  /** Those are exactly the ids of the actions that are the target's. */
  lemma {:induction false} NodeHoldsOwnActions(m: Manifest, order: seq<Name>, k: nat, n: nat, a: nat)
    requires k < n <= |order| && (forall t :: t in order ==> t in m) && a < |Flat(m, order, n)|
    ensures a in NodeOf(m, order, k).actions <==> Flat(m, order, n)[a].place == k
    decreases n
  {
    var before, place := Flat(m, order, n - 1), n - 1;
    ItemsFit(m, order, place, |m[order[place]].actions|);
    FlatInOrder(m, order, place);
    var own := NodeOf(m, order, k).actions;
    NumbersAscend(|Flat(m, order, k)|, |own|);
    if k < place {
      FlatGrows(m, order, k + 1, place);
      if a < |before| {
        NodeHoldsOwnActions(m, order, k, place, a);
      } else {
        assert a !in own;
      }
    } else {
      assert a >= |before| ==> own[a - |before|] == a;
    }
  }

  lemma {:induction false} FlatGrows(m: Manifest, order: seq<Name>, k: nat, n: nat)
    requires 0 < k <= n <= |order| && forall t :: t in order ==> t in m
    ensures |Flat(m, order, k - 1)| + |m[order[k - 1]].actions| == |Flat(m, order, k)| <= |Flat(m, order, n)|
    decreases n
  {
    ItemsLength(m, order[k - 1], k - 1, |m[order[k - 1]].actions|);
    if k < n {
      FlatGrows(m, order, k, n - 1);
    }
  }

  /** from_manifest.  It succeeds exactly when the targets are acyclic and no path is written
      twice; the action with id a is then the a-th pushed. */
  method FromManifest(m: Manifest) returns (r: Result<Graph>, order: seq<Name>)
    requires Closed(DepGraph(m))
    ensures forall t :: t in order ==> t in m
    ensures Acyclic(DepGraph(m)) ==> IsTopological(DepGraph(m), order)
    ensures r.Ok? <==> Acyclic(DepGraph(m)) && NoClash(Flat(m, order, |order|))
    ensures r.Ok? ==> r.value.Valid() && r.value.targets.Keys == m.Keys && NodesSet(r.value.targets, m, order, |order|)
                      && AllRealised(r.value.files, r.value.actions, Flat(m, order, |order|))
  {
    var sorted := ToposortTargets(DepGraph(m));
    if sorted.Cycle? {
      return Err, [];
    }
    order := sorted.order;
    assert forall t :: t in order ==> t in m;
    r := AddAll(m, order);
    if r.Ok? {
      TakenAll(order, |order|);
      assert order[..|order|] == order;
    }
  }

  /** The targets in order. */
  method AddAll(m: Manifest, order: seq<Name>) returns (r: Result<Graph>)
    requires Distinct(order) && forall t :: t in order ==> t in m
    ensures r.Ok? <==> NoClash(Flat(m, order, |order|))
    ensures r.Ok? ==> r.value.Valid() && r.value.targets.Keys == TakenNames(order, |order|)
                      && NodesSet(r.value.targets, m, order, |order|)
                      && AllRealised(r.value.files, r.value.actions, Flat(m, order, |order|))
  {
    var g := new Graph();
    for i := 0 to |order|
      invariant fresh(g) && Holds(g, Flat(m, order, i))
      invariant g.targets.Keys == TakenNames(order, i) && NodesSet(g.targets, m, order, i)
    {
      var ok := AddTarget(g, m, order, i);
      if !ok {
        FlatPrefix(m, order, i + 1, |order|);
        return Err;
      }
    }
    return Ok(g);
  }

  function TakenNames(order: seq<Name>, n: nat): set<Name>
    requires n <= |order|
  {
    if n == 0 then {} else TakenNames(order, n - 1) + {order[n - 1]}
  }

  lemma {:induction false} TakenAll(order: seq<Name>, n: nat)
    requires n <= |order|
    ensures forall t :: t in TakenNames(order, n) <==> t in order[..n]
    decreases n
  {
    if n > 0 {
      TakenAll(order, n - 1);
      assert order[..n] == order[..n - 1] + [order[n - 1]];
    }
  }

  predicate Built(files: seq<FileNode>, actions: seq<Action>, items: seq<Item>) {
    AllRealised(files, actions, items) && NoClash(items)
  }

  /** The graph holds just these actions. */
  ghost predicate Holds(g: Graph, items: seq<Item>)
    reads g
  {
    g.Valid() && Built(g.files, g.actions, items)
  }

  /** The actions pushed before action j of the i-th target. */
  function Upto(m: Manifest, order: seq<Name>, i: nat, j: nat): seq<Item>
    requires i < |order| && (forall t :: t in order ==> t in m) && j <= |m[order[i]].actions|
  {
    Flat(m, order, i) + ItemsOf(m, order[i], i, j)
  }

  /** One action of a target. */
  method AddOne(g: Graph, m: Manifest, order: seq<Name>, i: nat, j: nat) returns (pushed: Pushed)
    requires i < |order| && (forall t :: t in order ==> t in m) && j < |m[order[i]].actions|
    requires Holds(g, Upto(m, order, i, j))
    modifies g`files, g`fileIds, g`actions
    ensures pushed.Id? <==> NoClash(Upto(m, order, i, j + 1))
    ensures pushed.Id? ==> Holds(g, Upto(m, order, i, j + 1))
    ensures pushed.Id? ==> pushed.id == |old(g.actions)| && |g.actions| == pushed.id + 1
  {
    var spec := m[order[i]].actions[j];
    ghost var items, item := Upto(m, order, i, j), Item(order[i], i, j, spec);
    assert Upto(m, order, i, j + 1) == items + [item];
    assert (items + [item])[..|items|] == items;
    pushed := g.AddAction(spec, items);
    if pushed.Id? {
      RealisedNext(g.files, g.actions, items, item);
    }
  }

  /** The actions of one target. */
  method AddActions(g: Graph, m: Manifest, order: seq<Name>, i: nat) returns (ok: bool, ids: seq<nat>)
    requires i < |order| && forall t :: t in order ==> t in m
    requires Holds(g, Flat(m, order, i))
    modifies g`files, g`fileIds, g`actions
    ensures ok <==> NoClash(Flat(m, order, i + 1))
    ensures ok ==> Holds(g, Flat(m, order, i + 1))
    ensures ok ==> ids == NodeOf(m, order, i).actions && |g.actions| == |Flat(m, order, i)| + |ids|
  {
    var n := |m[order[i]].actions|;
    ids := [];
    assert Upto(m, order, i, 0) == Flat(m, order, i);
    ghost var first := |g.actions|;
    for j := 0 to n
      invariant Holds(g, Upto(m, order, i, j))
      invariant |g.actions| == first + j && ids == Numbers(first, j)
    {
      var pushed := AddOne(g, m, order, i, j);
      if !pushed.Id? {
        ItemsPrefix(m, order[i], i, j + 1, Flat(m, order, i));
        return false, ids;
      }
      assert pushed.id == first + j;
      ids := ids + [pushed.id];
      NumbersNext(first, j);
    }
    ok := true;
  }

  lemma {:induction false} NumbersNext(first: nat, n: nat)
    ensures Numbers(first, n + 1) == Numbers(first, n) + [first + n]
  {
  }

  /** The actions of one target, and its node. */
  method AddTarget(g: Graph, m: Manifest, order: seq<Name>, i: nat) returns (ok: bool)
    requires i < |order| && Distinct(order) && forall t :: t in order ==> t in m
    requires Holds(g, Flat(m, order, i))
    requires g.targets.Keys == TakenNames(order, i) && NodesSet(g.targets, m, order, i)
    modifies g
    ensures ok <==> NoClash(Flat(m, order, i + 1))
    ensures ok ==> Holds(g, Flat(m, order, i + 1))
    ensures ok ==> g.targets.Keys == TakenNames(order, i + 1) && NodesSet(g.targets, m, order, i + 1)
  {
    var ids;
    ok, ids := AddActions(g, m, order, i);
    if ok {
      NumbersAscend(|Flat(m, order, i)|, |ids|);
      NodesSetNext(g.targets, m, order, i);
      g.targets := g.targets[order[i] := TargetNode(m[order[i]].deps, ids)];
    }
  }

  lemma {:induction false} RealisedNext(files: seq<FileNode>, actions: seq<Action>, items: seq<Item>, item: Item)
    requires |actions| == |items| + 1
    requires AllRealised(files, actions[..|items|], items) && Realises(files, actions[|items|], item.spec)
    requires NoClash(items) && Distinct(item.spec.outputs)
    requires forall a {:trigger items[a]} :: 0 <= a < |items| ==> Apart(items[a].spec.outputs, item.spec.outputs)
    ensures Built(files, actions, items + [item])
  {
    var more := items + [item];
    assert more[..|more| - 1] == items;
    var before := actions[..|items|];
    forall a | 0 <= a < |more|
      ensures Realises(files, actions[a], more[a].spec)
    {
      if a < |items| {
        assert before[a] == actions[a] && more[a] == items[a];
      }
    }
  }

  lemma {:induction false} ItemsPrefix(m: Manifest, t: Name, place: nat, n: nat, before: seq<Item>)
    requires t in m && n <= |m[t].actions| && !NoClash(before + ItemsOf(m, t, place, n))
    ensures !NoClash(before + ItemsOf(m, t, place, |m[t].actions|))
    decreases |m[t].actions| - n
  {
    if n < |m[t].actions| {
      var items, more := ItemsOf(m, t, place, n), ItemsOf(m, t, place, n + 1);
      assert before + more == (before + items) + [more[n]] by {
        assert |items| == n by { ItemsLength(m, t, place, n); }
      }
      if NoClash(before + more) {
        ClashStays(before + items, [more[n]]);
      }
      ItemsPrefix(m, t, place, n + 1, before);
    }
  }

  lemma {:induction false} ItemsLength(m: Manifest, t: Name, place: nat, n: nat)
    requires t in m && n <= |m[t].actions|
    ensures |ItemsOf(m, t, place, n)| == n
    decreases n
  {
    if n > 0 {
      ItemsLength(m, t, place, n - 1);
    }
  }

  lemma {:induction false} FlatPrefix(m: Manifest, order: seq<Name>, n: nat, k: nat)
    requires n <= k <= |order| && (forall t :: t in order ==> t in m) && !NoClash(Flat(m, order, n))
    ensures !NoClash(Flat(m, order, k))
    decreases k
  {
    if n < k {
      FlatPrefix(m, order, n, k - 1);
      if NoClash(Flat(m, order, k)) {
        ClashStays(Flat(m, order, k - 1), ItemsOf(m, order[k - 1], k - 1, |m[order[k - 1]].actions|));
      }
    }
  }

  /** The ascending closure is a valid execution order: by the time an action is reached, every
      action that feeds it has been. */
  lemma {:induction false} ClosureIsExecutable(m: Manifest, order: seq<Name>, files: seq<FileNode>,
                                               actions: seq<Action>, roots: seq<nat>, ids: seq<nat>, i: nat, b: nat)
    requires IsTopological(DepGraph(m), order) && (forall t :: t in order ==> t in m) && ProducersFirst(m)
    requires Produced(files, actions) && AllRealised(files, actions, Flat(m, order, |order|))
    requires Ascending(ids) && IsLeastClosure(files, actions, roots, Members(ids))
    requires i < |ids| && Feeds(files, actions, ids[i], b)
    ensures b in ids[..i]
  {
    assert ids[i] in Members(ids);
    assert b in Members(ids);
    var j :| 0 <= j < |ids| && ids[j] == b;
    var f :| 0 <= f < |files| && (f in actions[ids[i]].inputs || f in actions[ids[i]].orderOnly)
        && files[f].producer == Some(b);
    FlatInOrder(m, order, |order|);
    ProducerIsEarlier(m, order, Flat(m, order, |order|), files, actions, ids[i], f, b);
  }
}
