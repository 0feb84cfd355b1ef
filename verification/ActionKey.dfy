/** The canonical payload of an action key (lib.rs): length-prefixed fields, environment and
    inputs in key order.  A character stands for one byte of the UTF-8 text. */
module ActionKey {
  import opened Wrappers
  import opened Decimal

  /** A path by components. */
  datatype Path = Path(absolute: bool, parts: seq<string>)

  // ------------------------------------------------------------ ordered tables

  /** The entries of a BTreeMap, in key order. */
  type Table = seq<(string, string)>

  predicate Less(a: string, b: string) {
    b != [] && (a == [] || a[0] < b[0] || (a[0] == b[0] && Less(a[1..], b[1..])))
  }

  lemma {:induction false} LessIsStrict(a: string, b: string)
    ensures Less(a, b) ==> a != b && !Less(b, a)
    ensures a != b ==> Less(a, b) || Less(b, a)
  {
    if a != [] && b != [] && a[0] == b[0] {
      LessIsStrict(a[1..], b[1..]);
      assert a == [a[0]] + a[1..] && b == [b[0]] + b[1..];
    }
  }

  lemma {:induction false} LessIsTransitive(a: string, b: string, c: string)
    requires Less(a, b) && Less(b, c)
    ensures Less(a, c)
  {
    if a != [] && b != [] && c != [] && a[0] == b[0] && b[0] == c[0] {
      LessIsTransitive(a[1..], b[1..], c[1..]);
    }
  }

  predicate Ascending(t: Table) {
    forall i, j :: 0 <= i < j < |t| ==> Less(t[i].0, t[j].0)
  }

  function Insert(t: Table, k: string, v: string): Table {
    if t == [] || Less(k, t[0].0) then [(k, v)] + t
    else if k == t[0].0 then [(k, v)] + t[1..]
    else [t[0]] + Insert(t[1..], k, v)
  }

  function Lookup(t: Table, k: string): Option<string> {
    if t == [] then None else if t[0].0 == k then Some(t[0].1) else Lookup(t[1..], k)
  }

  lemma {:induction false} InsertedKeys(t: Table, k: string, v: string, i: nat)
    requires i < |Insert(t, k, v)|
    ensures Insert(t, k, v)[i].0 == k || exists j :: 0 <= j < |t| && t[j].0 == Insert(t, k, v)[i].0
    decreases |t|
  {
    if t == [] || Less(k, t[0].0) {
      assert i > 0 ==> Insert(t, k, v)[i] == t[i - 1];
    } else if k == t[0].0 {
      assert i > 0 ==> Insert(t, k, v)[i] == t[i];
    } else if i > 0 {
      InsertedKeys(t[1..], k, v, i - 1);
      assert forall j :: 0 <= j < |t[1..]| ==> t[1..][j] == t[j + 1];
    }
  }

  /** Every key of t is greater than k. */
  predicate AllAbove(k: string, t: Table) {
    forall i {:trigger t[i]} :: 0 <= i < |t| ==> Less(k, t[i].0)
  }

  lemma {:induction false} InsertKeepsOrder(t: Table, k: string, v: string)
    requires Ascending(t)
    ensures Ascending(Insert(t, k, v))
  {
    if t != [] {
      LessIsStrict(k, t[0].0);
    }
    if t == [] {
    } else if Less(k, t[0].0) {
      forall i | 0 <= i < |t|
        ensures Less(k, t[i].0)
      {
        if i > 0 {
          LessIsTransitive(k, t[0].0, t[i].0);
        }
      }
    } else if k != t[0].0 {
      InsertKeepsOrder(t[1..], k, v);
      var rest := Insert(t[1..], k, v);
      forall i | 0 <= i < |rest|
        ensures Less(t[0].0, rest[i].0)
      {
        InsertedKeys(t[1..], k, v, i);
      }
    }
  }

  lemma {:induction false} InsertIsUpdate(t: Table, k: string, v: string, q: string)
    ensures Lookup(Insert(t, k, v), q) == if q == k then Some(v) else Lookup(t, q)
  {
    if t == [] || Less(k, t[0].0) {
      assert ([(k, v)] + t)[1..] == t;
    } else if k == t[0].0 {
      assert ([(k, v)] + t[1..])[1..] == t[1..];
    } else {
      InsertIsUpdate(t[1..], k, v, q);
      assert ([t[0]] + Insert(t[1..], k, v))[1..] == Insert(t[1..], k, v);
    }
  }

  lemma {:induction false} AboveIsAbsent(t: Table, k: string)
    requires AllAbove(k, t)
    ensures Lookup(t, k) == None
  {
    if t != [] {
      LessIsStrict(k, t[0].0);
      assert forall i :: 0 <= i < |t[1..]| ==> t[1..][i] == t[i + 1];
      AboveIsAbsent(t[1..], k);
    }
  }

  lemma {:induction false} HeadIsLeast(t: Table, u: Table)
    requires Ascending(t) && Ascending(u) && t != [] && (forall q :: Lookup(t, q) == Lookup(u, q))
    ensures u != [] && u[0] == t[0]
  {
    assert Lookup(u, t[0].0) == Some(t[0].1);
    assert Lookup(t, u[0].0) == Some(u[0].1);
    LessIsStrict(t[0].0, u[0].0);
    if Less(t[0].0, u[0].0) {
      AllAboveHead(u, t[0].0);
      AboveIsAbsent(u, t[0].0);
    } else if Less(u[0].0, t[0].0) {
      AllAboveHead(t, u[0].0);
      AboveIsAbsent(t, u[0].0);
    }
  }

  lemma {:induction false} AllAboveHead(t: Table, k: string)
    requires Ascending(t) && t != [] && Less(k, t[0].0)
    ensures AllAbove(k, t)
  {
    forall i | 0 <= i < |t|
      ensures Less(k, t[i].0)
    {
      if i > 0 {
        LessIsTransitive(k, t[0].0, t[i].0);
      }
    }
  }

  lemma {:induction false} FirstIsFound(t: Table)
    ensures t != [] ==> Lookup(t, t[0].0) == Some(t[0].1)
  {
  }

  /** Tables with the same bindings are the same sequence. */
  lemma {:induction false} TableIsCanonical(t: Table, u: Table)
    requires Ascending(t) && Ascending(u) && forall q :: Lookup(t, q) == Lookup(u, q)
    ensures t == u
    decreases |t|
  {
    FirstIsFound(u);
    if t != [] {
      HeadIsLeast(t, u);
      forall q
        ensures Lookup(t[1..], q) == Lookup(u[1..], q)
      {
        assert Lookup(t, q) == Lookup(u, q);
        if q == t[0].0 {
          AboveIsAbsent(t[1..], q);
          AboveIsAbsent(u[1..], q);
        }
      }
      TableIsCanonical(t[1..], u[1..]);
      assert t == [t[0]] + t[1..] && u == [u[0]] + u[1..];
    }
  }

  /** A table filled by insertions in the given order. */
  function Filled(inserts: seq<(string, string)>): Table {
    if inserts == [] then []
    else Insert(Filled(inserts[..|inserts| - 1]), inserts[|inserts| - 1].0, inserts[|inserts| - 1].1)
  }

  /** The bindings that remain: later insertions win. */
  function Bindings(inserts: seq<(string, string)>): map<string, string> {
    if inserts == [] then map[]
    else Bindings(inserts[..|inserts| - 1])[inserts[|inserts| - 1].0 := inserts[|inserts| - 1].1]
  }

  lemma {:induction false} FilledHolds(inserts: seq<(string, string)>)
    ensures Ascending(Filled(inserts))
    ensures forall q :: Lookup(Filled(inserts), q)
                        == if q in Bindings(inserts) then Some(Bindings(inserts)[q]) else None
  {
    if inserts != [] {
      var before, last := inserts[..|inserts| - 1], inserts[|inserts| - 1];
      FilledHolds(before);
      InsertKeepsOrder(Filled(before), last.0, last.1);
      forall q
        ensures Lookup(Filled(inserts), q) == if q in Bindings(inserts) then Some(Bindings(inserts)[q]) else None
      {
        InsertIsUpdate(Filled(before), last.0, last.1, q);
      }
    }
  }

  /** The order of insertions does not show. */
  lemma {:induction false} InsertionOrderIrrelevant(a: seq<(string, string)>, b: seq<(string, string)>)
    requires Bindings(a) == Bindings(b)
    ensures Filled(a) == Filled(b)
  {
    FilledHolds(a);
    FilledHolds(b);
    TableIsCanonical(Filled(a), Filled(b));
  }

  // -------------------------------------------------------------------- the key

  datatype Key = Key(builder: string, target: string, argv: seq<string>, cwd: Path, env: Table, inputs: Table,
                     toolchain: string)

  /** ActionKey::new. */
  function New(builder: string, target: string, argv: seq<string>, cwd: Path, toolchain: string): Key {
    Key(builder, target, argv, cwd, [], [], toolchain)
  }

  function WithEnv(k: Key, name: string, value: string): Key {
    k.(env := Insert(k.env, name, value))
  }

  function WithInput(k: Key, path: string, digest: string): Key {
    k.(inputs := Insert(k.inputs, path, digest))
  }

  function Join(parts: seq<string>): string {
    if parts == [] then "" else if |parts| == 1 then parts[0] else parts[0] + "/" + Join(parts[1..])
  }

  function Slashes(s: string): (r: string)
    ensures |r| == |s|
  {
    if s == [] then [] else [if s[0] == '\\' then '/' else s[0]] + Slashes(s[1..])
  }

  function Text(p: Path): string {
    (if p.absolute then "/" else "") + Join(p.parts)
  }

  /** The working directory relative to the workspace where it lies inside it. */
  function NormalCwd(cwd: Path, root: Path): string {
    if cwd.absolute == root.absolute && root.parts <= cwd.parts then
      var rest := cwd.parts[|root.parts|..];
      if rest == [] then "." else Slashes(Join(rest))
    else Slashes(Text(cwd))
  }

  /** Moving the workspace moves the payload nowhere. */
  lemma {:induction false} CwdIsRelocatable(root: Path, other: Path, rest: seq<string>)
    ensures NormalCwd(Path(root.absolute, root.parts + rest), root)
            == NormalCwd(Path(other.absolute, other.parts + rest), other)
  {
    assert (root.parts + rest)[|root.parts|..] == rest;
    assert (other.parts + rest)[|other.parts|..] == rest;
  }

  /** What the payload speaks of. */
  datatype Normal = Normal(builder: string, target: string, cwd: string, toolchain: string, argv: seq<string>,
                           env: Table, inputs: Table)

  function Normalise(k: Key, root: Path): Normal {
    Normal(k.builder, k.target, NormalCwd(k.cwd, root), k.toolchain, k.argv, k.env, k.inputs)
  }

  // ---------------------------------------------------------------- the encoding

  type Field = (string, string)

  /** write_field: key, length and value, each closed by a NUL. */
  function EncodeField(f: Field): string {
    f.0 + ['\0'] + Print(|f.1|) + ['\0'] + f.1 + ['\0']
  }

  function Encode(fields: seq<Field>): string {
    if fields == [] then [] else EncodeField(fields[0]) + Encode(fields[1..])
  }

  function ArgvFields(argv: seq<string>): seq<Field> {
    if argv == [] then [] else [("argv", argv[0])] + ArgvFields(argv[1..])
  }

  function PairFields(name: string, t: Table): seq<Field> {
    if t == [] then [] else [(name, t[0].0), (name, t[0].1)] + PairFields(name, t[1..])
  }

  const SCHEMA := "frost-action-key-v2"

  function HeadFields(n: Normal): seq<Field> {
    [("schema", SCHEMA), ("builder", n.builder), ("target", n.target), ("cwd", n.cwd), ("toolchain", n.toolchain)]
  }

  function FieldsOf(n: Normal): seq<Field> {
    HeadFields(n) + (ArgvFields(n.argv) + (PairFields("env", n.env) + PairFields("input", n.inputs)))
  }

  function Payload(k: Key, root: Path): string {
    Encode(FieldsOf(Normalise(k, root)))
  }

  // -------------------------------------------------------------------- the parser

  /** The text before the first NUL, and what follows it. */
  function Split(s: string): (r: Option<(string, string)>)
    ensures r.Some? ==> |r.value.1| < |s|
  {
    if s == [] then None
    else if s[0] == '\0' then Some(([], s[1..]))
    else match Split(s[1..])
         case None => None
         case Some(p) => Some(([s[0]] + p.0, p.1))
  }

  function ParseField(s: string): (r: Option<(Field, string)>)
    ensures r.Some? ==> |r.value.1| < |s|
  {
    match Split(s)
    case None => None
    case Some(p) =>
      match Split(p.1)
      case None => None
      case Some(q) =>
        if !AllDigits(q.0) then None
        else
          var n := Value(q.0);
          if n < |q.1| && q.1[n] == '\0' then Some(((p.0, q.1[..n]), q.1[n + 1..])) else None
  }

  function ParseFields(s: string): Option<seq<Field>>
    decreases |s|
  {
    if s == [] then Some([])
    else match ParseField(s)
         case None => None
         case Some(p) =>
           match ParseFields(p.1)
           case None => None
           case Some(fs) => Some([p.0] + fs)
  }

  function TakeArgv(fields: seq<Field>): (seq<string>, seq<Field>) {
    if fields == [] || fields[0].0 != "argv" then ([], fields)
    else
      var rest := TakeArgv(fields[1..]);
      ([fields[0].1] + rest.0, rest.1)
  }

  function TakePairs(name: string, fields: seq<Field>): (Table, seq<Field>) {
    if |fields| < 2 || fields[0].0 != name || fields[1].0 != name then ([], fields)
    else
      var rest := TakePairs(name, fields[2..]);
      ([(fields[0].1, fields[1].1)] + rest.0, rest.1)
  }

  /** Reads a payload back. */
  function Parse(s: string): Option<Normal> {
    match ParseFields(s)
    case None => None
    case Some(fs) =>
      if |fs| < 5 then None
      else
        var argv := TakeArgv(fs[5..]);
        var env := TakePairs("env", argv.1);
        var inputs := TakePairs("input", env.1);
        Some(Normal(fs[1].1, fs[2].1, fs[3].1, fs[4].1, argv.0, env.0, inputs.0))
  }

  // ------------------------------------------------------- the parser undoes the printer

  predicate NoNul(s: string) {
    forall i :: 0 <= i < |s| ==> s[i] != '\0'
  }

  lemma {:induction false} SplitAtNul(s: string, rest: string)
    requires NoNul(s)
    ensures Split(s + ['\0'] + rest) == Some((s, rest))
  {
    var all := s + ['\0'] + rest;
    if s == [] {
      assert all[1..] == rest;
    } else {
      assert all[1..] == s[1..] + ['\0'] + rest;
      SplitAtNul(s[1..], rest);
      assert [s[0]] + s[1..] == s;
    }
  }

  lemma {:induction false} ParseFieldBack(f: Field, rest: string)
    requires NoNul(f.0)
    ensures ParseField(EncodeField(f) + rest) == Some((f, rest))
  {
    var digits := Print(|f.1|);
    ValueOfPrint(|f.1|);
    var tail := f.1 + ['\0'] + rest;
    assert EncodeField(f) + rest == f.0 + ['\0'] + (digits + ['\0'] + tail);
    SplitAtNul(f.0, digits + ['\0'] + tail);
    SplitAtNul(digits, tail);
    assert tail[..|f.1|] == f.1 && tail[|f.1| + 1..] == rest;
  }

  predicate NamesHaveNoNul(fields: seq<Field>) {
    forall i {:trigger fields[i]} :: 0 <= i < |fields| ==> NoNul(fields[i].0)
  }

  lemma {:induction false} ParseFieldsBack(fields: seq<Field>)
    requires NamesHaveNoNul(fields)
    ensures ParseFields(Encode(fields)) == Some(fields)
  {
    if fields != [] {
      ParseFieldBack(fields[0], Encode(fields[1..]));
      ParseFieldsBack(fields[1..]);
      assert [fields[0]] + fields[1..] == fields;
    }
  }

  lemma {:induction false} TakeArgvBack(argv: seq<string>, rest: seq<Field>)
    requires rest == [] || rest[0].0 != "argv"
    ensures TakeArgv(ArgvFields(argv) + rest) == (argv, rest)
  {
    var all := ArgvFields(argv) + rest;
    if argv == [] {
      assert all == rest;
    } else {
      assert all[1..] == ArgvFields(argv[1..]) + rest;
      TakeArgvBack(argv[1..], rest);
      assert [argv[0]] + argv[1..] == argv;
    }
  }

  lemma {:induction false} TakePairsBack(name: string, t: Table, rest: seq<Field>)
    requires rest == [] || rest[0].0 != name
    ensures TakePairs(name, PairFields(name, t) + rest) == (t, rest)
  {
    var all := PairFields(name, t) + rest;
    if t == [] {
      assert all == rest;
    } else {
      assert all[2..] == PairFields(name, t[1..]) + rest;
      TakePairsBack(name, t[1..], rest);
      assert [(t[0].0, t[0].1)] + t[1..] == t;
    }
  }

  lemma {:induction false} ArgvNames(argv: seq<string>)
    ensures NamesHaveNoNul(ArgvFields(argv))
  {
    if argv != [] {
      ArgvNames(argv[1..]);
    }
  }

  lemma {:induction false} PairNames(name: string, t: Table)
    requires NoNul(name)
    ensures NamesHaveNoNul(PairFields(name, t))
    ensures t != [] ==> PairFields(name, t) != [] && PairFields(name, t)[0].0 == name
  {
    if t != [] {
      PairNames(name, t[1..]);
    }
  }

  /** The parser undoes the printer for every key: NULs, digits and empty strings included. */
  lemma {:induction false} ParseBack(n: Normal)
    ensures Parse(Encode(FieldsOf(n))) == Some(n)
  {
    var inputs := PairFields("input", n.inputs);
    var env := PairFields("env", n.env) + inputs;
    var argv := ArgvFields(n.argv) + env;
    PairNames("input", n.inputs);
    PairNames("env", n.env);
    ArgvNames(n.argv);
    assert NamesHaveNoNul(FieldsOf(n));
    ParseFieldsBack(FieldsOf(n));
    assert FieldsOf(n)[5..] == argv;
    assert env != [] ==> env[0].0 == "env" || env[0].0 == "input";
    TakeArgvBack(n.argv, env);
    TakePairsBack("env", n.env, inputs);
    assert inputs + [] == inputs;
    TakePairsBack("input", n.inputs, []);
  }

  /** Keys with the same payload agree on everything the payload speaks of. */
  lemma {:induction false} PayloadIsInjective(a: Key, b: Key, rootA: Path, rootB: Path)
    requires Payload(a, rootA) == Payload(b, rootB)
    ensures Normalise(a, rootA) == Normalise(b, rootB)
  {
    ParseBack(Normalise(a, rootA));
    ParseBack(Normalise(b, rootB));
  }

  // ---------------------------------------------------------------- the printer's loops

  /** write_field. */
  method WriteField(payload: string, key: string, value: string) returns (after: string)
    ensures after == payload + EncodeField((key, value))
  {
    after := payload + key + ['\0'];
    after := after + Print(|value|);
    after := after + ['\0'] + value + ['\0'];
    assert after == payload + (key + ['\0'] + Print(|value|) + ['\0'] + value + ['\0']);
  }

  lemma {:induction false} EncodeAppend(fields: seq<Field>, f: Field)
    ensures Encode(fields + [f]) == Encode(fields) + EncodeField(f)
  {
    if fields == [] {
      assert fields + [f] == [f] && Encode([f]) == EncodeField(f) + Encode([f][1..]);
    } else {
      assert (fields + [f])[1..] == fields[1..] + [f];
      EncodeAppend(fields[1..], f);
    }
  }

  method Write(payload: string, ghost fields: seq<Field>, key: string, value: string) returns (after: string)
    requires payload == Encode(fields)
    ensures after == Encode(fields + [(key, value)])
  {
    EncodeAppend(fields, (key, value));
    after := WriteField(payload, key, value);
  }

  /** One of the loops over a table. */
  method WritePairs(payload: string, ghost fields: seq<Field>, name: string, t: Table) returns (after: string)
    requires payload == Encode(fields)
    ensures after == Encode(fields + PairFields(name, t))
  {
    after := payload;
    ghost var done := fields;
    for i := 0 to |t|
      invariant after == Encode(done) && done + PairFields(name, t[i..]) == fields + PairFields(name, t)
    {
      assert t[i..][1..] == t[i + 1..];
      after := Write(after, done, name, t[i].0);
      after := Write(after, done + [(name, t[i].0)], name, t[i].1);
      done := done + [(name, t[i].0)] + [(name, t[i].1)];
    }
    assert t[|t|..] == [] && done + [] == done;
  }

  method WriteArgv(payload: string, ghost fields: seq<Field>, argv: seq<string>) returns (after: string)
    requires payload == Encode(fields)
    ensures after == Encode(fields + ArgvFields(argv))
  {
    after := payload;
    ghost var done := fields;
    for i := 0 to |argv|
      invariant after == Encode(done) && done + ArgvFields(argv[i..]) == fields + ArgvFields(argv)
    {
      assert argv[i..][1..] == argv[i + 1..];
      after := Write(after, done, "argv", argv[i]);
      done := done + [("argv", argv[i])];
    }
    assert argv[|argv|..] == [] && done + [] == done;
  }

  /** The five fields every key has. */
  method WriteHead(n: Normal) returns (payload: string)
    ensures payload == Encode(HeadFields(n))
  {
    ghost var h := HeadFields(n);
    assert [] + [h[0]] == h[..1] && h[..1] + [h[1]] == h[..2] && h[..2] + [h[2]] == h[..3];
    assert h[..3] + [h[3]] == h[..4] && h[..4] + [h[4]] == h;
    payload := Write([], [], "schema", SCHEMA);
    payload := Write(payload, h[..1], "builder", n.builder);
    payload := Write(payload, h[..2], "target", n.target);
    payload := Write(payload, h[..3], "cwd", n.cwd);
    payload := Write(payload, h[..4], "toolchain", n.toolchain);
  }

  /** canonical_payload. */
  method CanonicalPayload(k: Key, root: Path) returns (payload: string)
    ensures payload == Payload(k, root)
  {
    var n := Normalise(k, root);
    ghost var head, argv := HeadFields(n), ArgvFields(n.argv);
    ghost var env, inputs := PairFields("env", n.env), PairFields("input", n.inputs);
    payload := WriteHead(n);
    payload := WriteArgv(payload, head, n.argv);
    payload := WritePairs(payload, head + argv, "env", n.env);
    payload := WritePairs(payload, head + argv + env, "input", n.inputs);
    Regroup(head, argv, env, inputs);
  }

  lemma {:induction false} Regroup(a: seq<Field>, b: seq<Field>, c: seq<Field>, d: seq<Field>)
    ensures a + (b + (c + d)) == a + b + c + d
  {
  }

  // --------------------------------------------------------------- insertion order

  function WithEnvs(k: Key, inserts: seq<(string, string)>): Key {
    if inserts == [] then k
    else WithEnv(WithEnvs(k, inserts[..|inserts| - 1]), inserts[|inserts| - 1].0, inserts[|inserts| - 1].1)
  }

  function WithInputs(k: Key, inserts: seq<(string, string)>): Key {
    if inserts == [] then k
    else WithInput(WithInputs(k, inserts[..|inserts| - 1]), inserts[|inserts| - 1].0, inserts[|inserts| - 1].1)
  }

  lemma {:induction false} WithEnvsFills(k: Key, inserts: seq<(string, string)>)
    requires k.env == []
    ensures WithEnvs(k, inserts) == k.(env := Filled(inserts))
  {
    if inserts != [] {
      WithEnvsFills(k, inserts[..|inserts| - 1]);
    }
  }

  lemma {:induction false} WithInputsFills(k: Key, inserts: seq<(string, string)>)
    requires k.inputs == []
    ensures WithInputs(k, inserts) == k.(inputs := Filled(inserts))
  {
    if inserts != [] {
      WithInputsFills(k, inserts[..|inserts| - 1]);
    }
  }

  /** The payload is the same for every order of insertions that leaves the same bindings. */
  lemma {:induction false} PayloadIgnoresInsertionOrder(k: Key, root: Path, envA: seq<(string, string)>,
                                                        envB: seq<(string, string)>,
                                     inA: seq<(string, string)>, inB: seq<(string, string)>)
    requires k.env == [] && k.inputs == []
    requires Bindings(envA) == Bindings(envB) && Bindings(inA) == Bindings(inB)
    ensures Payload(WithInputs(WithEnvs(k, envA), inA), root) == Payload(WithInputs(WithEnvs(k, envB), inB), root)
  {
    InsertionOrderIrrelevant(envA, envB);
    InsertionOrderIrrelevant(inA, inB);
    WithEnvsFills(k, envA);
    WithEnvsFills(k, envB);
    WithInputsFills(WithEnvs(k, envA), inA);
    WithInputsFills(WithEnvs(k, envB), inB);
  }
}
