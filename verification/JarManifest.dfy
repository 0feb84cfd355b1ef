/** The manifest of a packed JAR: jar.rs folds a long main class over physical lines, and the
    reader in main.rs unfolds it.  The line limit is that of "Notes on Manifest and Signature
    Files" in the JAR File Specification, the encoding that of section 3 of RFC 3629. */
module JarManifest {
  import opened Wrappers

  // -------------------------------------------------------------------- UTF-8

  function EncodeChar(c: char): (b: Bytes)
    ensures 1 <= |b| <= 4
  {
    var n := c as int;
    if n < 0x80 then [n]
    else if n < 0x800 then [0xC0 + n / 64, 0x80 + n % 64]
    else if n < 0x1_0000 then [0xE0 + n / 4096, 0x80 + n / 64 % 64, 0x80 + n % 64]
    else [0xF0 + n / 0x4_0000, 0x80 + n / 4096 % 64, 0x80 + n / 64 % 64, 0x80 + n % 64]
  }

  function Utf8(s: string): Bytes {
    if s == [] then [] else EncodeChar(s[0]) + Utf8(s[1..])
  }

  /** How many bytes a lead byte announces; 0 for none. */
  function Announced(lead: Byte): nat {
    if lead < 0x80 then 1
    else if lead < 0xC0 then 0
    else if lead < 0xE0 then 2
    else if lead < 0xF0 then 3
    else if lead < 0xF8 then 4
    else 0
  }

  function Tail6(b: Byte): int {
    var n: int := b;
    n - 0x80
  }

  /** The code point the first bytes spell, not yet checked. */
  function CodePoint(b: Bytes): int
    requires b != [] && 1 <= Announced(b[0]) <= |b|
  {
    var lead: int := b[0];
    match Announced(b[0])
    case 1 => lead
    case 2 => (lead - 0xC0) * 64 + Tail6(b[1])
    case 3 => (lead - 0xE0) * 4096 + Tail6(b[1]) * 64 + Tail6(b[2])
    case _ => (lead - 0xF0) * 0x4_0000 + Tail6(b[1]) * 4096 + Tail6(b[2]) * 64 + Tail6(b[3])
  }

  /** One character, if the bytes start with its encoding. */
  function DecodeChar(b: Bytes): (r: Option<char>)
    ensures r.Some? ==> |EncodeChar(r.value)| <= |b| && b[..|EncodeChar(r.value)|] == EncodeChar(r.value)
  {
    if b == [] || !(1 <= Announced(b[0]) <= |b|) then None
    else
      var n := CodePoint(b);
      if !(0 <= n < 0xD800 || 0xE000 <= n < 0x11_0000) then None
      else
        var e := EncodeChar(n as char);
        if |e| <= |b| && b[..|e|] == e then Some(n as char) else None
  }

  /** String::from_utf8. */
  function Decode(b: Bytes): Option<string>
    decreases |b|
  {
    if b == [] then Some("")
    else match DecodeChar(b)
         case None => None
         case Some(c) =>
           match Decode(b[|EncodeChar(c)|..])
           case None => None
           case Some(s) => Some([c] + s)
  }

  lemma {:induction false} DecodeCharBack(c: char, rest: Bytes)
    ensures DecodeChar(EncodeChar(c) + rest) == Some(c)
  {
    var n := c as int;
    var b := EncodeChar(c) + rest;
    assert b[..|EncodeChar(c)|] == EncodeChar(c);
    if n < 0x80 {
    } else if n < 0x800 {
      assert CodePoint(b) == n;
    } else if n < 0x1_0000 {
      Digits64(n);
      assert CodePoint(b) == n;
    } else {
      Digits64(n);
      assert CodePoint(b) == n;
    }
  }

  lemma {:induction false} Digits64(n: nat)
    ensures n == n / 4096 * 4096 + n / 64 % 64 * 64 + n % 64
    ensures n == n / 0x4_0000 * 0x4_0000 + n / 4096 % 64 * 4096 + n / 64 % 64 * 64 + n % 64
  {
    assert n == n / 64 * 64 + n % 64;
    assert n / 64 == n / 64 / 64 * 64 + n / 64 % 64;
    assert n / 4096 == n / 4096 / 64 * 64 + n / 4096 % 64;
    assert n / 64 / 64 == n / 4096 && n / 4096 / 64 == n / 0x4_0000;
  }

  lemma {:induction false} DecodeBack(s: string)
    ensures Decode(Utf8(s)) == Some(s)
  {
    if s != [] {
      DecodeCharBack(s[0], Utf8(s[1..]));
      assert Utf8(s)[|EncodeChar(s[0])|..] == Utf8(s[1..]);
      DecodeBack(s[1..]);
      assert [s[0]] + s[1..] == s;
    }
  }

  lemma {:induction false} Utf8Append(a: string, b: string)
    ensures Utf8(a + b) == Utf8(a) + Utf8(b)
  {
    if a == [] {
      assert a + b == b;
    } else {
      assert (a + b)[1..] == a[1..] + b;
      Utf8Append(a[1..], b);
    }
  }

  /** A byte offset between two characters. */
  predicate IsBoundary(s: string, at: nat) {
    at == 0 || (s != [] && at >= |EncodeChar(s[0])| && IsBoundary(s[1..], at - |EncodeChar(s[0])|))
  }

  /** &s[at..], which panics off a boundary. */
  function DropBytes(s: string, at: nat): string
    requires IsBoundary(s, at)
  {
    if at == 0 then s else DropBytes(s[1..], at - |EncodeChar(s[0])|)
  }

  lemma {:induction false} DropAtBoundary(s: string, n: nat)
    requires n <= |s|
    ensures IsBoundary(s, |Utf8(s[..n])|) && DropBytes(s, |Utf8(s[..n])|) == s[n..]
    decreases n
  {
    if n > 0 {
      assert s[..n][1..] == s[1..][..n - 1];
      DropAtBoundary(s[1..], n - 1);
    }
  }

  lemma {:induction false} SliceBytes(s: string, n: nat, m: nat)
    requires n <= m <= |s|
    ensures |Utf8(s[..m])| == |Utf8(s[..n])| + |Utf8(s[n..m])| && |Utf8(s[..m])| <= |Utf8(s)|
    ensures Utf8(s)[|Utf8(s[..n])|..|Utf8(s[..m])|] == Utf8(s[n..m])
  {
    assert s[..m] == s[..n] + s[n..m] && s == s[..m] + s[m..];
    Utf8Append(s[..n], s[n..m]);
    Utf8Append(s[..m], s[m..]);
  }

  // ------------------------------------------------------------------- folding

  const CONTENT_BYTES: nat := 70
  const CRLF: Bytes := [0x0D, 0x0A]

  lemma {:induction false} PrefixStep(s: string, n: nat)
    requires n < |s|
    ensures |Utf8(s[..n + 1])| == |Utf8(s[..n])| + |EncodeChar(s[n])|
  {
    assert s[..n + 1] == s[..n] + [s[n]];
    Utf8Append(s[..n], [s[n]]);
    assert Utf8([s[n]]) == EncodeChar(s[n]) + Utf8([]);
  }

  /** The first n characters fit the limit and take r bytes, and no further one would fit. */
  predicate IsLongest(value: string, limit: nat, r: nat, n: nat) {
    && n <= |value| && r == |Utf8(value[..n])| && r <= limit
    && (n == |value| || |Utf8(value[..n + 1])| > limit)
  }

  /** utf8_prefix: the bytes of the longest run of whole characters within the limit. */
  method Utf8Prefix(value: string, limit: nat) returns (r: nat, ghost n: nat)
    ensures IsLongest(value, limit, r, n)
    ensures exists k :: IsLongest(value, limit, r, k)
  {
    if |Utf8(value)| <= limit {
      r, n := |Utf8(value)|, |value|;
      assert value[..n] == value;
      assert IsLongest(value, limit, r, n);
      return;
    }
    r, n := 0, 0;
    var index := 0;
    var k := 0;
    assert value[..0] == [] && value[..|value|] == value;
    while k < |value| && index <= limit
      invariant k <= |value| && index == |Utf8(value[..k])|
      invariant k == 0 ==> r == 0 && n == 0
      invariant k > 0 ==> n == k - 1 && r == |Utf8(value[..n])| <= limit
    {
      PrefixStep(value, k);
      r, n := index, k;
      index, k := index + |EncodeChar(value[k])|, k + 1;
    }
    assert IsLongest(value, limit, r, n);
  }

  /** The bytes of physical lines, each closed by CR LF. */
  function Physical(lines: seq<string>): Bytes {
    if lines == [] then [] else Physical(lines[..|lines| - 1]) + Utf8(lines[|lines| - 1]) + CRLF
  }

  /** What a first line and its continuations stand for. */
  function Joined(lines: seq<string>): string {
    if lines == [] then ""
    else if |lines| == 1 then lines[0]
    else Joined(lines[..|lines| - 1]) + (if lines[|lines| - 1] == "" then "" else lines[|lines| - 1][1..])
  }

  /** A header as folded: continuation lines start with a space, none exceeds the limit. */
  predicate Folded(lines: seq<string>) {
    && lines != []
    && (forall i {:trigger lines[i]} :: 0 <= i < |lines| ==> |Utf8(lines[i])| <= CONTENT_BYTES)
    && (forall i {:trigger lines[i]} :: 0 < i < |lines| ==> |lines[i]| > 1 && lines[i][0] == ' ')
  }

  /** Folded lines that join to prefix and value, the prefix whole on the first. */
  predicate FoldOf(lines: seq<string>, prefix: string, value: string) {
    Folded(lines) && prefix <= lines[0] && Joined(lines) == prefix + value
  }

  lemma {:induction false} PhysicalAppend(lines: seq<string>, line: string)
    ensures Physical(lines + [line]) == Physical(lines) + Utf8(line) + CRLF
  {
    assert (lines + [line])[..|lines|] == lines;
  }

  /** The lines written so far carry the prefix and the first `done` characters. */
  predicate Carries(lines: seq<string>, prefix: string, value: string, done: nat) {
    && Folded(lines) && prefix <= lines[0] && done <= |value| && Joined(lines) == prefix + value[..done]
  }

  /** The first line. */
  method FirstLine(prefix: string, value: string)
    returns (bytes: Bytes, cursor: nat, ghost lines: seq<string>, ghost done: nat)
    requires |Utf8(prefix)| <= CONTENT_BYTES
    ensures bytes == Physical(lines) && Carries(lines, prefix, value, done) && cursor == |Utf8(value[..done])|
  {
    cursor, done := Utf8Prefix(value, CONTENT_BYTES - |Utf8(prefix)|);
    SliceBytes(value, 0, done);
    assert value[0..done] == value[..done] && value[..0] == [];
    Utf8Append(prefix, value[..done]);
    lines := [prefix + value[..done]];
    bytes := Utf8(prefix) + Utf8(value)[..cursor] + CRLF;
    assert Physical(lines[..0]) == [];
    assert bytes == Physical([]) + Utf8(lines[0]) + CRLF;
  }

  lemma {:induction false} PieceAt(value: string, done: nat, m: nat)
    requires done + m <= |value|
    ensures value[done..][..m] == value[done..done + m] && value[..done + m] == value[..done] + value[done..done + m]
  {
  }

  lemma {:induction false} Regroup<T>(a: seq<T>, b: seq<T>, c: seq<T>, d: seq<T>)
    ensures a + b + c + d == a + (b + c + d) && a + b + c == a + (b + c)
  {
  }

  lemma {:induction false} CarryMore(lines: seq<string>, prefix: string, value: string, done: nat, m: nat)
    returns (more: seq<string>)
    requires Carries(lines, prefix, value, done) && 0 < m && done + m <= |value|
    requires |Utf8(value[done..done + m])| < CONTENT_BYTES
    ensures Carries(more, prefix, value, done + m)
    ensures Physical(more) == Physical(lines) + ([0x20] + Utf8(value[done..done + m]) + CRLF)
  {
    var piece := value[done..done + m];
    more := lines + [" " + piece];
    PieceAt(value, done, m);
    Regroup(Physical(lines), [0x20], Utf8(piece), CRLF);
    Regroup(prefix, value[..done], piece, "");
  }

  /** The bytes of the next continuation, and where they end. */
  method Cut(value: string, cursor: nat, ghost done: nat) returns (piece: Bytes, end: nat, ghost m: nat)
    requires done <= |value| && cursor == |Utf8(value[..done])| < |Utf8(value)|
    ensures 0 < m && done + m <= |value| && piece == Utf8(value[done..done + m]) && |piece| < CONTENT_BYTES
    ensures end == |Utf8(value[..done + m])|
  {
    assert done < |value| by {
      assert value[..|value|] == value;
    }
    DropAtBoundary(value, done);
    var length;
    length, m := Utf8Prefix(DropBytes(value, cursor), CONTENT_BYTES - 1);
    end := cursor + length;
    Progress(value[done..], m);
    PieceAt(value, done, m);
    SliceBytes(value, done, done + m);
    piece := Utf8(value)[cursor..end];
  }

  /** write_manifest_header.  The output is whole lines of whole characters that join to the
      header; every cut advances. */
  method WriteManifestHeader(output: Bytes, name: string, value: string)
    returns (after: Bytes, ghost lines: seq<string>)
    requires |Utf8(name + ": ")| <= CONTENT_BYTES
    ensures after == output + Physical(lines) && FoldOf(lines, name + ": ", value)
    ensures exists ls :: after == output + Physical(ls) && FoldOf(ls, name + ": ", value)
  {
    var prefix := name + ": ";
    var bytes, cursor;
    ghost var done;
    bytes, cursor, lines, done := FirstLine(prefix, value);
    after := output + bytes;
    while cursor < |Utf8(value)|
      invariant Carries(lines, prefix, value, done) && cursor == |Utf8(value[..done])|
      invariant after == output + Physical(lines)
      decreases |value| - done
    {
      ghost var m;
      bytes, cursor, m := Cut(value, cursor, done);
      lines := CarryMore(lines, prefix, value, done, m);
      done := done + m;
      after := after + ([0x20] + bytes + CRLF);
    }
    if done < |value| {
      PrefixStep(value, done);
      SliceBytes(value, done + 1, |value|);
    }
    assert value[..|value|] == value;
  }

  /** A limit of four bytes or more always lets a character through. */
  lemma {:induction false} Progress(rest: string, m: nat)
    requires rest != "" && m <= |rest|
    requires m == |rest| || |Utf8(rest[..m + 1])| > CONTENT_BYTES - 1
    ensures m > 0
  {
    if m == 0 {
      PrefixStep(rest, 0);
    }
  }

  // ------------------------------------------------------------------- the value

  /** char::is_alphabetic and char::is_numeric. */
  datatype CharClasses = CharClasses(alphabetic: set<char>, numeric: set<char>)

  /** Unicode has no line break among them. */
  predicate NoLineBreaks(u: CharClasses) {
    && '\r' !in u.alphabetic && '\n' !in u.alphabetic && '\r' !in u.numeric && '\n' !in u.numeric
  }

  predicate IsStart(u: CharClasses, c: char) {
    c == '_' || c == '$' || c in u.alphabetic
  }

  predicate IsPart(u: CharClasses, c: char) {
    IsStart(u, c) || c in u.numeric
  }

  /** split('.'). */
  function SplitDots(s: string): (r: seq<string>)
    ensures r != []
  {
    if s == [] then [""]
    else
      var rest := SplitDots(s[1..]);
      if s[0] == '.' then [""] + rest else [[s[0]] + rest[0]] + rest[1..]
  }

  predicate IsIdentifier(u: CharClasses, s: string) {
    s != [] && IsStart(u, s[0]) && forall i :: 0 < i < |s| ==> IsPart(u, s[i])
  }

  /** validate_main_class. */
  predicate ValidMainClass(u: CharClasses, value: string) {
    && value != "" && |Utf8(value)| <= 65535
    && forall i :: 0 <= i < |SplitDots(value)| ==> IsIdentifier(u, SplitDots(value)[i])
  }

  predicate OneLine(s: string) {
    forall i {:trigger s[i]} :: 0 <= i < |s| ==> s[i] != '\r' && s[i] != '\n'
  }

  lemma {:induction false} SplitCovers(s: string, i: nat)
    requires i < |s| && s[i] != '.'
    ensures exists k, j :: 0 <= k < |SplitDots(s)| && 0 <= j < |SplitDots(s)[k]| && SplitDots(s)[k][j] == s[i]
    decreases i
  {
    var rest := SplitDots(s[1..]);
    if i == 0 {
      assert SplitDots(s)[0][0] == s[0];
    } else {
      SplitCovers(s[1..], i - 1);
      var k, j :| 0 <= k < |rest| && 0 <= j < |rest[k]| && rest[k][j] == s[i];
      if s[0] == '.' {
        assert SplitDots(s)[k + 1][j] == s[i];
      } else if k == 0 {
        assert SplitDots(s)[0][j + 1] == s[i];
      } else {
        assert SplitDots(s)[k][j] == s[i];
      }
    }
  }

  lemma {:induction false} ValidIsOneLine(u: CharClasses, value: string)
    requires NoLineBreaks(u) && ValidMainClass(u, value)
    ensures OneLine(value)
  {
    forall i | 0 <= i < |value|
      ensures value[i] != '\r' && value[i] != '\n'
    {
      if value[i] != '.' {
        SplitCovers(value, i);
        var k, j :| 0 <= k < |SplitDots(value)| && 0 <= j < |SplitDots(value)[k]| && SplitDots(value)[k][j] == value[i];
        assert IsIdentifier(u, SplitDots(value)[k]);
      }
    }
  }

  // ------------------------------------------------------------------- reading

  /** str::lines: a line ends at LF, a CR right before it goes too, and what follows the last LF
      is a line if it is not empty. */
  function Lines(s: string): seq<string>
    decreases |s|
  {
    if s == [] then []
    else
      var n := LineEnd(s);
      if n == |s| then [s] else [Chomp(s[..n])] + Lines(s[n + 1..])
  }

  function LineEnd(s: string): (n: nat)
    ensures n <= |s|
  {
    if s == [] || s[0] == '\n' then 0 else 1 + LineEnd(s[1..])
  }

  function Chomp(s: string): string {
    if s != [] && s[|s| - 1] == '\r' then s[..|s| - 1] else s
  }

  /** trim_end_matches('\r'). */
  function TrimCr(s: string): string {
    if s != [] && s[|s| - 1] == '\r' then TrimCr(s[..|s| - 1]) else s
  }

  const HEADER := "Main-Class: "

  /** The first header line that names a main class. */
  method FindMainClass(unfolded: seq<string>) returns (r: Result<string>)
    ensures r.Ok? <==> exists i :: 0 <= i < |unfolded| && HEADER <= unfolded[i]
    ensures r.Ok? ==> exists i ::
              && 0 <= i < |unfolded| && unfolded[i] == HEADER + r.value
              && forall j :: 0 <= j < i ==> !(HEADER <= unfolded[j])
  {
    for i := 0 to |unfolded|
      invariant forall j :: 0 <= j < i ==> !(HEADER <= unfolded[j])
    {
      if HEADER <= unfolded[i] {
        assert unfolded[i] == HEADER + unfolded[i][|HEADER|..];
        return Ok(unfolded[i][|HEADER|..]);
      }
    }
    return Err;
  }

  /** One line of the reader: a continuation extends the last header, anything else starts one;
      None if there is nothing to extend. */
  function Unfold(headers: seq<string>, line: string): Option<seq<string>> {
    if line != [] && line[0] == ' ' then
      if headers == [] then None
      else Some(headers[..|headers| - 1] + [headers[|headers| - 1] + line[1..]])
    else Some(headers + [TrimCr(line)])
  }

  function UnfoldAll(lines: seq<string>): Option<seq<string>> {
    if lines == [] then Some([])
    else match UnfoldAll(lines[..|lines| - 1])
         case None => None
         case Some(headers) => Unfold(headers, lines[|lines| - 1])
  }

  lemma {:induction false} UnfoldFails(lines: seq<string>, n: nat)
    requires n <= |lines| && UnfoldAll(lines[..n]).None?
    ensures UnfoldAll(lines).None?
    decreases |lines| - n
  {
    if n < |lines| {
      assert lines[..n + 1][..n] == lines[..n];
      UnfoldFails(lines, n + 1);
    } else {
      assert lines[..n] == lines;
    }
  }

  /** jar_main_class, on the bytes of the manifest entry. */
  method JarMainClass(bytes: Bytes) returns (r: Result<string>)
    ensures r.Ok? ==> Decode(bytes).Some? && UnfoldAll(Lines(Decode(bytes).value)).Some?
    ensures Decode(bytes).Some? && UnfoldAll(Lines(Decode(bytes).value)).Some? ==>
              var headers := UnfoldAll(Lines(Decode(bytes).value)).value;
              && (r.Ok? <==> exists i :: 0 <= i < |headers| && HEADER <= headers[i])
              && (r.Ok? ==> exists i ::
                    && 0 <= i < |headers| && headers[i] == HEADER + r.value
                    && forall j :: 0 <= j < i ==> !(HEADER <= headers[j]))
  {
    var raw := Decode(bytes);
    if raw.None? {
      return Err;
    }
    var lines := Lines(raw.value);
    var unfolded: seq<string> := [];
    for i := 0 to |lines|
      invariant UnfoldAll(lines[..i]) == Some(unfolded)
    {
      var line := lines[i];
      assert lines[..i + 1][..i] == lines[..i];
      if line != [] && line[0] == ' ' {
        if unfolded == [] {
          UnfoldFails(lines, i + 1);
          return Err;
        }
        unfolded := unfolded[..|unfolded| - 1] + [unfolded[|unfolded| - 1] + line[1..]];
      } else {
        unfolded := unfolded + [TrimCr(line)];
      }
    }
    assert lines[..|lines|] == lines;
    r := FindMainClass(unfolded);
  }

  // ---------------------------------------------------------------- round trip

  const FIRST := "Manifest-Version: 1.0"
  const SECOND := "Created-By: FrostBuild"
  const NAME := "Main-Class"

  /** The two fixed lines, the header if there is one, and the blank line. */
  method WriteLines(u: CharClasses, a: string, b: string, name: string, value: Option<string>)
    returns (r: Result<Bytes>, ghost lines: seq<string>)
    requires |Utf8(name + ": ")| <= CONTENT_BYTES
    ensures r.Err? <==> value.Some? && !ValidMainClass(u, value.value)
    ensures r.Ok? ==> r.value == Physical([a, b] + lines + [""])
    ensures r.Ok? && value.None? ==> lines == []
    ensures r.Ok? && value.Some? ==>
              Folded(lines) && Joined(lines) == name + ": " + value.value && name + ": " <= lines[0]
  {
    var bytes := Utf8(a) + CRLF + Utf8(b) + CRLF;
    TwoLines(a, b);
    lines := [];
    assert [a, b] + [] == [a, b];
    if value.Some? {
      if !ValidMainClass(u, value.value) {
        return Err, [];
      }
      bytes, lines := WriteManifestHeader(bytes, name, value.value);
      PhysicalConcat([a, b], lines);
    }
    PhysicalAppend([a, b] + lines, "");
    assert Physical([a, b] + lines) + [] + CRLF == Physical([a, b] + lines) + CRLF;
    return Ok(bytes + CRLF), lines;
  }

  /** The manifest part of write_archive. */
  method WriteManifest(u: CharClasses, mainClass: Option<string>) returns (r: Result<Bytes>, ghost lines: seq<string>)
    ensures r.Err? <==> mainClass.Some? && !ValidMainClass(u, mainClass.value)
    ensures r.Ok? ==> r.value == Physical([FIRST, SECOND] + lines + [""])
    ensures r.Ok? && mainClass.None? ==> lines == []
    ensures r.Ok? && mainClass.Some? ==>
              Folded(lines) && Joined(lines) == HEADER + mainClass.value && HEADER <= lines[0]
  {
    HeaderFits();
    r, lines := WriteLines(u, FIRST, SECOND, NAME, mainClass);
  }

  lemma {:induction false} PhysicalConcat(a: seq<string>, b: seq<string>)
    ensures Physical(a + b) == Physical(a) + Physical(b)
    decreases |b|
  {
    if b == [] {
      assert a + b == a;
    } else {
      var init, last := b[..|b| - 1], b[|b| - 1];
      assert a + b == (a + init) + [last] && b == init + [last];
      PhysicalConcat(a, init);
      PhysicalAppend(a + init, last);
      Regroup(Physical(a), Physical(init), Utf8(last), CRLF);
    }
  }

  /** The text of physical lines. */
  function TextOf(lines: seq<string>): string {
    if lines == [] then "" else lines[0] + "\r\n" + TextOf(lines[1..])
  }

  lemma {:induction false} LineBreak()
    ensures Utf8("\r\n") == CRLF
  {
  }

  lemma {:induction false} OneMoreLine(line: string, eol: string, rest: string)
    ensures Utf8(line + eol + rest) == Utf8(line) + Utf8(eol) + Utf8(rest)
  {
    Utf8Append(line + eol, rest);
    Utf8Append(line, eol);
  }

  lemma {:induction false} OneMorePhysical(line: string, lines: seq<string>)
    ensures Physical([line] + lines) == Utf8(line) + CRLF + Physical(lines)
  {
    PhysicalConcat([line], lines);
    PhysicalAppend([], line);
    assert [] + [line] == [line];
  }

  lemma {:induction false} PhysicalIsText(lines: seq<string>)
    ensures Physical(lines) == Utf8(TextOf(lines))
  {
    if lines != [] {
      var line, rest := lines[0], lines[1..];
      PhysicalIsText(rest);
      assert lines == [line] + rest;
      OneMorePhysical(line, rest);
      LineBreak();
      OneMoreLine(line, "\r\n", TextOf(rest));
    }
  }

  lemma {:induction false} LineEndAt(line: string, rest: string)
    requires OneLine(line)
    ensures LineEnd(line + "\r\n" + rest) == |line| + 1
    decreases |line|
  {
    var s := line + "\r\n" + rest;
    if line == "" {
      assert s[1..] == "\n" + rest && s[0] == '\r';
    } else {
      assert s[1..] == line[1..] + "\r\n" + rest;
      LineEndAt(line[1..], rest);
    }
  }

  predicate AllOneLine(lines: seq<string>) {
    forall i {:trigger lines[i]} :: 0 <= i < |lines| ==> OneLine(lines[i])
  }

  /** The reader finds the physical lines that were written. */
  lemma {:induction false} LinesBack(lines: seq<string>)
    requires AllOneLine(lines)
    ensures Lines(TextOf(lines)) == lines
  {
    if lines != [] {
      var rest := TextOf(lines[1..]);
      var s := lines[0] + "\r\n" + rest;
      LineEndAt(lines[0], rest);
      assert s[..|lines[0]| + 1] == lines[0] + "\r" && s[|lines[0]| + 2..] == rest;
      assert Chomp(lines[0] + "\r") == lines[0];
      LinesBack(lines[1..]);
      assert [lines[0]] + lines[1..] == lines;
    }
  }

  /** Unfolding a folded header gives one header line. */
  lemma {:induction false} UnfoldFolded(before: seq<string>, headers: seq<string>, lines: seq<string>)
    requires UnfoldAll(before) == Some(headers) && Folded(lines) && AllOneLine(lines)
    requires (lines[0] == "" || lines[0][0] != ' ')
    ensures UnfoldAll(before + lines) == Some(headers + [Joined(lines)])
    decreases |lines|
  {
    var last, init := lines[|lines| - 1], lines[..|lines| - 1];
    assert before + lines == (before + init) + [last];
    assert (before + lines)[..|before + lines| - 1] == before + init;
    if |lines| == 1 {
      assert before + init == before;
    } else {
      UnfoldFolded(before, headers, init);
      assert (headers + [Joined(init)])[..|headers|] == headers;
    }
  }

  lemma {:induction false} OneLineParts(a: string, b: string)
    requires OneLine(a + b)
    ensures OneLine(a) && OneLine(b)
  {
    forall i | 0 <= i < |a|
      ensures a[i] != '\r' && a[i] != '\n'
    {
      assert (a + b)[i] == a[i];
    }
    forall i | 0 <= i < |b|
      ensures b[i] != '\r' && b[i] != '\n'
    {
      assert (a + b)[|a| + i] == b[i];
    }
  }

  lemma {:induction false} SpaceIsPlain(line: string)
    requires line != "" && line[0] == ' ' && OneLine(line[1..])
    ensures OneLine(line)
  {
    forall i | 0 <= i < |line|
      ensures line[i] != '\r' && line[i] != '\n'
    {
      assert i > 0 ==> line[i] == line[1..][i - 1];
    }
  }

  lemma {:induction false} JoinedIsOneLine(lines: seq<string>)
    requires Folded(lines) && OneLine(Joined(lines))
    ensures AllOneLine(lines)
    decreases |lines|
  {
    if |lines| > 1 {
      var last, init := lines[|lines| - 1], lines[..|lines| - 1];
      OneLineParts(Joined(init), last[1..]);
      JoinedIsOneLine(init);
      SpaceIsPlain(last);
    }
  }

  lemma {:induction false} TwoLines(a: string, b: string)
    ensures Physical([a, b]) == Utf8(a) + CRLF + Utf8(b) + CRLF
  {
    PhysicalAppend([], a);
    PhysicalAppend([a], b);
    assert [] + [a] == [a] && [a] + [b] == [a, b];
  }

  lemma {:induction false} AsciiBytes(s: string)
    requires forall i {:trigger s[i]} :: 0 <= i < |s| ==> s[i] < '\U{80}'
    ensures |Utf8(s)| == |s|
  {
    if s != [] {
      AsciiBytes(s[1..]);
    }
  }

  lemma {:induction false} HeaderFits()
    ensures NAME + ": " == HEADER && |Utf8(HEADER)| == 12
  {
    AsciiBytes(HEADER);
  }

  predicate IsHeaderLine(s: string) {
    OneLine(s) && (s == "" || s[0] != ' ')
  }

  lemma {:induction false} UnfoldTwo(a: string, b: string)
    requires IsHeaderLine(a) && IsHeaderLine(b)
    ensures UnfoldAll([a, b]) == Some([a, b])
  {
    UnfoldAppend([], a);
    UnfoldAppend([a], b);
    assert [] + [a] == [a] && [a] + [b] == [a, b];
  }

  lemma {:induction false} UnfoldAppend(lines: seq<string>, line: string)
    ensures UnfoldAll(lines + [line]) == if UnfoldAll(lines).None? then None else Unfold(UnfoldAll(lines).value, line)
  {
    assert (lines + [line])[..|lines|] == lines;
  }

  lemma {:induction false} OneLineConcat(a: string, b: string)
    requires OneLine(a) && OneLine(b)
    ensures OneLine(a + b)
  {
    forall i | 0 <= i < |a + b|
      ensures (a + b)[i] != '\r' && (a + b)[i] != '\n'
    {
      if i >= |a| {
        assert (a + b)[i] == b[i - |a|];
      }
    }
  }

  lemma {:induction false} PreambleIsPlain()
    ensures IsHeaderLine(FIRST) && IsHeaderLine(SECOND) && OneLine(HEADER)
  {
  }

  /** What the reader makes of two plain lines, a folded header and the blank line. */
  lemma {:induction false} WrittenHeaders(a: string, b: string, lines: seq<string>, header: string)
    requires IsHeaderLine(a) && IsHeaderLine(b) && OneLine(header)
    requires Folded(lines) && Joined(lines) == header && (lines[0] == "" || lines[0][0] != ' ')
    ensures UnfoldAll([a, b] + lines + [""]) == Some([a, b] + [header] + [""])
    ensures AllOneLine([a, b] + lines + [""])
  {
    JoinedIsOneLine(lines);
    UnfoldTwo(a, b);
    UnfoldFolded([a, b], [a, b], lines);
    assert ([a, b] + lines + [""])[..|[a, b] + lines|] == [a, b] + lines;
  }

  /** For every valid main class the reader recovers exactly what was written. */
  method PackAndRead(u: CharClasses, value: string) returns (r: Result<string>)
    requires NoLineBreaks(u) && ValidMainClass(u, value)
    ensures r == Ok(value)
  {
    var written, lines := WriteManifest(u, Some(value));
    ghost var all := [FIRST, SECOND] + lines + [""];
    ValidIsOneLine(u, value);
    PreambleIsPlain();
    OneLineConcat(HEADER, value);
    assert lines[0][0] == HEADER[0];
    WrittenHeaders(FIRST, SECOND, lines, HEADER + value);
    PhysicalIsText(all);
    DecodeBack(TextOf(all));
    LinesBack(all);
    r := JarMainClass(written.value);
    ghost var headers := [FIRST, SECOND] + [HEADER + value] + [""];
    assert headers[2] == HEADER + value && HEADER <= headers[2];
    OnlyOneHeader(headers, value);
  }

  lemma {:induction false} OnlyOneHeader(headers: seq<string>, value: string)
    requires headers == [FIRST, SECOND] + [HEADER + value] + [""]
    ensures forall i :: 0 <= i < |headers| && HEADER <= headers[i] ==> i == 2
    ensures forall v: string :: headers[2] == HEADER + v ==> v == value
  {
    assert headers[0][0] == 'M' && headers[0][2] == 'n' && HEADER[2] == 'i';
    assert headers[1][0] == 'C';
    forall v: string | headers[2] == HEADER + v
      ensures v == value
    {
      assert (HEADER + v)[|HEADER|..] == v && (HEADER + value)[|HEADER|..] == value;
    }
  }
}
