/** The action journal of journal.rs: length-prefixed records after a magic number, appended
    by record, compacted by save, and decoded up to the first frame that is not whole. */
module Journal {
  import opened Wrappers

  datatype JournalEntry = JournalEntry(key: string, inputs: map<string, string>, discovered: seq<string>,
                                       outputs: map<string, string>, durationMs: nat, reason: string)

  datatype Record = Rec(id: string, entry: JournalEntry)

  type Actions = map<string, JournalEntry>

  /** "FRSTJR01". */
  const MAGIC: Bytes := [0x46, 0x52, 0x53, 0x54, 0x4a, 0x52, 0x30, 0x31]

  const U32_LIMIT: nat := 0x1_0000_0000

  /** The record serializer. */
  datatype Codec = Codec(enc: Record -> Bytes, dec: Bytes -> Option<Record>)

  /** Decoding undoes encoding, and the payload length fits the frame header. */
  predicate Carried(c: Codec, r: Record) {
    c.dec(c.enc(r)) == Some(r) && |c.enc(r)| < U32_LIMIT
  }

  /** What is asked of the codec: only the records in play. */
  ghost predicate Carries(c: Codec, rs: seq<Record>) {
    forall r :: r in rs ==> Carried(c, r)
  }

  /** `len as u32`, little endian. */
  function Le32(n: nat): (b: Bytes)
    ensures |b| == 4
  {
    [n % 256, n / 256 % 256, n / 0x1_0000 % 256, n / 0x100_0000 % 256]
  }

  function FromLe32(b: Bytes): nat
    requires |b| == 4
  {
    var b0: nat, b1: nat, b2: nat, b3: nat := b[0], b[1], b[2], b[3];
    b0 + 256 * b1 + 0x1_0000 * b2 + 0x100_0000 * b3
  }

  lemma {:induction false} Le32RoundTrip(n: nat)
    requires n < U32_LIMIT
    ensures FromLe32(Le32(n)) == n
  {
    var q1, q2, q3 := n / 256, n / 0x1_0000, n / 0x100_0000;
    assert n == 256 * q1 + n % 256;
    assert q1 == 256 * q2 + q1 % 256;
    assert q2 == 256 * q3 + q2 % 256;
  }

  function Frame(c: Codec, r: Record): Bytes {
    Le32(|c.enc(r)|) + c.enc(r)
  }

  function Frames(c: Codec, rs: seq<Record>): Bytes {
    if rs == [] then [] else Frame(c, rs[0]) + Frames(c, rs[1..])
  }

  /** The file record and save write. */
  function FileOf(c: Codec, rs: seq<Record>): Bytes {
    MAGIC + Frames(c, rs)
  }

  /** Later records of an action replace earlier ones. */
  function LastWins(rs: seq<Record>): Actions {
    if rs == [] then map[] else LastWins(rs[..|rs| - 1])[rs[|rs| - 1].id := rs[|rs| - 1].entry]
  }

  /** The whole, valid frames at the head of some bytes. */
  function Parse(c: Codec, bytes: Bytes): seq<Record>
    decreases |bytes|
  {
    if |bytes| < 4 then []
    else
      var end := 4 + FromLe32(bytes[..4]);
      if end > |bytes| then []
      else match c.dec(bytes[4..end])
           case None => []
           case Some(r) => [r] + Parse(c, bytes[end..])
  }

  function Decode(c: Codec, bytes: Bytes): Actions {
    if MAGIC <= bytes then LastWins(Parse(c, bytes[|MAGIC|..])) else map[]
  }

  lemma {:induction false} LastWinsAppend(rs: seq<Record>, r: Record)
    ensures LastWins(rs + [r]) == LastWins(rs)[r.id := r.entry]
  {
    assert (rs + [r])[..|rs|] == rs;
  }

  /** What the loop finds at the cursor. */
  function FrameAt(c: Codec, bytes: Bytes, cursor: nat): (r: Option<(Record, nat)>)
    requires cursor <= |bytes|
    ensures r.Some? ==> cursor < r.value.1 <= |bytes|
  {
    if cursor + 4 > |bytes| then None
    else
      var end := cursor + 4 + FromLe32(bytes[cursor..cursor + 4]);
      if end > |bytes| then None
      else match c.dec(bytes[cursor + 4..end])
           case None => None
           case Some(record) => Some((record, end))
  }

  lemma {:induction false} ParseAt(c: Codec, bytes: Bytes, cursor: nat)
    requires cursor <= |bytes|
    ensures Parse(c, bytes[cursor..]) == match FrameAt(c, bytes, cursor)
                                         case None => []
                                         case Some(found) => [found.0] + Parse(c, bytes[found.1..])
  {
    var rest := bytes[cursor..];
    if |rest| >= 4 {
      assert rest[..4] == bytes[cursor..cursor + 4];
      var end := 4 + FromLe32(rest[..4]);
      if end <= |rest| {
        assert rest[4..end] == bytes[cursor + 4..cursor + end] && rest[end..] == bytes[cursor + end..];
      }
    }
  }

  lemma {:induction false} Shift(all: seq<Record>, done: seq<Record>, r: Record, rest: seq<Record>)
    requires all == done + ([r] + rest)
    ensures all == (done + [r]) + rest
  {
  }

  /** The loop of decode_bytes. */
  method DecodeFrames(c: Codec, bytes: Bytes, start: nat) returns (actions: Actions)
    requires start <= |bytes|
    ensures actions == LastWins(Parse(c, bytes[start..]))
  {
    actions := map[];
    var cursor := start;
    ghost var all, done := Parse(c, bytes[start..]), [];
    while true
      invariant cursor <= |bytes| && actions == LastWins(done)
      invariant all == done + Parse(c, bytes[cursor..])
      decreases |bytes| - cursor
    {
      ParseAt(c, bytes, cursor);
      var found := FrameAt(c, bytes, cursor);
      if found.None? {
        assert done + [] == done;
        return;
      }
      var record, end := found.value.0, found.value.1;
      LastWinsAppend(done, record);
      Shift(all, done, record, Parse(c, bytes[end..]));
      done := done + [record];
      actions, cursor := actions[record.id := record.entry], end;
    }
  }

  /** decode_bytes. */
  method DecodeBytes(c: Codec, bytes: Bytes) returns (actions: Actions)
    ensures actions == Decode(c, bytes)
  {
    if MAGIC <= bytes {
      actions := DecodeFrames(c, bytes, |MAGIC|);
    } else {
      actions := map[];
    }
  }

  // ---------------------------------------------------------------- truncation

  /** How many frames lie wholly inside the first k bytes. */
  function WholeFrames(c: Codec, rs: seq<Record>, k: nat): (n: nat)
    ensures n <= |rs|
  {
    if rs == [] || |Frame(c, rs[0])| > k then 0 else 1 + WholeFrames(c, rs[1..], k - |Frame(c, rs[0])|)
  }

  lemma {:induction false} ParseFrame(c: Codec, r: Record, tail: Bytes)
    requires Carried(c, r)
    ensures Parse(c, Frame(c, r) + tail) == [r] + Parse(c, tail)
  {
    var payload, bytes := c.enc(r), Frame(c, r) + tail;
    Le32RoundTrip(|payload|);
    assert bytes[..4] == Le32(|payload|);
    assert bytes[4..4 + |payload|] == payload && bytes[4 + |payload|..] == tail;
  }

  lemma {:induction false} ParseTorn(c: Codec, r: Record, tail: Bytes, k: nat)
    requires Carried(c, r) && k < |Frame(c, r)|
    ensures k <= |Frame(c, r) + tail| && Parse(c, (Frame(c, r) + tail)[..k]) == []
  {
    if k >= 4 {
      var bytes := (Frame(c, r) + tail)[..k];
      Le32RoundTrip(|c.enc(r)|);
      assert bytes[..4] == Le32(|c.enc(r)|);
    }
  }

  lemma {:induction false} TakeOneMore(rs: seq<Record>, n: nat)
    requires rs != [] && n < |rs|
    ensures rs[..n + 1] == [rs[0]] + rs[1..][..n]
  {
  }

  lemma {:induction false} CutAfter(a: Bytes, b: Bytes, k: nat)
    requires |a| <= k <= |a + b|
    ensures (a + b)[..k] == a + b[..k - |a|]
  {
  }

  /** Cutting the frames anywhere leaves exactly the whole ones. */
  lemma {:induction false} ParsePrefix(c: Codec, rs: seq<Record>, k: nat)
    requires Carries(c, rs) && k <= |Frames(c, rs)|
    ensures Parse(c, Frames(c, rs)[..k]) == rs[..WholeFrames(c, rs, k)]
    decreases |rs|
  {
    if rs != [] {
      var first, rest := Frame(c, rs[0]), Frames(c, rs[1..]);
      if k < |first| {
        ParseTorn(c, rs[0], rest, k);
      } else {
        CutAfter(first, rest, k);
        ParseFrame(c, rs[0], rest[..k - |first|]);
        ParsePrefix(c, rs[1..], k - |first|);
        TakeOneMore(rs, WholeFrames(c, rs[1..], k - |first|));
      }
    }
  }

  /** Whatever byte a crash cut the file at, loading yields the last-wins fold of exactly the
      frames wholly inside. */
  lemma {:induction false} PrefixDecodes(c: Codec, rs: seq<Record>, k: nat)
    requires Carries(c, rs) && k <= |FileOf(c, rs)|
    ensures Decode(c, FileOf(c, rs)[..k]) == LastWins(rs[..WholeFrames(c, rs, if k >= |MAGIC| then k - |MAGIC| else 0)])
  {
    if k >= |MAGIC| {
      var body := Frames(c, rs)[..k - |MAGIC|];
      assert FileOf(c, rs)[..k] == MAGIC + body;
      ParsePrefix(c, rs, k - |MAGIC|);
    } else {
      assert rs != [] ==> |Frame(c, rs[0])| > 0;
    }
  }

  lemma {:induction false} AllWhole(c: Codec, rs: seq<Record>)
    ensures WholeFrames(c, rs, |Frames(c, rs)|) == |rs|
  {
    if rs != [] {
      AllWhole(c, rs[1..]);
    }
  }

  /** An untouched file decodes to the fold of all its records. */
  lemma {:induction false} WholeDecodes(c: Codec, rs: seq<Record>)
    requires Carries(c, rs)
    ensures Decode(c, FileOf(c, rs)) == LastWins(rs)
  {
    var file := FileOf(c, rs);
    PrefixDecodes(c, rs, |file|);
    AllWhole(c, rs);
    assert file[..|file|] == file && rs[..|rs|] == rs;
  }

  lemma {:induction false} FramesAppend(c: Codec, rs: seq<Record>, r: Record)
    ensures Frames(c, rs + [r]) == Frames(c, rs) + Frame(c, r)
  {
    if rs == [] {
      assert rs + [r] == [r] && [r][1..] == [];
      assert Frames(c, [r]) == Frame(c, r) + Frames(c, []);
    } else {
      assert (rs + [r])[1..] == rs[1..] + [r];
      FramesAppend(c, rs[1..], r);
    }
  }

  lemma {:induction false} FileAppend(c: Codec, rs: seq<Record>, r: Record)
    ensures FileOf(c, rs + [r]) == FileOf(c, rs) + Frame(c, r)
  {
    FramesAppend(c, rs, r);
  }

  /** Every log has a codec that carries it: number the records. */
  lemma {:induction false} SomeCodecCarries(rs: seq<Record>) returns (c: Codec)
    requires |rs| <= U32_LIMIT
    ensures Carries(c, rs)
  {
    c := Codec(r => Le32(IndexOf(rs, r)), b => if |b| == 4 && FromLe32(b) < |rs| then Some(rs[FromLe32(b)]) else None);
    forall r | r in rs
      ensures Carried(c, r)
    {
      Le32RoundTrip(IndexOf(rs, r));
      assert c.enc(r) == Le32(IndexOf(rs, r));
    }
  }

  function IndexOf(rs: seq<Record>, r: Record): (i: nat)
    ensures r in rs ==> i < |rs| && rs[i] == r
  {
    if rs == [] || rs[0] == r then 0 else 1 + IndexOf(rs[1..], r)
  }

  // ------------------------------------------------------------ appending to any file

  /** How many bytes the whole, valid frames at the head take up. */
  function Consumed(c: Codec, bytes: Bytes): (n: nat)
    ensures n <= |bytes|
    decreases |bytes|
  {
    match FrameAt(c, bytes, 0)
    case None => 0
    case Some(found) => found.1 + Consumed(c, bytes[found.1..])
  }

  /** What follows them: after a crash, part of a frame. */
  function Tail(c: Codec, bytes: Bytes): Bytes {
    bytes[Consumed(c, bytes)..]
  }

  /** A journal with the magic number and nothing after its last frame. */
  predicate Whole(c: Codec, file: Bytes) {
    MAGIC <= file && Tail(c, file[|MAGIC|..]) == []
  }

  lemma {:induction false} FrameAtLonger(c: Codec, bytes: Bytes, more: Bytes)
    requires FrameAt(c, bytes, 0).Some?
    ensures FrameAt(c, bytes + more, 0) == FrameAt(c, bytes, 0)
  {
    var longer := bytes + more;
    assert longer[0..4] == bytes[0..4];
    var end := 4 + FromLe32(bytes[0..4]);
    assert longer[4..end] == bytes[4..end];
  }

  lemma {:induction false} ParseFirst(c: Codec, bytes: Bytes)
    ensures Parse(c, bytes) == match FrameAt(c, bytes, 0)
                               case None => []
                               case Some(found) => [found.0] + Parse(c, bytes[found.1..])
  {
    ParseAt(c, bytes, 0);
    assert bytes[0..] == bytes;
  }

  /** Whatever is appended is read from where the last whole frame ended. */
  lemma {:induction false} ParseSplits(c: Codec, bytes: Bytes, more: Bytes)
    ensures Parse(c, bytes + more) == Parse(c, bytes) + Parse(c, Tail(c, bytes) + more)
    decreases |bytes|
  {
    ParseFirst(c, bytes);
    match FrameAt(c, bytes, 0)
    case None =>
      assert Tail(c, bytes) == bytes;
      NoRecords(Parse(c, bytes + more));
    case Some(found) =>
      var rest := bytes[found.1..];
      FrameAtLonger(c, bytes, more);
      ParseFirst(c, bytes + more);
      assert (bytes + more)[found.1..] == rest + more;
      ParseSplits(c, rest, more);
      assert Tail(c, bytes) == Tail(c, rest);
      Regroup([found.0], Parse(c, rest), Parse(c, Tail(c, bytes) + more));
  }

  lemma {:induction false} NoRecords(rs: seq<Record>)
    ensures [] + rs == rs
  {
  }

  lemma {:induction false} Regroup(a: seq<Record>, b: seq<Record>, d: seq<Record>)
    ensures a + (b + d) == (a + b) + d
  {
  }

  lemma {:induction false} TailIsStuck(c: Codec, bytes: Bytes)
    ensures FrameAt(c, Tail(c, bytes), 0).None?
    decreases |bytes|
  {
    match FrameAt(c, bytes, 0)
    case None =>
      assert Tail(c, bytes) == bytes;
    case Some(found) =>
      var rest := bytes[found.1..];
      TailIsStuck(c, rest);
      assert Tail(c, bytes) == Tail(c, rest);
  }

  lemma {:induction false} ConsumedLonger(c: Codec, bytes: Bytes, more: Bytes)
    requires Tail(c, bytes) == []
    ensures Consumed(c, bytes + more) == |bytes| + Consumed(c, more)
    decreases |bytes|
  {
    match FrameAt(c, bytes, 0)
    case None =>
      assert bytes + more == more;
    case Some(found) =>
      var rest := bytes[found.1..];
      FrameAtLonger(c, bytes, more);
      assert Tail(c, bytes) == Tail(c, rest);
      assert (bytes + more)[found.1..] == rest + more;
      ConsumedLonger(c, rest, more);
  }

  lemma {:induction false} FrameIsWhole(c: Codec, r: Record)
    requires Carried(c, r)
    ensures Parse(c, Frame(c, r)) == [r] && Consumed(c, Frame(c, r)) == |Frame(c, r)|
  {
    var frame := Frame(c, r);
    Le32RoundTrip(|c.enc(r)|);
    assert frame[0..4] == Le32(|c.enc(r)|) && frame[4..|frame|] == c.enc(r);
    assert FrameAt(c, frame, 0) == Some((r, |frame|));
    ParseFirst(c, frame);
    assert frame[|frame|..] == [];
    assert Parse(c, []) == [];
  }

  lemma {:induction false} AppendToWhole(c: Codec, body: Bytes, r: Record)
    requires Tail(c, body) == [] && Carried(c, r)
    ensures Tail(c, body + Frame(c, r)) == [] && Parse(c, body + Frame(c, r)) == Parse(c, body) + [r]
  {
    var frame := Frame(c, r);
    ParseSplits(c, body, frame);
    assert [] + frame == frame;
    FrameIsWhole(c, r);
    ConsumedLonger(c, body, frame);
  }

  lemma {:induction false} AppendToTail(c: Codec, body: Bytes, more: Bytes)
    ensures match FrameAt(c, Tail(c, body) + more, 0)
            case None => Parse(c, body + more) == Parse(c, body)
            case Some(found) =>
              && found.1 > |Tail(c, body)|
              && Parse(c, body + more) == Parse(c, body) + [found.0] + Parse(c, (Tail(c, body) + more)[found.1..])
  {
    var tail := Tail(c, body);
    ParseSplits(c, body, more);
    ParseFirst(c, tail + more);
    match FrameAt(c, tail + more, 0)
    case None =>
      assert Parse(c, body) + [] == Parse(c, body);
    case Some(found) =>
      Regroup(Parse(c, body), [found.0], Parse(c, (tail + more)[found.1..]));
      TailIsStuck(c, body);
      if found.1 <= |tail| {
        FrameAtShorter(c, tail, more);
      }
  }

  lemma {:induction false} FrameAtShorter(c: Codec, bytes: Bytes, more: Bytes)
    requires FrameAt(c, bytes + more, 0).Some? && FrameAt(c, bytes + more, 0).value.1 <= |bytes|
    ensures FrameAt(c, bytes, 0) == FrameAt(c, bytes + more, 0)
  {
    var end := FrameAt(c, bytes + more, 0).value.1;
    assert (bytes + more)[0..4] == bytes[0..4] && (bytes + more)[4..end] == bytes[4..end];
  }

  /** The effect of record on a file with the magic number, whatever follows it.  With nothing
      after the last frame the record is read back.  A tail that still does not make a frame
      hides it, and everything after it.  Otherwise the next load reads a record made of bytes
      from before and after the crash. */
  lemma {:induction false} AppendExactly(c: Codec, body: Bytes, r: Record)
    requires Carried(c, r)
    ensures Tail(c, body) == [] ==>
              Decode(c, MAGIC + body + Frame(c, r)) == Decode(c, MAGIC + body)[r.id := r.entry]
    ensures Tail(c, body) != [] ==>
              match FrameAt(c, Tail(c, body) + Frame(c, r), 0)
              case None => Decode(c, MAGIC + body + Frame(c, r)) == Decode(c, MAGIC + body)
              case Some(found) =>
                && found.1 > |Tail(c, body)|
                && Decode(c, MAGIC + body + Frame(c, r))
                   == LastWins(Parse(c, body) + [found.0] + Parse(c, (Tail(c, body) + Frame(c, r))[found.1..]))
  {
    Concat(MAGIC, body, Frame(c, r));
    DecodeBody(c, body);
    DecodeBody(c, body + Frame(c, r));
    if Tail(c, body) == [] {
      AppendToWhole(c, body, r);
      LastWinsAppend(Parse(c, body), r);
    } else {
      AppendToTail(c, body, Frame(c, r));
    }
  }

  lemma {:induction false} DecodeBody(c: Codec, body: Bytes)
    ensures Decode(c, MAGIC + body) == LastWins(Parse(c, body)) && Whole(c, MAGIC + body) == (Tail(c, body) == [])
  {
    assert (MAGIC + body)[|MAGIC|..] == body;
  }

  lemma {:induction false} ParseFramesThen(c: Codec, rs: seq<Record>, tail: Bytes)
    requires Carries(c, rs)
    ensures Parse(c, Frames(c, rs) + tail) == rs + Parse(c, tail)
  {
    if rs == [] {
      assert Frames(c, rs) + tail == tail && rs + Parse(c, tail) == Parse(c, tail);
    } else {
      var rest := Frames(c, rs[1..]) + tail;
      Concat(Frame(c, rs[0]), Frames(c, rs[1..]), tail);
      ParseFrame(c, rs[0], rest);
      ParseFramesThen(c, rs[1..], tail);
      HeadTail(rs, Parse(c, tail));
    }
  }

  lemma {:induction false} Concat(a: Bytes, b: Bytes, d: Bytes)
    ensures (a + b) + d == a + (b + d)
  {
  }

  lemma {:induction false} HeadTail(rs: seq<Record>, rest: seq<Record>)
    requires rs != []
    ensures [rs[0]] + (rs[1..] + rest) == rs + rest
  {
  }

  lemma {:induction false} LogIsWhole(c: Codec, rs: seq<Record>)
    requires Carries(c, rs)
    ensures Whole(c, FileOf(c, rs))
  {
    FramesAreConsumed(c, rs);
    assert FileOf(c, rs)[|MAGIC|..] == Frames(c, rs);
  }

  lemma {:induction false} FramesAreConsumed(c: Codec, rs: seq<Record>)
    requires Carries(c, rs)
    ensures Consumed(c, Frames(c, rs)) == |Frames(c, rs)|
  {
    if rs != [] {
      var first, rest := Frame(c, rs[0]), Frames(c, rs[1..]);
      FrameIsWhole(c, rs[0]);
      ConsumedLonger(c, first, rest);
      FramesAreConsumed(c, rs[1..]);
    }
  }

  // ------------------------------------------------------------ what it does not handle

  /** A crash inside the payload of q, and then later records: none is read back while they do
      not fill the frame q announced. */
  lemma {:induction false} TornTailLosesRecords(c: Codec, rs: seq<Record>, q: Record, k: nat, later: seq<Record>)
    requires Carries(c, rs) && Carried(c, q)
    requires 4 <= k && k + |Frames(c, later)| < |Frame(c, q)|
    ensures FileOf(c, rs) + Frame(c, q)[..k] <= FileOf(c, rs + [q])
    ensures Decode(c, FileOf(c, rs) + Frame(c, q)[..k] + Frames(c, later)) == LastWins(rs)
  {
    var torn := Frame(c, q)[..k];
    FileAppend(c, rs, q);
    Le32RoundTrip(|c.enc(q)|);
    assert (torn + Frames(c, later))[..4] == Le32(|c.enc(q)|);
    DecodeThenJunk(c, rs, torn + Frames(c, later));
    Concat(FileOf(c, rs), torn, Frames(c, later));
  }

  /** A crash inside a length field: the next record's length completes it, and a length of few
      bytes then reads as one too large. */
  lemma {:induction false} TornLengthLosesRecord(c: Codec, rs: seq<Record>, q: Record, k: nat, r: Record)
    requires Carries(c, rs) && 0 < k < 4 && 0 < |c.enc(r)| < FromLe32([0, 0, 0, 0][4 - k := 1])
    ensures FileOf(c, rs) + Frame(c, q)[..k] <= FileOf(c, rs + [q])
    ensures Decode(c, FileOf(c, rs) + Frame(c, q)[..k] + Frame(c, r)) == LastWins(rs)
  {
    var torn, n := Frame(c, q)[..k], |c.enc(r)|;
    FileAppend(c, rs, q);
    var junk := torn + Frame(c, r);
    assert junk[..4] == torn + Le32(n)[..4 - k];
    CompletedLength(torn, n);
    DecodeThenJunk(c, rs, junk);
    Concat(FileOf(c, rs), torn, Frame(c, r));
  }

  /** A frame that is complete but does not decode hides everything ever appended after it. */
  lemma {:induction false} BadFrameLosesRecords(c: Codec, file: Bytes, later: Bytes)
    requires MAGIC <= file
    requires var tail := Tail(c, file[|MAGIC|..]);
             |tail| >= 4 && 4 + FromLe32(tail[..4]) <= |tail|
    ensures Decode(c, file + later) == Decode(c, file)
  {
    var body := file[|MAGIC|..];
    var tail := Tail(c, body);
    assert (file + later)[|MAGIC|..] == body + later;
    ParseSplits(c, body, later);
    TailIsStuck(c, body);
    BadFrameStays(c, tail, later);
    assert Parse(c, body) + [] == Parse(c, body);
  }

  lemma {:induction false} BadFrameStays(c: Codec, tail: Bytes, later: Bytes)
    requires |tail| >= 4 && 4 + FromLe32(tail[..4]) <= |tail| && FrameAt(c, tail, 0).None?
    ensures Parse(c, tail + later) == []
  {
    var end := 4 + FromLe32(tail[..4]);
    assert (tail + later)[..4] == tail[..4] == tail[0..4];
    assert (tail + later)[4..end] == tail[4..end];
  }

  lemma {:induction false} DecodeThen(c: Codec, rs: seq<Record>, more: Bytes)
    requires Carries(c, rs)
    ensures Decode(c, FileOf(c, rs) + more) == LastWins(rs + Parse(c, more))
  {
    Concat(MAGIC, Frames(c, rs), more);
    ParseFramesThen(c, rs, more);
    DecodeBody(c, Frames(c, rs) + more);
  }

  lemma {:induction false} DecodeThenJunk(c: Codec, rs: seq<Record>, junk: Bytes)
    requires Carries(c, rs) && Parse(c, junk) == []
    ensures Decode(c, FileOf(c, rs) + junk) == LastWins(rs)
  {
    DecodeThen(c, rs, junk);
    assert rs + [] == rs;
  }

  lemma {:induction false} CompletedLength(torn: Bytes, n: nat)
    requires 0 < |torn| < 4 && 0 < n < FromLe32([0, 0, 0, 0][4 - |torn| := 1])
    ensures FromLe32(torn + Le32(n)[..4 - |torn|]) > |torn| + n
  {
    Le32RoundTrip(n);
    var b := torn + Le32(n)[..4 - |torn|];
    if |torn| == 1 {
      assert b == [torn[0], n % 256, n / 256 % 256, n / 0x1_0000 % 256];
    } else if |torn| == 2 {
      assert b == [torn[0], torn[1], n % 256, n / 256 % 256];
    } else {
      assert b == [torn[0], torn[1], torn[2], n % 256];
    }
  }

  lemma {:induction false} OneFrame(c: Codec, r: Record)
    ensures Frames(c, [r]) == Frame(c, r)
  {
    FramesAppend(c, [], r);
    assert [] + [r] == [r];
  }

  /** The premises are met: for any two records some codec makes one frame much longer, and the
      second record is lost behind the first one's torn frame. */
  lemma {:induction false} TornTailExists(q: Record, r: Record) returns (c: Codec)
    requires q != r
    ensures Carries(c, [q, r])
    ensures Decode(c, FileOf(c, [q])[..|MAGIC| + 4] + Frame(c, r)) == map[]
  {
    c := Codec(x => if x == q then [0, 0, 0, 0, 0, 0] else [1], b => if b == [1] then Some(r) else Some(q));
    assert c.enc(q) == [0, 0, 0, 0, 0, 0] && c.enc(r) == [1];
    assert Carried(c, q) && Carried(c, r);
    OneFrame(c, q);
    OneFrame(c, r);
    TornTailLosesRecords(c, [], q, 4, [r]);
    assert FileOf(c, []) == MAGIC;
    assert FileOf(c, [q])[..|MAGIC| + 4] == MAGIC + Frame(c, q)[..4];
  }

  /** And a record may be read that nobody wrote: a crash between the length and the payload of q,
      then a frame of r that fills the announced length, and may decode. */
  lemma {:induction false} TornTailIsMisread(c: Codec, rs: seq<Record>, q: Record, r: Record, z: Record)
    requires Carries(c, rs) && Carried(c, q) && |c.enc(q)| == |Frame(c, r)| && c.dec(Frame(c, r)) == Some(z)
    ensures FileOf(c, rs) + Le32(|c.enc(q)|) <= FileOf(c, rs + [q])
    ensures Decode(c, FileOf(c, rs) + Le32(|c.enc(q)|) + Frame(c, r)) == LastWins(rs)[z.id := z.entry]
  {
    FileAppend(c, rs, q);
    Concat(FileOf(c, rs), Le32(|c.enc(q)|), c.enc(q));
    Concat(FileOf(c, rs), Le32(|c.enc(q)|), Frame(c, r));
    MisreadPayload(c, Frame(c, r), z);
    DecodeThen(c, rs, Le32(|c.enc(q)|) + Frame(c, r));
    LastWinsAppend(rs, z);
  }

  lemma {:induction false} MisreadPayload(c: Codec, payload: Bytes, z: Record)
    requires c.dec(payload) == Some(z) && |payload| < U32_LIMIT
    ensures Parse(c, Le32(|payload|) + payload) == [z]
  {
    var bytes := Le32(|payload|) + payload;
    Le32RoundTrip(|payload|);
    assert bytes[..4] == Le32(|payload|) && bytes[4..4 + |payload|] == payload;
    assert bytes[4 + |payload|..] == [];
    assert [z] + [] == [z];
  }

  lemma {:induction false} SomeCodecMisreads(q: Record, r: Record, z: Record) returns (c: Codec)
    requires q != r && z != q && z != r
    ensures Carries(c, [q, r]) && |c.enc(q)| == |Frame(c, r)| && c.dec(Frame(c, r)) == Some(z)
  {
    c := Codec(x => if x == q then [0, 0, 0, 0, 0] else [1],
               b => if b == [1] then Some(r) else if |b| == 5 && b[0] == 1 then Some(z) else Some(q));
    assert c.enc(q) == [0, 0, 0, 0, 0] && c.enc(r) == [1];
    assert Carried(c, q) && Carried(c, r);
    var frame := Frame(c, r);
    assert |frame| == 5 && frame[0] == 1;
    assert frame != [1];
  }

  /** A file that is not blank and lacks the magic number stays unreadable, whatever is appended,
      unless the appended bytes happen to complete the magic number. */
  lemma {:induction false} NoMagicLosesRecords(c: Codec, file: Bytes, later: Bytes)
    requires file != [] && !(MAGIC <= file)
    ensures Decode(c, file + later) == if file <= MAGIC && MAGIC[|file|..] <= later
                                       then LastWins(Parse(c, later[|MAGIC| - |file|..]))
                                       else map[]
  {
    PrefixOfBoth(MAGIC, file, later);
  }

  lemma {:induction false} PrefixOfBoth(word: Bytes, a: Bytes, b: Bytes)
    requires !(word <= a)
    ensures word <= a + b <==> a <= word && word[|a|..] <= b
    ensures word <= a + b ==> (a + b)[|word|..] == b[|word| - |a|..]
  {
    if a <= word && word[|a|..] <= b {
      assert word == a + word[|a|..];
    }
    if word <= a + b {
      assert forall i :: 0 <= i < |word| ==> word[i] == (a + b)[i];
    }
  }

  /** A crash inside the magic number: it is not written again, and a record whose length does not
      happen to start with its next byte is lost, together with all that follow. */
  lemma {:induction false} TornMagicLosesRecords(c: Codec, k: nat, r: Record, later: Bytes)
    requires 0 < k < |MAGIC| && |c.enc(r)| % 256 != MAGIC[k]
    ensures Decode(c, MAGIC[..k] + (Frame(c, r) + later)) == map[]
  {
    NoMagicLosesRecords(c, MAGIC[..k], Frame(c, r) + later);
    assert (Frame(c, r) + later)[0] == |c.enc(r)| % 256 && MAGIC[k..][0] == MAGIC[k];
  }

  /** Appending r to this file hides it: the magic number is missing and is not completed, or the
      tail still makes no frame. */
  predicate Hides(c: Codec, file: Bytes, r: Record) {
    if MAGIC <= file then
      !Whole(c, file) && FrameAt(c, Tail(c, file[|MAGIC|..]) + Frame(c, r), 0).None?
    else
      file != [] && !(file <= MAGIC && MAGIC[|file|..] <= Frame(c, r))
  }

  /** contents is the file before it is opened. */
  lemma {:induction false} RecordMeaning(c: Codec, contents: Bytes, file: Bytes, r: Record)
    requires file == contents || (contents == [] && file == MAGIC)
    requires Carried(c, r)
    ensures Whole(c, file) ==>
              Whole(c, file + Frame(c, r)) && Decode(c, file + Frame(c, r)) == Decode(c, contents)[r.id := r.entry]
    ensures Hides(c, file, r) ==> Decode(c, file + Frame(c, r)) == Decode(c, contents)
  {
    BlankDecodes(c);
    if MAGIC <= file {
      var body := file[|MAGIC|..];
      assert file == MAGIC + body;
      DecodeBody(c, body);
      DecodeBody(c, body + Frame(c, r));
      Concat(MAGIC, body, Frame(c, r));
      AppendExactly(c, body, r);
      if Tail(c, body) == [] {
        AppendToWhole(c, body, r);
      }
    } else if file != [] {
      NoMagicLosesRecords(c, file, Frame(c, r));
    }
  }

  lemma {:induction false} BlankDecodes(c: Codec)
    ensures Decode(c, []) == Decode(c, MAGIC) == map[]
  {
    assert MAGIC[|MAGIC|..] == [];
  }

  // ------------------------------------------------------------------- the object

  /** The workspace file by inode: where the path points, and every inode's bytes.  A rename
      moves the path; an open writer keeps its inode. */
  class Journal {
    const c: Codec
    var actions: Actions
    var writer: Option<nat>
    var path: Option<nat>
    var inodes: map<nat, Bytes>

    /** load; the legacy file counts only if the journal has no record to offer. */
    constructor (c: Codec, path: Option<nat>, inodes: map<nat, Bytes>, legacy: Actions)
      requires path.Some? ==> path.value in inodes
      ensures this.c == c && this.path == path && this.inodes == inodes && writer.None? && Valid()
      ensures Decode(c, Contents()) != map[] ==> actions == Decode(c, Contents())
      ensures Decode(c, Contents()) == map[] ==> actions == legacy
    {
      this.c, this.path, this.inodes, writer := c, path, inodes, None;
      actions := map[];
      new;
      actions := DecodeBytes(c, Contents());
      if actions == map[] {
        actions := legacy;
      }
    }

    predicate Valid()
      reads this
    {
      (path.Some? ==> path.value in inodes) && (writer.Some? ==> writer.value in inodes)
    }

    /** What a load would read. */
    function Contents(): Bytes
      requires Valid()
      reads this
    {
      if path.Some? then inodes[path.value] else []
    }

    /** The file is what record and save write for this log, or still blank, and the memory
        agrees with it. */
    ghost predicate Holds(log: seq<Record>)
      requires Valid()
      reads this
    {
      actions == LastWins(log) && (Contents() == FileOf(c, log) || (Contents() == [] && log == [] && writer.None?))
    }

    /** The writer, if open, is open on the file the path names. */
    predicate WriterCurrent()
      reads this
    {
      writer.None? || writer == path
    }

    /** The file record appends to: opening writes the magic number into a new or empty one. */
    function Opened(): Bytes
      requires Valid()
      reads this
    {
      if writer.None? && Contents() == [] then MAGIC else Contents()
    }

    /** Opening for append; a new or empty file gets the magic number. */
    method Open()
      requires Valid() && writer.None?
      modifies `writer, `path, `inodes
      ensures Valid() && writer.Some? && writer == path
      ensures Contents() == old(Opened())
      ensures actions == old(actions)
    {
      if path.None? {
        var inode := Unused();
        path, inodes := Some(inode), inodes[inode := []];
      }
      if inodes[path.value] == [] {
        inodes := inodes[path.value := MAGIC];
      }
      writer := path;
    }

    method Unused() returns (n: nat)
      ensures n !in inodes
    {
      n := 0;
      var taken := inodes.Keys;
      while n in taken
        invariant forall k: nat :: k < n ==> k in inodes
        invariant taken == set k | k in inodes && k >= n
        decreases |taken|
      {
        taken, n := taken - {n}, n + 1;
      }
    }

    /** record, on any file.  A current writer appends to what a load reads: with no torn tail
        there the record is read back; a tail that stays stuck, or a missing magic number, hides
        it.  A writer left over from before a save appends to a file no load will read. */
    method Record(id: string, entry: JournalEntry)
      requires Valid()
      modifies this
      ensures Valid() && writer.Some? && actions == old(actions)[id := entry]
      ensures old(WriterCurrent()) ==> WriterCurrent() && Contents() == old(Opened()) + Frame(c, Rec(id, entry))
      ensures !old(WriterCurrent()) ==> Contents() == old(Contents())
      ensures old(WriterCurrent() && Whole(c, Opened())) && Carried(c, Rec(id, entry)) ==>
                Whole(c, Contents()) && Decode(c, Contents()) == old(Decode(c, Contents()))[id := entry]
      ensures old(WriterCurrent()) && old(Hides(c, Opened(), Rec(id, entry))) && Carried(c, Rec(id, entry)) ==>
                Decode(c, Contents()) == old(Decode(c, Contents()))
      ensures old(Whole(c, Opened()) && Decode(c, Contents()) == actions) && Carried(c, Rec(id, entry)) ==>
                (Decode(c, Contents()) == actions
                 <==> old(WriterCurrent()) || (id in old(actions) && old(actions)[id] == entry))
      ensures forall log :: old(WriterCurrent() && Holds(log)) ==> Holds(log + [Rec(id, entry)])
    {
      var r := Rec(id, entry);
      if Carried(c, r) {
        RecordMeaning(c, Contents(), Opened(), r);
      }
      forall log | Holds(log)
        ensures Opened() + Frame(c, r) == FileOf(c, log + [r]) && actions[id := entry] == LastWins(log + [r])
      {
        RecordExtends(log, r);
      }
      if writer.None? {
        Open();
      }
      inodes := inodes[writer.value := inodes[writer.value] + Frame(c, r)];
      actions := actions[id := entry];
    }

    lemma {:induction false} RecordExtends(log: seq<Record>, r: Record)
      requires Valid() && Holds(log)
      ensures Opened() + Frame(c, r) == FileOf(c, log + [r]) && actions[r.id := r.entry] == LastWins(log + [r])
    {
      FileAppend(c, log, r);
      LastWinsAppend(log, r);
      assert FileOf(c, []) == MAGIC;
    }

    /** The latest record of every action. */
    method Compact() returns (bytes: Bytes, ghost log: seq<Record>)
      ensures bytes == FileOf(c, log) && LastWins(log) == actions
      ensures forall r :: r in log ==> r.id in actions && r.entry == actions[r.id]
    {
      bytes, log := MAGIC, [];
      var todo := actions.Keys;
      assert MAGIC + [] == MAGIC;
      while todo != {}
        invariant todo <= actions.Keys && bytes == FileOf(c, log)
        invariant LastWins(log) == map id | id in actions && id !in todo :: actions[id]
        invariant forall r :: r in log ==> r.id in actions && r.entry == actions[r.id]
      {
        var id :| id in todo;
        var r := Rec(id, actions[id]);
        FileAppend(c, log, r);
        LastWinsAppend(log, r);
        bytes, todo, log := bytes + Frame(c, r), todo - {id}, log + [r];
      }
    }

    /** save: a compacted file renamed over the path.  Records of the same object stay visible
        afterwards exactly if it had no writer open. */
    method Save() returns (ghost log: seq<Record>)
      requires Valid() && forall id :: id in actions ==> Carried(c, Rec(id, actions[id]))
      modifies `path, `inodes
      ensures Valid() && Holds(log) && Decode(c, Contents()) == actions && Whole(c, Contents())
      ensures WriterCurrent() <==> writer.None?
    {
      var bytes;
      bytes, log := Compact();
      WholeDecodes(c, log);
      LogIsWhole(c, log);
      var inode := Unused();
      path, inodes := Some(inode), inodes[inode := bytes];
    }
  }

  /** A fresh journal records one action. */
  method RecordFirst(c: Codec, a: Record) returns (j: Journal)
    ensures fresh(j) && j.c == c && j.Valid() && j.writer.Some? && j.actions == map[a.id := a.entry]
  {
    BlankDecodes(c);
    j := new Journal(c, None, map[], map[]);
    j.Record(a.id, a.entry);
  }

  /** And saves, its writer still open. */
  method RecordAndSave(c: Codec, a: Record) returns (j: Journal)
    requires Carried(c, a)
    ensures fresh(j) && j.c == c && j.Valid() && !j.WriterCurrent()
    ensures j.actions == Decode(c, j.Contents()) == map[a.id := a.entry]
  {
    j := RecordFirst(c, a);
    ghost var log := j.Save();
  }

  /** Then it records another action.  The memory has both; a later load finds the first one only. */
  method RecordAfterSaveIsLost(c: Codec, a: Record, b: Record) returns (memory: Actions, reloaded: Actions)
    requires a.id != b.id && Carried(c, a) && Carried(c, b)
    ensures memory == map[a.id := a.entry, b.id := b.entry]
    ensures reloaded == map[a.id := a.entry]
  {
    var j := RecordAndSave(c, a);
    j.Record(b.id, b.entry);
    var later := new Journal(c, j.path, j.inodes, map[]);
    memory, reloaded := j.actions, later.actions;
  }
}
