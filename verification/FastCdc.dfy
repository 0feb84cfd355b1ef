/** FastCDC 2020 content-defined chunking: a gear hash rolled over the bytes decides where a
    chunk ends.  The shipped loop consumes two bytes per step; the reference consumes one. */
module FastCdc {
  import opened Word64
  import opened Wrappers

  /** The mask table shipped with the crate; index i keeps about i bits. */
  const MASKS: seq<nat> :=
    [0, 0, 0, 0, 0, 0x1804110, 0x1803110, 0x18035100, 0x1800035300, 0x19000353000, 0x590003530000,
     0xd90003530000, 0xd90103530000, 0xd90303530000, 0xd90313530000, 0xd90f03530000, 0xd90303537000,
     0xd90703537000, 0xd90707537000, 0xd91707537000, 0xd91747537000, 0xd91767537000, 0xd93767537000,
     0xd93777537000, 0xd93777577000, 0xdb3777577000]

  /** No mask of the table uses the top bit. */
  function MaskFor(i: nat): (mask: Bits)
    requires i < 26
    ensures IsWord(mask) && TopBitClear(mask)
  {
    MaskBound(i);
    SmallNatClearsTop(MASKS[i], WIDTH);
    OfNat(MASKS[i], WIDTH)
  }

  lemma {:induction false} MaskBelow(i: nat)
    requires i < |MASKS|
    ensures |MASKS| == 26 && MASKS[i] < 0x1_0000_0000_0000
  {
  }

  lemma {:induction false} MaskBound(i: nat)
    requires i < |MASKS|
    ensures |MASKS| == 26 && MASKS[i] < Pow2(63)
  {
    MaskBelow(i);
    Pow48();
  }

  lemma {:induction false} Pow48()
    ensures Pow2(63) >= 0x1_0000_0000_0000
  {
    assert Pow2(8) == 256;
    assert Pow2(16) == 0x1_0000;
    assert Pow2(24) == 0x100_0000;
    assert Pow2(32) == 0x1_0000_0000;
    assert Pow2(40) == 0x100_0000_0000;
    assert Pow2(48) == 0x1_0000_0000_0000;
    assert Pow2(56) == 0x100_0000_0000_0000;
  }

  datatype Chunker = Chunker(average: nat, minimum: nat, maximum: nat, maskSmall: Bits, maskLarge: Bits, seed: Bits,
                             gear: seq<Bits>)

  predicate IsPowerOfTwo(n: nat) {
    n == 1 || (n > 1 && n % 2 == 0 && IsPowerOfTwo(n / 2))
  }

  function TrailingZeros(n: nat): nat {
    if n > 0 && n % 2 == 0 then 1 + TrailingZeros(n / 2) else 0
  }

  /** FastCdc::new; the error cases are not told apart. */
  function New(average: nat, minimum: nat, maximum: nat, normalization: nat, seed: Bits,
               gear: seq<Bits>): Option<Chunker> {
    if !IsPowerOfTwo(average) || minimum == 0 || minimum > average || average > maximum then None
    else
      var bits := TrailingZeros(average);
      if bits + normalization > 25 || bits < normalization + 5 || |gear| != 256 then None
      else Some(Chunker(average, minimum, maximum, MaskFor(bits + normalization), MaskFor(bits - normalization), seed,
                        gear))
  }

  /** What the loop relies on.  Masks with a clear top bit can be shifted left without losing a bit. */
  predicate Valid(c: Chunker) {
    && 0 < c.minimum <= c.average <= c.maximum && c.average % 2 == 0
    && IsWord(c.maskSmall) && TopBitClear(c.maskSmall) && IsWord(c.maskLarge) && TopBitClear(c.maskLarge)
    && |c.gear| == 256 && AllWords(c.gear) && IsWord(c.seed)
  }

  predicate AllWords(ws: seq<Bits>) {
    forall i :: 0 <= i < |ws| ==> IsWord(ws[i])
  }

  lemma {:induction false} NewIsValid(average: nat, minimum: nat, maximum: nat, normalization: nat, seed: Bits,
                                      gear: seq<Bits>)
    requires IsWord(seed) && AllWords(gear)
    ensures var c := New(average, minimum, maximum, normalization, seed, gear);
            c.Some? ==> Valid(c.value) && c.value.average >= 32 && c.value.minimum == minimum
  {
    if New(average, minimum, maximum, normalization, seed, gear).Some? {
      AtLeastFiveBits(average);
    }
  }

  lemma {:induction false} AtLeastFiveBits(n: nat)
    requires n > 0 && TrailingZeros(n) >= 5
    ensures n % 2 == 0 && n >= 32
  {
    assert TrailingZeros(n / 2) >= 4;
    assert TrailingZeros(n / 2 / 2) >= 3;
    assert TrailingZeros(n / 2 / 2 / 2) >= 2;
    assert TrailingZeros(n / 2 / 2 / 2 / 2) >= 1;
  }

  // ------------------------------------------------- reference: one byte a step

  /** n & !1. */
  function Even(n: nat): nat {
    n - n % 2
  }

  function Min(a: nat, b: nat): nat {
    if a <= b then a else b
  }

  function End(c: Chunker, n: nat): nat {
    Min(n, c.maximum)
  }

  function Center(c: Chunker, n: nat): nat {
    Even(Min(End(c, n), c.average))
  }

  /** The salted gear of a byte. */
  function Salted(c: Chunker, b: Byte): (r: Bits)
    requires Valid(c)
    ensures IsWord(r)
  {
    Xor(c.gear[b], c.seed)
  }

  /** The gear hash of bytes[from..to]: each byte shifts the hash left by one and adds its gear. */
  function Hash(c: Chunker, bytes: Bytes, from: nat, to: nat): (h: Bits)
    requires Valid(c) && to <= |bytes|
    ensures IsWord(h)
  {
    if to <= from then Zero(Width(c.seed)) else Add(Shl1(Hash(c, bytes, from, to - 1)), Salted(c, bytes[to - 1]))
  }

  function MaskAt(c: Chunker, n: nat, i: nat): Bits {
    if i < Center(c, n) then c.maskSmall else c.maskLarge
  }

  /** The hash after byte i clears the mask that applies to i. */
  predicate Clears(c: Chunker, bytes: Bytes, i: nat)
    requires Valid(c) && i < |bytes|
  {
    Passes(Hash(c, bytes, Even(c.minimum), i + 1), MaskAt(c, |bytes|, i))
  }

  /** The definition of a first cut: the least clearing index, else the capped end. */
  ghost predicate IsBoundary(c: Chunker, bytes: Bytes, r: nat)
    requires Valid(c)
  {
    if |bytes| <= c.minimum then r == |bytes|
    else
      && NoneClears(c, bytes, Even(c.minimum), r)
      && (r == End(c, |bytes|) || (Even(c.minimum) <= r < Stop(c, |bytes|) && Clears(c, bytes, r)))
  }

  /** The loops look at indices below Stop. */
  function Stop(c: Chunker, n: nat): nat {
    Even(End(c, n))
  }

  ghost predicate NoneClears(c: Chunker, bytes: Bytes, from: nat, r: nat)
    requires Valid(c)
  {
    forall j :: from <= j < r && j < Stop(c, |bytes|) ==> !Clears(c, bytes, j)
  }

  lemma {:induction false} BoundaryIsUnique(c: Chunker, bytes: Bytes, r: nat, q: nat)
    requires Valid(c) && IsBoundary(c, bytes, r) && IsBoundary(c, bytes, q)
    ensures r == q
  {
  }

  /** The least index from i on, below Stop, that clears, else the capped end. */
  function LeastClear(c: Chunker, bytes: Bytes, i: nat): (r: nat)
    requires Valid(c)
    ensures r <= |bytes|
    decreases |bytes| - i
  {
    if i >= Stop(c, |bytes|) then End(c, |bytes|)
    else if Clears(c, bytes, i) then i
    else LeastClear(c, bytes, i + 1)
  }

  /** r is the least clearing index from i on, or the end. */
  ghost predicate IsLeastClear(c: Chunker, bytes: Bytes, i: nat, r: nat)
    requires Valid(c)
  {
    && (r == End(c, |bytes|) || (i <= r < Stop(c, |bytes|) && Clears(c, bytes, r)))
    && NoneClears(c, bytes, i, r)
  }

  lemma {:induction false} LeastClearFrom(c: Chunker, bytes: Bytes, i: nat, r: nat)
    requires Valid(c) && i < Stop(c, |bytes|)
    requires if Clears(c, bytes, i) then r == i else IsLeastClear(c, bytes, i + 1, r)
    ensures IsLeastClear(c, bytes, i, r)
  {
  }

  lemma {:induction false} LeastClearIsLeast(c: Chunker, bytes: Bytes, i: nat)
    requires Valid(c)
    ensures IsLeastClear(c, bytes, i, LeastClear(c, bytes, i))
    decreases |bytes| - i
  {
    var r := LeastClear(c, bytes, i);
    if i < Stop(c, |bytes|) {
      if !Clears(c, bytes, i) {
        LeastClearIsLeast(c, bytes, i + 1);
      }
      LeastClearFrom(c, bytes, i, r);
    }
  }

  function FirstCut(c: Chunker, bytes: Bytes): (r: nat)
    requires Valid(c)
    ensures r <= |bytes|
  {
    if |bytes| <= c.minimum then |bytes| else LeastClear(c, bytes, Even(c.minimum))
  }

  lemma {:induction false} FirstCutIsBoundary(c: Chunker, bytes: Bytes)
    requires Valid(c)
    ensures IsBoundary(c, bytes, FirstCut(c, bytes))
  {
    LeastClearIsLeast(c, bytes, Even(c.minimum));
  }

  // -------------------------------------------------- the loop, two bytes a step

  /** The first half of a doubled step: the hash arrives shifted left by one more. */
  function HalfRoll(c: Chunker, h: Bits, b: Byte): (r: Bits)
    requires Valid(c) && IsWord(h)
    ensures IsWord(r)
  {
    Add(Shl1(Shl1(h)), Xor(Shl1(c.gear[b]), Shl1(c.seed)))
  }

  /** After the first half the loop holds the reference hash shifted left, and its test is the
      reference test. */
  lemma {:induction false} HalfStep(c: Chunker, bytes: Bytes, i: nat, mask: Bits)
    requires Valid(c) && Even(c.minimum) <= i < |bytes| && mask == MaskAt(c, |bytes|, i)
    ensures var half := HalfRoll(c, Hash(c, bytes, Even(c.minimum), i), bytes[i]);
            && half == Shl1(Hash(c, bytes, Even(c.minimum), i + 1))
            && Passes(half, Shl1(mask)) == Clears(c, bytes, i)
  {
    var h := Hash(c, bytes, Even(c.minimum), i);
    XorOfShifted(c.gear[bytes[i]], c.seed);
    AddOfShifted(Shl1(h), Salted(c, bytes[i]));
    PassesShifted(Hash(c, bytes, Even(c.minimum), i + 1), mask);
  }

  /** The body of the stepped loops: two bytes, two tests. */
  method DoubleStep(c: Chunker, bytes: Bytes, i: nat, mask: Bits, shifted: Bits, h: Bits)
    returns (cut: Option<nat>, hash: Bits)
    requires Valid(c) && Even(c.minimum) <= i && i + 1 < |bytes|
    requires mask == MaskAt(c, |bytes|, i) == MaskAt(c, |bytes|, i + 1) && shifted == Shl1(mask)
    requires h == Hash(c, bytes, Even(c.minimum), i)
    ensures cut == if Clears(c, bytes, i) then Some(i) else if Clears(c, bytes, i + 1) then Some(i + 1) else None
    ensures cut.None? ==> hash == Hash(c, bytes, Even(c.minimum), i + 2)
  {
    HalfStep(c, bytes, i, mask);
    hash := HalfRoll(c, h, bytes[i]);
    if Passes(hash, shifted) {
      return Some(i), hash;
    }
    hash := Add(hash, Salted(c, bytes[i + 1]));
    cut := if Passes(hash, mask) then Some(i + 1) else None;
  }

  lemma {:induction false} NoneClearsExtends(c: Chunker, bytes: Bytes, from: nat, r: nat)
    requires Valid(c) && NoneClears(c, bytes, from, r) && r < |bytes|
    requires !Clears(c, bytes, r)
    ensures NoneClears(c, bytes, from, r + 1)
  {
  }

  /** What the answer of a double step means for the range so far. */
  lemma {:induction false} DoubleStepExtends(c: Chunker, bytes: Bytes, from: nat, i: nat, cut: Option<nat>)
    requires Valid(c) && from <= i && i + 1 < |bytes| && NoneClears(c, bytes, from, i)
    requires cut == if Clears(c, bytes, i) then Some(i) else if Clears(c, bytes, i + 1) then Some(i + 1) else None
    ensures cut.Some? ==>
              i <= cut.value <= i + 1 && Clears(c, bytes, cut.value) && NoneClears(c, bytes, from, cut.value)
    ensures cut.None? ==> NoneClears(c, bytes, from, i + 2)
  {
    if cut != Some(i) {
      NoneClearsExtends(c, bytes, from, i);
    }
    if cut.None? {
      NoneClearsExtends(c, bytes, from, i + 1);
    }
  }

  lemma {:induction false} NextEven(a: nat, b: nat)
    requires a < b && a % 2 == 0 && b % 2 == 0
    ensures a + 2 <= b && (a + 2) % 2 == 0
  {
  }

  /** One pass of a stepped loop, with what is known of the range so far. */
  method RollOn(c: Chunker, bytes: Bytes, ghost from: nat, i: nat, mask: Bits, shifted: Bits, h: Bits)
    returns (cut: Option<nat>, hash: Bits)
    requires Valid(c) && Even(c.minimum) <= from <= i && i + 1 < |bytes| && NoneClears(c, bytes, from, i)
    requires mask == MaskAt(c, |bytes|, i) == MaskAt(c, |bytes|, i + 1) && shifted == Shl1(mask)
    requires h == Hash(c, bytes, Even(c.minimum), i)
    ensures cut.Some? ==>
              i <= cut.value <= i + 1 && Clears(c, bytes, cut.value) && NoneClears(c, bytes, from, cut.value)
    ensures cut.None? ==> NoneClears(c, bytes, from, i + 2) && hash == Hash(c, bytes, Even(c.minimum), i + 2)
  {
    cut, hash := DoubleStep(c, bytes, i, mask, shifted, h);
    DoubleStepExtends(c, bytes, from, i, cut);
  }

  /** One of the two stepped loops of boundary, over [from, to) with one mask. */
  method Roll(c: Chunker, bytes: Bytes, from: nat, to: nat, mask: Bits, start: Bits)
    returns (cut: Option<nat>, hash: Bits)
    requires Valid(c) && Even(c.minimum) <= from <= to <= |bytes|
    requires from % 2 == 0 && to % 2 == 0
    requires forall i {:trigger MaskAt(c, |bytes|, i)} :: from <= i < to ==> MaskAt(c, |bytes|, i) == mask
    requires start == Hash(c, bytes, Even(c.minimum), from)
    ensures cut.Some? ==> from <= cut.value < to && Clears(c, bytes, cut.value) && NoneClears(c, bytes, from, cut.value)
    ensures cut.None? ==> NoneClears(c, bytes, from, to) && hash == Hash(c, bytes, Even(c.minimum), to)
  {
    hash := start;
    var shifted := Shl1(mask);
    var offset := from;
    while offset < to
      invariant from <= offset <= to && offset % 2 == 0
      invariant hash == Hash(c, bytes, Even(c.minimum), offset)
      invariant NoneClears(c, bytes, from, offset)
    {
      NextEven(offset, to);
      cut, hash := RollOn(c, bytes, from, offset, mask, shifted, hash);
      if cut.Some? {
        return;
      }
      offset := offset + 2;
    }
    cut := None;
  }

  /** FastCdc::boundary. */
  method Boundary(c: Chunker, bytes: Bytes) returns (r: nat)
    requires Valid(c)
    ensures r == FirstCut(c, bytes) && IsBoundary(c, bytes, r)
  {
    r := FindCut(c, bytes);
    FirstCutIsBoundary(c, bytes);
    BoundaryIsUnique(c, bytes, r, FirstCut(c, bytes));
  }

  /** The ranges of the two stepped loops, and their masks. */
  lemma {:induction false} LoopRanges(c: Chunker, n: nat)
    requires Valid(c) && n > c.minimum
    ensures Even(c.minimum) <= Center(c, n) <= Stop(c, n) <= n
    ensures Even(c.minimum) % 2 == 0 && Center(c, n) % 2 == 0 && Stop(c, n) % 2 == 0
    ensures forall i: nat {:trigger MaskAt(c, n, i)} :: i < Center(c, n) ==> MaskAt(c, n, i) == c.maskSmall
    ensures forall i {:trigger MaskAt(c, n, i)} :: Center(c, n) <= i ==> MaskAt(c, n, i) == c.maskLarge
  {
    EvenIsEven(c.minimum, Min(End(c, n), c.average));
    EvenIsEven(Min(End(c, n), c.average), End(c, n));
  }

  lemma {:induction false} EvenIsEven(a: nat, b: nat)
    requires a <= b
    ensures Even(a) <= Even(b) <= b && Even(a) % 2 == 0 && Even(b) % 2 == 0
  {
  }

  method FindCut(c: Chunker, bytes: Bytes) returns (r: nat)
    requires Valid(c)
    ensures IsBoundary(c, bytes, r)
  {
    if |bytes| <= c.minimum {
      return |bytes|;
    }
    LoopRanges(c, |bytes|);
    var end := Min(|bytes|, c.maximum);
    var center := Even(Min(end, c.average));
    var cut, hash := Roll(c, bytes, Even(c.minimum), center, c.maskSmall, Zero(Width(c.seed)));
    if cut.Some? {
      return cut.value;
    }
    cut, hash := Roll(c, bytes, center, Even(end), c.maskLarge, hash);
    return if cut.Some? then cut.value else end;
  }

  // ----------------------------------------------------------------- chunks

  function Sum(lengths: seq<nat>): nat {
    if lengths == [] then 0 else lengths[0] + Sum(lengths[1..])
  }

  /** A first chunk is empty only in one corner: a minimum of one byte rounds down to zero, and
      the very first byte may already clear the mask. */
  lemma {:induction false} EmptyCutExactly(c: Chunker, bytes: Bytes)
    requires Valid(c) && bytes != []
    ensures FirstCut(c, bytes) == 0 <==> c.minimum == 1 && |bytes| > 1 && Passes(Salted(c, bytes[0]), c.maskSmall)
  {
    if |bytes| > c.minimum {
      FirstCutIsBoundary(c, bytes);
      if c.minimum == 1 {
        ShiftZero(Width(c.seed));
        AddZero(Width(c.seed), Salted(c, bytes[0]));
        assert c.average >= 2 && Stop(c, |bytes|) >= 2 && MaskAt(c, |bytes|, 0) == c.maskSmall;
        assert Hash(c, bytes, 0, 0) == Zero(Width(c.seed));
        assert Hash(c, bytes, 0, 1) == Salted(c, bytes[0]);
        assert Clears(c, bytes, 0) == Passes(Salted(c, bytes[0]), c.maskSmall);
      }
    }
  }

  /** FastCdc::new accepts such a chunker: minimum 1, average 32, and the gear of some byte b as the
      seed.  On two bytes b its first chunk is empty. */
  lemma {:induction false} StallExists(b: Byte, maximum: nat, gear: seq<Bits>)
    requires |gear| == 256 && AllWords(gear) && maximum >= 32
    ensures var c := New(32, 1, maximum, 0, gear[b], gear);
            c.Some? && Valid(c.value) && c.value.minimum == 1 && FirstCut(c.value, [b, b]) == 0
  {
    assert IsPowerOfTwo(8) && IsPowerOfTwo(32) && TrailingZeros(8) == 3 && TrailingZeros(32) == 5;
    NewIsValid(32, 1, maximum, 0, gear[b], gear);
    var c := New(32, 1, maximum, 0, gear[b], gear).value;
    EmptyCutExactly(c, [b, b]);
    XorSelfPasses(c.seed, c.maskSmall);
  }

  lemma {:induction false} CutAdvances(c: Chunker, bytes: Bytes)
    requires Valid(c) && c.minimum >= 2 && bytes != []
    ensures 0 < FirstCut(c, bytes) <= c.maximum
    ensures FirstCut(c, bytes) < |bytes| ==> Even(c.minimum) <= FirstCut(c, bytes)
  {
    EmptyCutExactly(c, bytes);
    FirstCutIsBoundary(c, bytes);
  }

  /** The chunk lengths of bytes, in order. */
  function Lengths(c: Chunker, bytes: Bytes): seq<nat>
    requires Valid(c) && c.minimum >= 2
    decreases |bytes|
  {
    if bytes == [] then []
    else
      CutAdvances(c, bytes);
      var r := FirstCut(c, bytes);
      [r] + Lengths(c, bytes[r..])
  }

  /** Chunks tile the input; none exceeds the maximum, and only the last may fall short. */
  lemma {:induction false} ChunksPartition(c: Chunker, bytes: Bytes)
    requires Valid(c) && c.minimum >= 2
    ensures Sum(Lengths(c, bytes)) == |bytes|
    ensures forall i :: 0 <= i < |Lengths(c, bytes)| ==> 0 < Lengths(c, bytes)[i] <= c.maximum
    ensures forall i :: 0 <= i < |Lengths(c, bytes)| - 1 ==> Even(c.minimum) <= Lengths(c, bytes)[i]
    decreases |bytes|
  {
    if bytes != [] {
      CutAdvances(c, bytes);
      var r := FirstCut(c, bytes);
      ChunksPartition(c, bytes[r..]);
      assert Lengths(c, bytes)[1..] == Lengths(c, bytes[r..]);
    }
  }

  lemma {:induction false} LengthsFrom(c: Chunker, bytes: Bytes, offset: nat)
    requires Valid(c) && offset < |bytes|
    ensures var r := FirstCut(c, bytes[offset..]);
            && offset + r <= |bytes|
            && (c.minimum >= 2 ==> r > 0 && Lengths(c, bytes[offset..]) == [r] + Lengths(c, bytes[offset + r..]))
  {
    var rest := bytes[offset..];
    var r := FirstCut(c, rest);
    if c.minimum >= 2 {
      CutAdvances(c, rest);
      assert rest[r..] == bytes[offset + r..];
    }
  }

  /** The Chunks iterator. */
  class Chunks {
    const c: Chunker
    const bytes: Bytes
    var offset: nat

    predicate Usable()
      reads this
    {
      Valid(c) && offset <= |bytes|
    }

    /** The lengths still to come. */
    ghost function Remaining(): seq<nat>
      requires Usable() && c.minimum >= 2
      reads this
    {
      Lengths(c, bytes[offset..])
    }

    constructor (c: Chunker, bytes: Bytes)
      requires Valid(c)
      ensures Usable() && this.c == c && this.bytes == bytes && offset == 0
    {
      this.c, this.bytes, offset := c, bytes, 0;
    }

    /** Iterator::next: the remaining chunks are the returned one and what remains after it. */
    method Next() returns (item: Option<(nat, nat)>)
      requires Usable()
      modifies this
      ensures Usable()
      ensures item.None? <==> old(offset) == |bytes|
      ensures item.None? ==> offset == old(offset)
      ensures item.Some? ==>
                && item.value == (old(offset), FirstCut(c, bytes[old(offset)..]))
                && offset == old(offset) + item.value.1
      ensures item.Some? && c.minimum >= 2 ==>
                offset > old(offset) && old(Remaining()) == [item.value.1] + Remaining()
    {
      if offset == |bytes| {
        return None;
      }
      var length := Boundary(c, bytes[offset..]);
      LengthsFrom(c, bytes, offset);
      assert length <= |bytes| - offset;
      item := Some((offset, length));
      offset := offset + length;
    }
  }

  /** The iterator of that chunker returns the empty chunk at offset 0 as often as it is asked. */
  method StallsForever(b: Byte, maximum: nat, gear: seq<Bits>, times: nat) returns (items: seq<Option<(nat, nat)>>)
    requires |gear| == 256 && AllWords(gear) && maximum >= 32
    ensures |items| == times && forall i :: 0 <= i < times ==> items[i] == Some((0, 0))
  {
    StallExists(b, maximum, gear);
    var it := new Chunks(New(32, 1, maximum, 0, gear[b], gear).value, [b, b]);
    items := [];
    assert it.bytes[0..] == [b, b];
    for k := 0 to times
      invariant it.Usable() && fresh(it) && it.offset == 0
      invariant |items| == k && forall i :: 0 <= i < k ==> items[i] == Some((0, 0))
    {
      var item := it.Next();
      items := items + [item];
    }
  }

  /** Draining the iterator. */
  method Collect(c: Chunker, bytes: Bytes) returns (items: seq<(nat, nat)>)
    requires Valid(c) && c.minimum >= 2
    ensures |items| == |Lengths(c, bytes)|
    ensures forall i :: 0 <= i < |items| ==> items[i] == (Sum(Lengths(c, bytes)[..i]), Lengths(c, bytes)[i])
  {
    items := [];
    var it := new Chunks(c, bytes);
    ghost var all := Lengths(c, bytes);
    assert bytes[0..] == bytes;
    while true
      invariant it.Usable() && it.c == c && it.bytes == bytes && fresh(it)
      invariant Drawn(all, items) && all[|items|..] == it.Remaining() && it.offset == Sum(all[..|items|])
      decreases |bytes| - it.offset
    {
      var item := it.Next();
      match item {
        case None =>
          break;
        case Some(pair) =>
          DrawOne(all, items, pair, it.Remaining());
          items := items + [pair];
      }
    }
    assert bytes[|bytes|..] == [];
  }

  /** The first items, with their offsets. */
  ghost predicate Drawn(all: seq<nat>, items: seq<(nat, nat)>) {
    && |items| <= |all|
    && forall i {:trigger items[i]} :: 0 <= i < |items| ==> items[i] == (Sum(all[..i]), all[i])
  }

  lemma {:induction false} DrawOne(all: seq<nat>, items: seq<(nat, nat)>, pair: (nat, nat), rest: seq<nat>)
    requires Drawn(all, items) && all[|items|..] == [pair.1] + rest && pair.0 == Sum(all[..|items|])
    ensures Drawn(all, items + [pair]) && all[|items| + 1..] == rest
    ensures Sum(all[..|items| + 1]) == pair.0 + pair.1
  {
    var k := |items|;
    assert all[k..][0] == pair.1 && all[k..][1..] == all[k + 1..];
    SumAppend(all[..k], pair.1);
    assert all[..k] + [pair.1] == all[..k + 1];
  }

  lemma {:induction false} SumAppend(a: seq<nat>, x: nat)
    ensures Sum(a + [x]) == Sum(a) + x
  {
    if a == [] {
      assert a + [x] == [x];
    } else {
      assert (a + [x])[1..] == a[1..] + [x];
      SumAppend(a[1..], x);
    }
  }

  // --------------------------------------------------------------- locality

  /** From chunk i on, the chunks are those of what is left there. */
  predicate Resumes(c: Chunker, bytes: Bytes, all: seq<nat>, i: nat)
    requires Valid(c) && c.minimum >= 2
  {
    i <= |all| && Sum(all[..i]) <= |bytes| && all[i..] == Lengths(c, bytes[Sum(all[..i])..])
  }

  lemma {:induction false} ResumeStep(c: Chunker, bytes: Bytes, r: nat, tail: seq<nat>, i: nat)
    requires Valid(c) && c.minimum >= 2 && r <= |bytes| && Resumes(c, bytes[r..], tail, i)
    ensures Resumes(c, bytes, [r] + tail, i + 1)
  {
    SumCons(r, tail, i);
    assert ([r] + tail)[i + 1..] == tail[i..];
    assert bytes[r..][Sum(tail[..i])..] == bytes[r + Sum(tail[..i])..];
  }

  /** Chunking from a cut on is chunking of the rest. */
  lemma {:induction false} ResumeAtCut(c: Chunker, bytes: Bytes, i: nat)
    requires Valid(c) && c.minimum >= 2 && i <= |Lengths(c, bytes)|
    ensures Resumes(c, bytes, Lengths(c, bytes), i)
    decreases i
  {
    if i == 0 {
      assert bytes[0..] == bytes && Lengths(c, bytes)[..0] == [];
    } else {
      LengthsStep(c, bytes);
      var r := FirstCut(c, bytes);
      ResumeAtCut(c, bytes[r..], i - 1);
      ResumeStep(c, bytes, r, Lengths(c, bytes[r..]), i - 1);
    }
  }

  /** Resynchronisation: if two inputs end in the same bytes and both are cut where these begin,
      all later chunks coincide. */
  lemma {:induction false} CommonSuffixSameChunks(c: Chunker, a: Bytes, b: Bytes, i: nat, j: nat)
    requires Valid(c) && c.minimum >= 2 && i <= |Lengths(c, a)| && j <= |Lengths(c, b)|
    requires Sum(Lengths(c, a)[..i]) <= |a| && Sum(Lengths(c, b)[..j]) <= |b|
    requires a[Sum(Lengths(c, a)[..i])..] == b[Sum(Lengths(c, b)[..j])..]
    ensures Lengths(c, a)[i..] == Lengths(c, b)[j..]
  {
    ResumeAtCut(c, a, i);
    ResumeAtCut(c, b, j);
  }

  lemma {:induction false} HashIsLocal(c: Chunker, a: Bytes, b: Bytes, from: nat, end: nat)
    requires Valid(c) && end <= |a| && end <= |b| && a[..end] == b[..end]
    ensures Hash(c, a, from, end) == Hash(c, b, from, end)
    decreases end
  {
    if from < end {
      assert a[end - 1] == a[..end][end - 1] == b[..end][end - 1] == b[end - 1];
      assert a[..end - 1] == a[..end][..end - 1] == b[..end][..end - 1] == b[..end - 1];
      HashIsLocal(c, a, b, from, end - 1);
    }
  }

  lemma {:induction false} ClearsIsLocal(c: Chunker, a: Bytes, b: Bytes, d: nat, j: nat)
    requires Valid(c) && d <= |a| && d <= |b| && a[..d] == b[..d] && j < d
    requires j < Stop(c, |a|) && j < Stop(c, |b|)
    ensures Clears(c, a, j) == Clears(c, b, j)
  {
    assert a[..j + 1] == a[..d][..j + 1] == b[..d][..j + 1] == b[..j + 1];
    HashIsLocal(c, a, b, Even(c.minimum), j + 1);
    assert j < Center(c, |a|) <==> j < c.average;
    assert j < Center(c, |b|) <==> j < c.average;
  }

  /** A non-final first cut depends only on the bytes up to two past it. */
  lemma {:induction false} CutIsLocal(c: Chunker, a: Bytes, b: Bytes, d: nat)
    requires Valid(c) && d <= |a| && d <= |b| && a[..d] == b[..d]
    requires FirstCut(c, a) < |a| && FirstCut(c, a) + 2 <= d
    ensures FirstCut(c, b) == FirstCut(c, a)
  {
    var r := FirstCut(c, a);
    FirstCutIsBoundary(c, a);
    FirstCutIsBoundary(c, b);
    forall j | Even(c.minimum) <= j < d && j < Stop(c, |a|) && j < Stop(c, |b|)
      ensures Clears(c, a, j) == Clears(c, b, j)
    {
      ClearsIsLocal(c, a, b, d, j);
    }
    BoundaryIsUnique(c, b, FirstCut(c, b), r);
  }

  predicate SameFirst(a: seq<nat>, b: seq<nat>, n: nat) {
    n <= |a| && n <= |b| && a[..n] == b[..n]
  }

  lemma {:induction false} SumCons(x: nat, a: seq<nat>, n: nat)
    requires n <= |a|
    ensures Sum(([x] + a)[..n + 1]) == x + Sum(a[..n])
  {
    assert ([x] + a)[..n + 1] == [x] + a[..n];
    assert ([x] + a[..n])[1..] == a[..n];
  }

  lemma {:induction false} LengthsStep(c: Chunker, a: Bytes)
    requires Valid(c) && c.minimum >= 2 && a != []
    ensures 0 < FirstCut(c, a) <= |a| && Lengths(c, a) == [FirstCut(c, a)] + Lengths(c, a[FirstCut(c, a)..])
  {
    CutAdvances(c, a);
  }

  lemma {:induction false} DropSame(a: Bytes, b: Bytes, d: nat, r: nat)
    requires r <= d <= |a| && d <= |b| && a[..d] == b[..d]
    ensures a[r..][..d - r] == b[r..][..d - r]
  {
    assert a[r..][..d - r] == a[..d][r..];
    assert b[r..][..d - r] == b[..d][r..];
  }

  lemma {:induction false} FirstChunkIsShared(c: Chunker, a: Bytes, b: Bytes, d: nat, i: nat)
    requires Valid(c) && c.minimum >= 2 && d <= |a| && d <= |b| && a[..d] == b[..d]
    requires i < |Lengths(c, a)| - 1 && Sum(Lengths(c, a)[..i + 1]) + 2 <= d
    ensures var r := FirstCut(c, a);
            && r <= d && b != [] && FirstCut(c, b) == r
            && i <= |Lengths(c, a[r..])| - 1 && Sum(Lengths(c, a[r..])[..i]) + 2 <= d - r
  {
    LengthsStep(c, a);
    var r := FirstCut(c, a);
    SumCons(r, Lengths(c, a[r..]), i);
    CutIsLocal(c, a, b, d);
  }

  /** Every non-final chunk that ends at least two bytes before the first difference is a chunk
      of both inputs. */
  lemma {:induction false} CommonPrefixSameChunks(c: Chunker, a: Bytes, b: Bytes, d: nat, i: nat)
    requires Valid(c) && c.minimum >= 2 && d <= |a| && d <= |b| && a[..d] == b[..d]
    requires i < |Lengths(c, a)| - 1 && Sum(Lengths(c, a)[..i + 1]) + 2 <= d
    ensures SameFirst(Lengths(c, a), Lengths(c, b), i + 1)
    decreases i
  {
    FirstChunkIsShared(c, a, b, d, i);
    var r := FirstCut(c, a);
    if i > 0 {
      DropSame(a, b, d, r);
      CommonPrefixSameChunks(c, a[r..], b[r..], d - r, i - 1);
    }
    LengthsStep(c, a);
    LengthsStep(c, b);
    SameFirstCons(r, Lengths(c, a[r..]), Lengths(c, b[r..]), i);
  }

  lemma {:induction false} SameFirstCons(x: nat, s: seq<nat>, t: seq<nat>, n: nat)
    requires SameFirst(s, t, n)
    ensures SameFirst([x] + s, [x] + t, n + 1)
  {
  }
}
