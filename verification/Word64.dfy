/** Unsigned machine words as bit lists, least significant bit first, with the wrapping
    operations the chunker uses.  The chunker's words are 64 bits wide. */
module Word64 {
  datatype Bits = Top | Bit(low: bool, high: Bits)

  const WIDTH: nat := 64

  function Width(w: Bits): nat {
    match w
    case Top => 0
    case Bit(_, high) => 1 + Width(high)
  }

  predicate IsWord(w: Bits) {
    Width(w) == WIDTH
  }

  function Digit(b: bool): nat {
    if b then 1 else 0
  }

  function Value(w: Bits): nat {
    match w
    case Top => 0
    case Bit(low, high) => Digit(low) + 2 * Value(high)
  }

  function Pow2(k: nat): (p: nat)
    ensures p > 0
  {
    if k == 0 then 1 else 2 * Pow2(k - 1)
  }

  /** The low `width` bits of n. */
  function OfNat(n: nat, width: nat): (w: Bits)
    ensures Width(w) == width
  {
    if width == 0 then Top else Bit(n % 2 == 1, OfNat(n / 2, width - 1))
  }

  function Xor(a: Bits, b: Bits): (r: Bits)
    requires Width(a) == Width(b)
    ensures Width(r) == Width(a)
  {
    match a
    case Top => Top
    case Bit(low, high) => Bit(low != b.low, Xor(high, b.high))
  }

  /** Every bit moves up one place, `low` moves in, the top bit is lost. */
  function ShiftIn(low: bool, a: Bits): (r: Bits)
    ensures Width(r) == Width(a)
    decreases a
  {
    match a
    case Top => Top
    case Bit(l, high) => Bit(low, ShiftIn(l, high))
  }

  /** x << 1. */
  function Shl1(a: Bits): (r: Bits)
    ensures Width(r) == Width(a)
  {
    ShiftIn(false, a)
  }

  predicate Majority(a: bool, b: bool, c: bool) {
    Digit(a) + Digit(b) + Digit(c) >= 2
  }

  /** Ripple-carry addition, truncated to the width of the operands. */
  function AddCarry(a: Bits, b: Bits, carry: bool): (r: Bits)
    requires Width(a) == Width(b)
    ensures Width(r) == Width(a)
  {
    match a
    case Top => Top
    case Bit(low, high) => Bit((low != b.low) != carry, AddCarry(high, b.high, Majority(low, b.low, carry)))
  }

  function Add(a: Bits, b: Bits): (r: Bits)
    requires Width(a) == Width(b)
    ensures Width(r) == Width(a)
  {
    AddCarry(a, b, false)
  }

  /** x & mask == 0. */
  predicate Passes(x: Bits, mask: Bits)
    requires Width(x) == Width(mask)
  {
    match x
    case Top => true
    case Bit(low, high) => !(low && mask.low) && Passes(high, mask.high)
  }

  predicate TopBitClear(w: Bits) {
    match w
    case Top => true
    case Bit(low, high) => if high.Top? then !low else TopBitClear(high)
  }

  lemma {:induction false} ValueBelowPow2(w: Bits)
    ensures Value(w) < Pow2(Width(w))
  {
    match w
    case Top =>
    case Bit(_, high) => ValueBelowPow2(high);
  }

  lemma {:induction false} ValueOfNat(n: nat, width: nat)
    requires n < Pow2(width)
    ensures Value(OfNat(n, width)) == n
  {
    if width > 0 {
      ValueOfNat(n / 2, width - 1);
    }
  }

  lemma {:induction false} SmallNatClearsTop(n: nat, width: nat)
    requires width > 0 && n < Pow2(width - 1)
    ensures TopBitClear(OfNat(n, width))
  {
    if width > 1 {
      SmallNatClearsTop(n / 2, width - 1);
    }
  }

  /** The carry that falls off the top. */
  predicate CarryOut(a: Bits, b: Bits, carry: bool)
    requires Width(a) == Width(b)
  {
    match a
    case Top => carry
    case Bit(low, high) => CarryOut(high, b.high, Majority(low, b.low, carry))
  }

  lemma {:induction false} AddCarryValue(a: Bits, b: Bits, carry: bool)
    requires Width(a) == Width(b)
    ensures Value(AddCarry(a, b, carry)) + (if CarryOut(a, b, carry) then Pow2(Width(a)) else 0)
            == Value(a) + Value(b) + Digit(carry)
  {
    match a
    case Top =>
    case Bit(low, high) => AddCarryValue(high, b.high, Majority(low, b.low, carry));
  }

  /** Addition wraps: the sum reduced below two to the width, the carry dropped. */
  lemma {:induction false} AddWraps(a: Bits, b: Bits)
    requires Width(a) == Width(b)
    ensures Value(Add(a, b)) < Pow2(Width(a))
    ensures Value(a) + Value(b) == Value(Add(a, b)) + (if CarryOut(a, b, false) then Pow2(Width(a)) else 0)
  {
    AddCarryValue(a, b, false);
    ValueBelowPow2(Add(a, b));
  }

  predicate TopBit(w: Bits)
    requires w != Top
  {
    if w.high.Top? then w.low else TopBit(w.high)
  }

  lemma {:induction false} ShiftInValue(low: bool, a: Bits)
    requires a != Top
    ensures 2 * Value(a) + Digit(low) == Value(ShiftIn(low, a)) + if TopBit(a) then Pow2(Width(a)) else 0
    decreases a
  {
    if !a.high.Top? {
      ShiftInValue(a.low, a.high);
    }
  }

  /** Shifting left doubles, and drops the top bit. */
  lemma {:induction false} Shl1Doubles(a: Bits)
    requires a != Top
    ensures Value(Shl1(a)) < Pow2(Width(a))
    ensures 2 * Value(a) == Value(Shl1(a)) + if TopBit(a) then Pow2(Width(a)) else 0
  {
    ShiftInValue(false, a);
    ValueBelowPow2(Shl1(a));
  }

  lemma {:induction false} AddOfShiftIn(x: bool, a: Bits, y: bool, b: Bits, carry: bool)
    requires Width(a) == Width(b)
    ensures AddCarry(ShiftIn(x, a), ShiftIn(y, b), carry)
            == ShiftIn((x != y) != carry, AddCarry(a, b, Majority(x, y, carry)))
    decreases a
  {
    match a
    case Top =>
    case Bit(low, high) => AddOfShiftIn(low, high, b.low, b.high, Majority(x, y, carry));
  }

  /** Shifting distributes over wrapping addition. */
  lemma {:induction false} AddOfShifted(a: Bits, b: Bits)
    requires Width(a) == Width(b)
    ensures Add(Shl1(a), Shl1(b)) == Shl1(Add(a, b))
  {
    AddOfShiftIn(false, a, false, b, false);
  }

  lemma {:induction false} XorOfShiftIn(x: bool, a: Bits, y: bool, b: Bits)
    requires Width(a) == Width(b)
    ensures Xor(ShiftIn(x, a), ShiftIn(y, b)) == ShiftIn(x != y, Xor(a, b))
    decreases a
  {
    match a
    case Top =>
    case Bit(low, high) => XorOfShiftIn(low, high, b.low, b.high);
  }

  lemma {:induction false} XorOfShifted(a: Bits, b: Bits)
    requires Width(a) == Width(b)
    ensures Xor(Shl1(a), Shl1(b)) == Shl1(Xor(a, b))
  {
    XorOfShiftIn(false, a, false, b);
  }

  lemma {:induction false} PassesShiftIn(x: bool, a: Bits, y: bool, mask: Bits)
    requires a != Top && Width(a) == Width(mask) && TopBitClear(mask)
    ensures Passes(ShiftIn(x, a), ShiftIn(y, mask)) <==> !(x && y) && Passes(a, mask)
    decreases a
  {
    if !a.high.Top? {
      PassesShiftIn(a.low, a.high, mask.low, mask.high);
    }
  }

  /** A shifted mask with a clear top bit tests the same bits of a shifted word. */
  lemma {:induction false} PassesShifted(x: Bits, mask: Bits)
    requires Width(x) == Width(mask) && TopBitClear(mask)
    ensures Passes(Shl1(x), Shl1(mask)) == Passes(x, mask)
  {
    if x != Top {
      PassesShiftIn(false, x, false, mask);
    }
  }

  lemma {:induction false} XorSelfPasses(x: Bits, mask: Bits)
    requires Width(x) == Width(mask)
    ensures Passes(Xor(x, x), mask)
  {
    if x != Top {
      XorSelfPasses(x.high, mask.high);
    }
  }

  function Zero(width: nat): (w: Bits)
    ensures Width(w) == width
  {
    if width == 0 then Top else Bit(false, Zero(width - 1))
  }

  lemma {:induction false} AddZero(width: nat, b: Bits)
    requires Width(b) == width
    ensures AddCarry(Zero(width), b, false) == b
  {
    match b
    case Top =>
    case Bit(low, high) =>
      AddZero(width - 1, high);
      assert Zero(width) == Bit(false, Zero(width - 1));
  }

  lemma {:induction false} ShiftZero(width: nat)
    ensures ShiftIn(false, Zero(width)) == Zero(width)
  {
    if width > 0 {
      ShiftZero(width - 1);
    }
  }
}
