/** 32-bit register words built from single bits, as the ARM32 headers
    build them with `1 << n` and bitwise OR. */
module Bits {

  /** The word whose only set bit is bit `n` (the kernel's `BIT(n)` on a
      32-bit word). */
  function Bit(n: nat): (b: bv32)
    requires n < 32
    ensures b != 0
  {
    1 << n
  }

  /** Two different bit positions never share a set bit. */
  lemma BitsDisjoint(p: nat, q: nat)
    requires p < 32 && q < 32 && p != q
    ensures Bit(p) & Bit(q) == 0
  {
  }

  /** The bitwise OR of `bit(x)` over every `x` in `xs`: the register value
      a caller composes from a list of named flags. */
  function OrBits<T>(xs: seq<T>, bit: T -> bv32): bv32
  {
    if xs == [] then 0 else bit(xs[0]) | OrBits(xs[1..], bit)
  }

  /** Masking an OR with a word disjoint from one operand drops that operand. */
  lemma OrMaskDisjoint(a: bv32, r: bv32, b: bv32)
    requires a & b == 0
    ensures (a | r) & b == r & b
  {
  }

  /** A bit of `b` that survives masking one operand survives masking the OR. */
  lemma OrMaskKeeps(a: bv32, r: bv32, b: bv32)
    requires r & b != 0
    ensures (a | r) & b != 0
  {
  }

  /** Masking an OR with one of its nonzero operands leaves a nonzero word. */
  lemma OrMaskSelf(a: bv32, r: bv32)
    requires a != 0
    ensures (a | r) & a != 0
  {
  }

  /** The first flag of the list reads as set. */
  lemma OrBitsHead<T>(xs: seq<T>, bit: T -> bv32)
    requires 0 < |xs|
    requires bit(xs[0]) != 0
    ensures OrBits(xs, bit) & bit(xs[0]) != 0
  {
    OrMaskSelf(bit(xs[0]), OrBits(xs[1..], bit));
  }

  /** A flag set in the word of the tail stays set in the word of the list. */
  lemma OrBitsTail<T>(xs: seq<T>, bit: T -> bv32, i: nat)
    requires 0 < i < |xs|
    requires OrBits(xs[1..], bit) & bit(xs[i]) != 0
    ensures OrBits(xs, bit) & bit(xs[i]) != 0
  {
    OrMaskKeeps(bit(xs[0]), OrBits(xs[1..], bit), bit(xs[i]));
  }

  /** The flag at any position of the list reads as set. */
  lemma {:induction false} OrBitsPresent<T>(xs: seq<T>, bit: T -> bv32, i: nat)
    requires i < |xs|
    requires bit(xs[i]) != 0
    ensures OrBits(xs, bit) & bit(xs[i]) != 0
  {
    if i == 0 {
      OrBitsHead(xs, bit);
    } else {
      assert xs[1..][i - 1] == xs[i];
      OrBitsPresent(xs[1..], bit, i - 1);
      OrBitsTail(xs, bit, i);
    }
  }

  /** A flag that was not ORed in reads as clear, provided every other flag
      keeps off its bits. */
  lemma {:induction false} OrBitsAbsent<T>(xs: seq<T>, bit: T -> bv32, y: T)
    requires forall a | a != y :: bit(a) & bit(y) == 0
    requires y !in xs
    ensures OrBits(xs, bit) & bit(y) == 0
  {
    if xs != [] {
      OrBitsAbsent(xs[1..], bit, y);
      OrMaskDisjoint(bit(xs[0]), OrBits(xs[1..], bit), bit(y));
    }
  }

  /** Flags are tested independently: when the other flags keep off the
      bits of flag `y`, it is present in the composed word exactly when it
      is one of the flags that were ORed in. */
  lemma OrBitsTest<T>(xs: seq<T>, bit: T -> bv32, y: T)
    requires forall a | a != y :: bit(a) & bit(y) == 0
    requires bit(y) != 0
    ensures (OrBits(xs, bit) & bit(y) != 0) <==> y in xs
  {
    if y in xs {
      var i :| 0 <= i < |xs| && xs[i] == y;
      OrBitsPresent(xs, bit, i);
    } else {
      OrBitsAbsent(xs, bit, y);
    }
  }

  /** A composed word stays inside `mask` when every flag does. */
  lemma {:induction false} OrBitsWithin<T>(xs: seq<T>, bit: T -> bv32, mask: bv32)
    requires forall i | 0 <= i < |xs| :: bit(xs[i]) & !mask == 0
    ensures OrBits(xs, bit) & !mask == 0
  {
    if xs != [] {
      OrBitsWithin(xs[1..], bit, mask);
    }
  }

}
