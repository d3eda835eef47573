/**
 * Java's 32-bit `int` arithmetic: results wrap modulo 2^32, `Math.abs` of the smallest
 * value is that value again, and `/` truncates toward zero.
 */
module JavaInt {
  type Int32 = x: int | -0x8000_0000 <= x < 0x8000_0000

  /** The `int` that Java stores for the mathematical value x. */
  function Wrap(x: int): (r: Int32)
    ensures (x - r) % 0x1_0000_0000 == 0
  {
    (x + 0x8000_0000) % 0x1_0000_0000 - 0x8000_0000
  }

  lemma WrapInRange(x: int)
    requires -0x8000_0000 <= x < 0x8000_0000
    ensures Wrap(x) == x
  {
  }

  /** The three cases of `Wrap` on the difference or sum of two `int`s. */
  lemma WrapCases(x: int)
    requires -0x1_0000_0000 < x < 0x1_0000_0000
    ensures x < -0x8000_0000 ==> Wrap(x) == x + 0x1_0000_0000
    ensures -0x8000_0000 <= x < 0x8000_0000 ==> Wrap(x) == x
    ensures 0x8000_0000 <= x ==> Wrap(x) == x - 0x1_0000_0000
  {
  }

  /** `Math.abs(int)`. */
  function Abs(v: Int32): Int32 {
    if v < 0 then Wrap(-(v as int)) else v
  }

  /** `v / 2` on `int`: rounds toward zero. */
  function Half(v: Int32): Int32 {
    if v >= 0 then v / 2 else -((-(v as int)) / 2)
  }

  /** `Math.abs(a - b)` is symmetric in a and b, overflow included. */
  lemma AbsDiffSymmetric(a: Int32, b: Int32)
    ensures Abs(Wrap(a - b)) == Abs(Wrap(b - a))
  {
    WrapCases(a - b);
    WrapCases(b - a);
    var d := Wrap(a - b);
    WrapCases(-(d as int));
    var e := Wrap(b - a);
    WrapCases(-(e as int));
  }
}
