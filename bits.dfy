/**
 * Single-bit operations on a 16-bit timer register, as the timer layer writes
 * them in C: `r |= 1 << i`, `r &= ~(1 << i)`, `r ^= 1 << i` and `(r & (1 << i)) != 0`.
 * A bit index is a `bv4`, which holds exactly the sixteen positions of a register.
 * Each update is characterised by what it does to bit `i` and by the fact that
 * every other bit keeps its value.
 */
module Bits {

  /** The mask `1 << i`. */
  function Bit(i: bv4): (m: bv16)
  {
    1 << i
  }

  /** Whether bit `i` of `x` is set. */
  predicate TestBit(x: bv16, i: bv4)
  {
    x & Bit(i) != 0
  }

  /** `x | (1 << i)`: bit `i` becomes set, every other bit is kept. */
  function SetBit(x: bv16, i: bv4): (r: bv16)
    ensures TestBit(r, i)
    ensures forall j: bv4 :: j != i ==> (TestBit(r, j) <==> TestBit(x, j))
  {
    x | Bit(i)
  }

  /** `x & ~(1 << i)`: bit `i` becomes clear, every other bit is kept. */
  function ClearBit(x: bv16, i: bv4): (r: bv16)
    ensures !TestBit(r, i)
    ensures forall j: bv4 :: j != i ==> (TestBit(r, j) <==> TestBit(x, j))
  {
    x & !Bit(i)
  }

  /** `x ^ (1 << i)`: bit `i` flips, every other bit is kept. */
  function ToggleBit(x: bv16, i: bv4): (r: bv16)
    ensures TestBit(r, i) <==> !TestBit(x, i)
    ensures forall j: bv4 :: j != i ==> (TestBit(r, j) <==> TestBit(x, j))
  {
    x ^ Bit(i)
  }

  /** Bit `j` of `x & y` is set exactly when it is set in both `x` and `y`. */
  lemma AndBit(x: bv16, y: bv16, j: bv4)
    ensures TestBit(x & y, j) <==> TestBit(x, j) && TestBit(y, j)
  {
  }

  /** `x & y`: a bit is set exactly when it is set in both operands. */
  function And(x: bv16, y: bv16): (r: bv16)
    ensures forall j: bv4 :: TestBit(r, j) <==> TestBit(x, j) && TestBit(y, j)
  {
    forall j: bv4
      ensures TestBit(x & y, j) <==> TestBit(x, j) && TestBit(y, j)
    {
      AndBit(x, y, j);
    }
    x & y
  }

  /** Setting a bit and then clearing it gives the original value with that bit clear. */
  lemma ClearAfterSet(x: bv16, i: bv4)
    ensures ClearBit(SetBit(x, i), i) == ClearBit(x, i)
  {
  }

  /** Flipping the same bit twice restores the value: XOR is an involution. */
  lemma ToggleTwice(x: bv16, i: bv4)
    ensures ToggleBit(ToggleBit(x, i), i) == x
  {
  }
}
