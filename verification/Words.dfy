/** 32-bit words.  The primitives are named so that a proof that does not depend
    on their bits can hide them. */
module Words {
  type Word = bv32

  // --- Arithmetic, modulo 2^32 ----------------------------------------------

  function Plus(a: Word, b: Word): Word { a + b }
  function Minus(a: Word, b: Word): Word { a - b }
  function ShiftLeft(x: Word, n: bv5): Word { x << n }
  function ShiftRight(x: Word, n: bv5): Word { x >> n }
  function Invert(x: Word): Word { !x }

  // --- Addresses ------------------------------------------------------------

  /** The word-aligned address at or below a. */
  function Align(a: Word): Word { a & 0xfffffffc }
  function ClearBit0(a: Word): Word { a & 0xfffffffe }
  /** Word address of byte address a. */
  function WordOf(a: Word): Word { a >> 2 }
  predicate Aligned(a: Word) { a & 3 == 0 }
  predicate Bit1(a: Word) { a & 2 != 0 }
  predicate Bit31(x: Word) { x & 0x80000000 != 0 }

  // --- What they compute ------------------------------------------------------

  lemma PlusCounts(a: Word, b: Word)
    ensures Plus(a, 0) == a && Plus(a, b + 1) == Plus(a, b) + 1
  {}

  lemma MinusCounts(a: Word, b: Word)
    ensures Minus(a, 0) == a && Minus(a, b + 1) == Minus(a, b) - 1
  {}

  lemma InvertComplements(x: Word)
    ensures Invert(x) & x == 0 && Invert(x) | x == 0xffffffff
  {}

  lemma AlignRounds(a: Word)
    ensures Aligned(Align(a)) && Align(a) | (a & 3) == a
  {}

  lemma EvenRounds(a: Word)
    ensures ClearBit0(a) & 1 == 0 && ClearBit0(a) | (a & 1) == a
  {}
}
