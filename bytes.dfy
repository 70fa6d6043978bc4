/** Fixed-width machine integers shared by the register file and the memory bus.
    Both are modelled as bounded subsets of `int`; every wrap-around the C++
    `uint8_t`/`uint16_t` arithmetic performs is written out explicitly. */
module Bytes {

  /** A `uint8_t`. */
  type byte = x: int | 0 <= x < 0x100

  /** A `uint16_t`: a register pair, PC, SP or a bus address. */
  type word = x: int | 0 <= x < 0x1_0000

  /** Number of distinct 16-bit values. */
  const WordModulus: int := 0x1_0000

  /** `++w` / `w++` on a `uint16_t`: 0xFFFF wraps to 0x0000. */
  function Inc16(w: word): (r: word)
    ensures w < 0xFFFF ==> r == w + 1
    ensures w == 0xFFFF ==> r == 0
  {
    (w + 1) % WordModulus
  }

  /** `--w` / `w--` on a `uint16_t`: 0x0000 wraps to 0xFFFF. */
  function Dec16(w: word): (r: word)
    ensures w > 0 ==> r == w - 1
    ensures w == 0 ==> r == 0xFFFF
  {
    (w + WordModulus - 1) % WordModulus
  }

  /** Decrementing undoes incrementing, modulo 2^16. */
  lemma IncDecInverse(w: word)
    ensures Dec16(Inc16(w)) == w && Inc16(Dec16(w)) == w
  {
  }
}

/** An optional value, used where the C++ code would throw or has nothing to return. */
module Options {
  datatype Option<T> = None | Some(value: T)
}
