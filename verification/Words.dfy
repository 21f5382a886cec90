/**
 * 32-bit two's-complement words and the arithmetic that the source language, the
 * intermediate representation and the target machine share.
 */
module Words {
  const TWO_32: int := 0x1_0000_0000

  type Word = x: int | -0x8000_0000 <= x < 0x8000_0000

  datatype Option<+T> = None | Some(value: T)

  /** The word congruent to x modulo 2^32. */
  function Wrap(x: int): (w: Word)
    ensures (w - x) % TWO_32 == 0
    ensures -0x8000_0000 <= x < 0x8000_0000 ==> w == x
  {
    var m := x % TWO_32;
    if m < 0x8000_0000 then m else m - TWO_32
  }

  /** The unsigned reading of a word, as `uint32_t` sees it. */
  function Unsigned(x: Word): (u: nat)
    ensures u < TWO_32
  {
    if x < 0 then x + TWO_32 else x
  }

  function Bool(b: bool): Word { if b then 1 else 0 }

  /** Division rounding toward zero, as C11 (6.5.5) and RISC-V divide. */
  function TruncDiv(a: int, b: int): int
    requires b != 0
  {
    var q := (if a < 0 then -a else a) / (if b < 0 then -b else b);
    if (a < 0) == (b < 0) then q else -q
  }

  /** DIV of section 7.2 of the RISC-V Unprivileged ISA: -1 on a zero divisor, wrapping on overflow. */
  function Div(a: Word, b: Word): Word
  {
    if b == 0 then -1 else Wrap(TruncDiv(a, b))
  }

  /** REM of section 7.2 of the RISC-V Unprivileged ISA: the dividend on a zero divisor. */
  function Rem(a: Word, b: Word): Word
  {
    if b == 0 then a else Wrap(a - TruncDiv(a, b) * b)
  }

  /** Combines the low n bits of a and b, bit by bit. */
  function Bits(f: (bool, bool) -> bool, a: nat, b: nat, n: nat): nat
  {
    if n == 0 then 0
    else (if f(a % 2 == 1, b % 2 == 1) then 1 else 0) + 2 * Bits(f, a / 2, b / 2, n - 1)
  }

  function Xor(a: Word, b: Word): Word { Wrap(Bits((x, y) => x != y, Unsigned(a), Unsigned(b), 32)) }

  function Pow2(n: nat): nat { if n == 0 then 1 else 2 * Pow2(n - 1) }

  lemma {:induction false} BitsXorZero(f: (bool, bool) -> bool, a: nat, b: nat, n: nat)
    requires forall x, y :: f(x, y) == (x != y)
    requires a < Pow2(n) && b < Pow2(n)
    ensures Bits(f, a, b, n) < Pow2(n)
    ensures Bits(f, a, b, n) == 0 <==> a == b
  {
    if n > 0 {
      BitsXorZero(f, a / 2, b / 2, n - 1);
    }
  }

  lemma Pow2At32()
    ensures Pow2(32) == TWO_32
  {
    assert Pow2(8) == 0x100;
    assert Pow2(16) == 0x1_0000;
    assert Pow2(24) == 0x100_0000;
  }

  /** The bitwise difference of two words is zero exactly when they are equal: what `xor` followed by
      `seqz`/`snez` relies on. */
  lemma XorIsZero(a: Word, b: Word)
    ensures Xor(a, b) == 0 <==> a == b
  {
    Pow2At32();
    BitsXorZero((x, y) => x != y, Unsigned(a), Unsigned(b), 32);
  }
}
