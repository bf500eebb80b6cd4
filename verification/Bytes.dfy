/** Octets and machine words shared by every module. */
module Bytes {

  type byte = x: int | 0 <= x < 256

  /** The number of values of `size_t` and `uint64_t`. */
  const WORD: nat := 0x1_0000_0000_0000_0000

  type word = x: int | 0 <= x < WORD

  /** `session_options.max_message_length` is a 32-bit field. */
  type uint32 = x: int | 0 <= x < 0x1_0000_0000

  /** Unsigned 64-bit arithmetic is taken modulo the word. */
  function Wrap(x: int): word {
    x % WORD
  }

  function Pow2(k: nat): (p: nat)
    ensures p > 0
  {
    if k == 0 then 1 else 2 * Pow2(k - 1)
  }

  /** Exclusive or of the `k` low bits. */
  function XorLow(a: nat, b: nat, k: nat): (r: nat)
    ensures r < Pow2(k)
  {
    if k == 0 then 0 else (if a % 2 == b % 2 then 0 else 1) + 2 * XorLow(a / 2, b / 2, k - 1)
  }

  /** The `^` of two octets. */
  function Xor(a: byte, b: byte): byte {
    assert Pow2(8) == 256;
    XorLow(a, b, 8)
  }

  lemma {:induction false} XorLowUndoes(a: nat, b: nat, k: nat)
    requires a < Pow2(k)
    ensures XorLow(XorLow(a, b, k), b, k) == a
  {
    if k > 0 {
      var r := XorLow(a, b, k);
      assert r / 2 == XorLow(a / 2, b / 2, k - 1) && (r % 2 == 0 <==> a % 2 == b % 2);
      XorLowUndoes(a / 2, b / 2, k - 1);
    }
  }

  /** The `k`-th binary digit. */
  function Digit(a: nat, k: nat): nat {
    if k == 0 then a % 2 else Digit(a / 2, k - 1)
  }

  /** Digit by digit, the exclusive or is one exactly where the two differ. */
  lemma {:induction false} XorLowDigit(a: nat, b: nat, k: nat, i: nat)
    requires i < k
    ensures Digit(XorLow(a, b, k), i) == if Digit(a, i) == Digit(b, i) then 0 else 1
    decreases k
  {
    var r := XorLow(a, b, k);
    assert r / 2 == XorLow(a / 2, b / 2, k - 1) && r % 2 == if a % 2 == b % 2 then 0 else 1;
    if i > 0 {
      XorLowDigit(a / 2, b / 2, k - 1, i - 1);
    }
  }

  lemma XorDigit(a: byte, b: byte, i: nat)
    requires i < 8
    ensures Digit(Xor(a, b), i) == if Digit(a, i) == Digit(b, i) then 0 else 1
  {
    assert Pow2(8) == 256;
    XorLowDigit(a, b, 8, i);
  }

  lemma XorUndoes(a: byte, b: byte)
    ensures Xor(Xor(a, b), b) == a
  {
    assert Pow2(8) == 256;
    XorLowUndoes(a, b, 8);
  }

  lemma {:induction false} XorLowZero(b: nat, k: nat)
    requires b < Pow2(k)
    ensures XorLow(0, b, k) == b
  {
    if k > 0 {
      XorLowZero(b / 2, k - 1);
    }
  }

  lemma XorZero(b: byte)
    ensures Xor(0, b) == b
  {
    assert Pow2(8) == 256;
    XorLowZero(b, 8);
  }
}
