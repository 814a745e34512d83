/**
 * Unsigned 32-bit words as the C sources use them (u32): addition wraps
 * around modulo 2^32 and the bitwise operators work bit by bit on the
 * 32-bit pattern.
 */
module Word {

  newtype u32 = x: int | 0 <= x < 0x1_0000_0000

  /** 2^n. */
  function Pow2(n: nat): nat {
    if n == 0 then 1 else 2 * Pow2(n - 1)
  }

  /** The low n bits of a and b combined bit by bit with `and` (both true) or `or` (either true). */
  function Bitwise(a: nat, b: nat, n: nat, both: bool): (r: nat)
    ensures r < Pow2(n)
  {
    if n == 0 then 0
    else
      var lo := if both then a % 2 == 1 && b % 2 == 1 else a % 2 == 1 || b % 2 == 1;
      2 * Bitwise(a / 2, b / 2, n - 1, both) + (if lo then 1 else 0)
  }

  /** Powers of two multiply by adding exponents. */
  lemma {:induction false} Pow2Add(a: nat, b: nat)
    ensures Pow2(a + b) == Pow2(a) * Pow2(b)
  {
    if a > 0 {
      Pow2Add(a - 1, b);
    }
  }

  /** The number of u32 values. */
  lemma Pow2Of32()
    ensures Pow2(32) == 0x1_0000_0000
  {
    assert Pow2(4) == 16;
    Pow2Add(4, 4);
    Pow2Add(8, 8);
    Pow2Add(16, 16);
  }

  /** C's u32 addition, which wraps around. */
  function Add32(a: u32, b: u32): u32 {
    ((a as int + b as int) % 0x1_0000_0000) as u32
  }

  /** C's bitwise `&` on u32. */
  function And32(a: u32, b: u32): u32 {
    Pow2Of32();
    Bitwise(a as nat, b as nat, 32, true) as u32
  }

  /** C's bitwise `|` on u32. */
  function Or32(a: u32, b: u32): u32 {
    Pow2Of32();
    Bitwise(a as nat, b as nat, 32, false) as u32
  }

  /** And-ing with n one bits keeps a value below 2^n. */
  lemma {:induction false} AndOnes(x: nat, n: nat)
    requires x < Pow2(n)
    ensures Bitwise(x, Pow2(n) - 1, n, true) == x
  {
    if n > 0 {
      AndOnes(x / 2, n - 1);
    }
  }

  /** Masking with all 32 bits set keeps a word. */
  lemma AndAllOnes(x: u32)
    ensures And32(x, 0xFFFF_FFFF) == x
  {
    Pow2Of32();
    AndOnes(x as nat, 32);
  }
}
