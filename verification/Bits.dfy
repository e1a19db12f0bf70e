/** The bit operators on non-negative words, bit by bit, and what masks of whole bytes do. */
module Bits {

  /** x & y */
  function And(x: nat, y: nat): nat {
    if x == 0 then 0 else 2 * And(x / 2, y / 2) + if x % 2 == 1 && y % 2 == 1 then 1 else 0
  }

  /** x | y */
  function Or(x: nat, y: nat): nat {
    if x == 0 then y else 2 * Or(x / 2, y / 2) + if x % 2 == 1 || y % 2 == 1 then 1 else 0
  }

  /** x << k: k doublings. */
  function Shl(x: nat, k: nat): nat
    decreases k
  {
    if k == 0 then x else 2 * Shl(x, k - 1)
  }

  /** x >> k: k halvings, rounding down as an arithmetic shift does. */
  function Shr(x: int, k: nat): int
    decreases k
  {
    if k == 0 then x else Shr(x, k - 1) / 2
  }

  lemma AndBit(x: nat, y: nat)
    ensures And(x, y) == 2 * And(x / 2, y / 2) + And(x % 2, y % 2)
  {
  }

  lemma OrBit(x: nat, y: nat)
    ensures Or(x, y) == 2 * Or(x / 2, y / 2) + Or(x % 2, y % 2)
  {
  }

  lemma AndPair(x: nat, y: nat)
    ensures And(x, y) == 4 * And(x / 4, y / 4) + And(x % 4, y % 4)
  {
    hide And;
    AndBit(x, y);
    AndBit(x / 2, y / 2);
    AndBit(x % 4, y % 4);
    assert x / 2 / 2 == x / 4 && y / 2 / 2 == y / 4 && x % 4 / 2 == x / 2 % 2 && y % 4 / 2 == y / 2 % 2;
    assert x % 4 % 2 == x % 2 && y % 4 % 2 == y % 2;
  }

  lemma AndNibble(x: nat, y: nat)
    ensures And(x, y) == 16 * And(x / 16, y / 16) + And(x % 16, y % 16)
  {
    hide And;
    AndPair(x, y);
    AndPair(x / 4, y / 4);
    AndPair(x % 16, y % 16);
    assert x / 4 / 4 == x / 16 && y / 4 / 4 == y / 16 && x % 16 / 4 == x / 4 % 4 && y % 16 / 4 == y / 4 % 4;
    assert x % 16 % 4 == x % 4 && y % 16 % 4 == y % 4;
  }

  lemma AndByte(x: nat, y: nat)
    ensures And(x, y) == 0x100 * And(x / 0x100, y / 0x100) + And(x % 0x100, y % 0x100)
  {
    hide And;
    AndNibble(x, y);
    AndNibble(x / 16, y / 16);
    AndNibble(x % 0x100, y % 0x100);
    assert x / 16 / 16 == x / 0x100 && y / 16 / 16 == y / 0x100;
    assert x % 0x100 / 16 == x / 16 % 16 && y % 0x100 / 16 == y / 16 % 16;
    assert x % 0x100 % 16 == x % 16 && y % 0x100 % 16 == y % 16;
  }

  lemma OrPair(x: nat, y: nat)
    ensures Or(x, y) == 4 * Or(x / 4, y / 4) + Or(x % 4, y % 4)
  {
    hide Or;
    OrBit(x, y);
    OrBit(x / 2, y / 2);
    OrBit(x % 4, y % 4);
    assert x / 2 / 2 == x / 4 && y / 2 / 2 == y / 4 && x % 4 / 2 == x / 2 % 2 && y % 4 / 2 == y / 2 % 2;
    assert x % 4 % 2 == x % 2 && y % 4 % 2 == y % 2;
  }

  lemma OrNibble(x: nat, y: nat)
    ensures Or(x, y) == 16 * Or(x / 16, y / 16) + Or(x % 16, y % 16)
  {
    hide Or;
    OrPair(x, y);
    OrPair(x / 4, y / 4);
    OrPair(x % 16, y % 16);
    assert x / 4 / 4 == x / 16 && y / 4 / 4 == y / 16 && x % 16 / 4 == x / 4 % 4 && y % 16 / 4 == y / 4 % 4;
    assert x % 16 % 4 == x % 4 && y % 16 % 4 == y % 4;
  }

  lemma OrByte(x: nat, y: nat)
    ensures Or(x, y) == 0x100 * Or(x / 0x100, y / 0x100) + Or(x % 0x100, y % 0x100)
  {
    hide Or;
    OrNibble(x, y);
    OrNibble(x / 16, y / 16);
    OrNibble(x % 0x100, y % 0x100);
    assert x / 16 / 16 == x / 0x100 && y / 16 / 16 == y / 0x100;
    assert x % 0x100 / 16 == x / 16 % 16 && y % 0x100 / 16 == y / 16 % 16;
    assert x % 0x100 % 16 == x % 16 && y % 0x100 % 16 == y % 16;
  }

  /** A byte of ones keeps a byte, a byte of zeros clears it. */
  lemma {:induction false} Ones(z: nat, ones: nat)
    requires z <= ones && ones in {0, 1, 3, 7, 15, 31, 63, 127, 255}
    ensures And(z, ones) == z
  {
    if ones > 0 {
      Ones(z / 2, ones / 2);
    }
  }

  lemma {:induction false} Zeros(x: nat)
    ensures And(x, 0) == 0 && Or(x, 0) == x && Or(0, x) == x
  {
    if x > 0 {
      Zeros(x / 2);
    }
  }

  /** A mask of ones keeps the low byte, or the two low bytes. */
  lemma LowBytes(x: nat)
    ensures And(x, 0xFF) == x % 0x100
    ensures And(x, 0xFFFF) == x % 0x1_0000
  {
    hide And, Or;
    AndByte(x, 0xFF);
    Ones(x % 0x100, 0xFF);
    Zeros(x / 0x100);
    AndByte(x, 0xFFFF);
    AndByte(x / 0x100, 0xFF);
    Ones(x / 0x100 % 0x100, 0xFF);
    Zeros(x / 0x100 / 0x100);
    assert x % 0x1_0000 == x / 0x100 % 0x100 * 0x100 + x % 0x100;
  }

  /** Below the bits of the other word, or is plus. */
  lemma OrAdds(a: nat, b: nat)
    requires b < 0x1_0000
    ensures Or(a * 0x1_0000, b) == a * 0x1_0000 + b
  {
    hide Or;
    OrByte(a * 0x1_0000, b);
    OrByte(a * 0x100, b / 0x100);
    Zeros(b % 0x100);
    Zeros(b / 0x100);
    Zeros(a);
    assert a * 0x1_0000 / 0x100 == a * 0x100 && a * 0x1_0000 % 0x100 == 0;
    assert a * 0x100 / 0x100 == a && a * 0x100 % 0x100 == 0;
    assert b / 0x100 / 0x100 == 0 && b / 0x100 % 0x100 == b / 0x100;
  }

  lemma Shifts8(x: int)
    ensures Shr(x, 8) == x / 0x100
    ensures x >= 0 ==> Shl(x, 8) == x * 0x100
  {
    assert Shr(x, 3) == x / 8;
    assert Shr(x, 6) == x / 64;
    assert x >= 0 ==> Shl(x, 3) == x * 8;
    assert x >= 0 ==> Shl(x, 6) == x * 64;
  }

  lemma Shifts16(x: int)
    ensures Shr(x, 16) == x / 0x1_0000
    ensures x >= 0 ==> Shl(x, 16) == x * 0x1_0000
  {
    Shifts8(x);
    assert Shr(x, 11) == x / 0x800;
    assert Shr(x, 14) == x / 0x4000;
    assert x >= 0 ==> Shl(x, 11) == x * 0x800;
    assert x >= 0 ==> Shl(x, 14) == x * 0x4000;
  }

  lemma Shifts24(x: int)
    ensures Shr(x, 24) == x / 0x100_0000
    ensures x >= 0 ==> Shl(x, 24) == x * 0x100_0000
  {
    Shifts16(x);
    assert Shr(x, 19) == x / 0x8_0000;
    assert Shr(x, 22) == x / 0x40_0000;
    assert x >= 0 ==> Shl(x, 19) == x * 0x8_0000;
    assert x >= 0 ==> Shl(x, 22) == x * 0x40_0000;
  }
}
