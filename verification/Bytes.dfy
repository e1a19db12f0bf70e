/** Bytes, big-endian integers, and the bytewise order RocksDB compares keys with. */
module Bytes {

  type byte = x: int | 0 <= x < 256

  const TWO_32 := 0x1_0000_0000
  const TWO_63 := 0x8000_0000_0000_0000
  const TWO_64 := 0x1_0000_0000_0000_0000

  type int64 = x: int | -TWO_63 <= x < TWO_63

  datatype Option<+T> = None | Some(value: T)

  function Pow256(k: nat): (r: nat)
    ensures r > 0
  {
    if k == 0 then 1 else 256 * Pow256(k - 1)
  }

  lemma Pow256Values()
    ensures Pow256(4) == TWO_32 && Pow256(8) == TWO_64
  {
    assert Pow256(2) == 0x1_0000;
    assert Pow256(4) == TWO_32;
    assert Pow256(6) == 0x1_0000_0000_0000;
  }

  /** The k low bytes of x, most significant first. */
  function BE(k: nat, x: nat): (s: seq<byte>)
    ensures |s| == k
  {
    if k == 0 then [] else BE(k - 1, x / 256) + [x % 256]
  }

  /** What writeBE<int32_t> puts on the wire for the 32-bit word x. */
  function BE32(x: nat): (s: seq<byte>)
    ensures |s| == 4
  {
    BE(4, x)
  }

  /** What writeBE<int64_t> puts on the wire for a signed 64-bit integer. */
  function BE64(x: int64): (s: seq<byte>)
    ensures |s| == 8
  {
    BE(8, U64(x))
  }

  function FromBE(s: seq<byte>): nat {
    if s == [] then 0 else FromBE(s[..|s| - 1]) * 256 + s[|s| - 1]
  }

  /** Reading back k written bytes gives the number again, if it fits in them. */
  lemma {:induction false} BERoundTrip(k: nat, x: nat)
    requires x < Pow256(k)
    ensures FromBE(BE(k, x)) == x
  {
    if k > 0 {
      BERoundTrip(k - 1, x / 256);
      assert BE(k, x)[..k - 1] == BE(k - 1, x / 256);
    }
  }

  /** Conversely, every byte string is the encoding of the number read from it. */
  lemma {:induction false} FromBERoundTrip(s: seq<byte>)
    ensures FromBE(s) < Pow256(|s|) && BE(|s|, FromBE(s)) == s
  {
    if s != [] {
      var init := s[..|s| - 1];
      FromBERoundTrip(init);
      assert FromBE(s) / 256 == FromBE(init);
      assert s == init + [s[|s| - 1]];
    }
  }

  /** memcmp order, a proper prefix being smaller. */
  predicate LexLess(a: seq<byte>, b: seq<byte>) {
    b != [] && (a == [] || a[0] < b[0] || (a[0] == b[0] && LexLess(a[1..], b[1..])))
  }

  lemma {:induction false} LexConcat(a: seq<byte>, b: seq<byte>, c: seq<byte>, d: seq<byte>)
    requires |a| == |b|
    ensures LexLess(a + c, b + d) <==> LexLess(a, b) || (a == b && LexLess(c, d))
  {
    if a == [] {
      assert a + c == c && b + d == d;
    } else {
      LexConcat(a[1..], b[1..], c, d);
      assert (a + c)[1..] == a[1..] + c && (b + d)[1..] == b[1..] + d;
      assert a == b <==> a[0] == b[0] && a[1..] == b[1..] by {
        assert a == [a[0]] + a[1..] && b == [b[0]] + b[1..];
      }
    }
  }

  /** Big-endian encodings compare bytewise as the numbers do. */
  lemma {:induction false} LexOrderIsNumeric(k: nat, x: nat, y: nat)
    requires x < Pow256(k) && y < Pow256(k)
    ensures LexLess(BE(k, x), BE(k, y)) <==> x < y
    ensures BE(k, x) == BE(k, y) <==> x == y
  {
    BERoundTrip(k, x);
    BERoundTrip(k, y);
    if k > 0 {
      LexOrderIsNumeric(k - 1, x / 256, y / 256);
      LexConcat(BE(k - 1, x / 256), BE(k - 1, y / 256), [x % 256], [y % 256]);
      assert LexLess([x % 256], [y % 256]) <==> x % 256 < y % 256;
    }
  }

  /** Two's complement: the unsigned word a signed integer is stored as. */
  function U64(x: int64): (u: nat)
    ensures u < TWO_64 && (u == x || u == x + TWO_64)
  {
    if x < 0 then x + TWO_64 else x
  }

  function S64(u: nat): (x: int64)
    requires u < TWO_64
    ensures U64(x) == u
  {
    if u < TWO_63 then u else u - TWO_64
  }

  function FromBE32(s: seq<byte>): (x: nat)
    requires |s| == 4
    ensures x < TWO_32
  {
    FromBERoundTrip(s);
    Pow256Values();
    FromBE(s)
  }

  function FromBE64(s: seq<byte>): int64
    requires |s| == 8
  {
    FromBERoundTrip(s);
    Pow256Values();
    S64(FromBE(s))
  }

  /** The order of the four bytes, both ways. */
  lemma BigEndian32(x: nat, s: seq<byte>)
    requires x < TWO_32 && |s| == 4
    ensures BE32(x) == [x / 0x100_0000, x / 0x1_0000 % 0x100, x / 0x100 % 0x100, x % 0x100]
    ensures var a: int, b: int, c: int, d: int := s[0], s[1], s[2], s[3];
      FromBE32(s) == a * 0x100_0000 + b * 0x1_0000 + c * 0x100 + d
  {
    assert x / 0x100 / 0x100 == x / 0x1_0000 && x / 0x1_0000 / 0x100 == x / 0x100_0000;
    assert BE(1, x / 0x100_0000) == [x / 0x100_0000];
    assert BE(2, x / 0x1_0000) == [x / 0x100_0000, x / 0x1_0000 % 0x100];
    assert BE(3, x / 0x100) == [x / 0x100_0000, x / 0x1_0000 % 0x100, x / 0x100 % 0x100];
    var one, two, three := s[..1], s[..2], s[..3];
    assert three[..2] == two && two[..1] == one && one[..0] == [];
    var a: int, b: int, c: int := s[0], s[1], s[2];
    assert FromBE(one) == a;
    assert FromBE(two) == a * 0x100 + b;
    assert FromBE(three) == a * 0x1_0000 + b * 0x100 + c;
  }

  lemma RoundTrip32(x: nat)
    requires x < TWO_32
    ensures FromBE32(BE32(x)) == x
  {
    Pow256Values();
    BERoundTrip(4, x);
  }

  lemma RoundTrip64(x: int64)
    ensures FromBE64(BE64(x)) == x
  {
    Pow256Values();
    BERoundTrip(8, U64(x));
  }

  /** lo, lo + 1, ..., hi - 1 */
  function Range(lo: nat, hi: nat): (s: seq<nat>)
    requires lo <= hi
    ensures |s| == hi - lo && forall i :: 0 <= i < |s| ==> s[i] == lo + i
  {
    seq(hi - lo, i requires 0 <= i => lo + i)
  }
}
