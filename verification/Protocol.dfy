/** Wire constants and the bit-packed packet header of the V2 protocol. The header's fields are
    given in terms of arithmetic, and shown to be the bit expressions of the source. */
module Protocol {
  import opened Bits
  import opened Bytes

  const OP_ADD_ENTRY: int8 := 1
  const OP_READ_ENTRY: int8 := 2

  const ERROR_OK: int8 := 0
  const ERROR_IO: int8 := 101

  const MASTER_KEY_LENGTH := 20
  const MAX_FRAME_SIZE := 5 * 1024 * 1024

  type int8 = x: int | -0x80 <= x < 0x80
  type int16 = x: int | -0x8000 <= x < 0x8000
  type int32 = x: int | -0x8000_0000 <= x < 0x8000_0000

  datatype PacketHeader = PacketHeader(version: int8, opCode: int8, flags: int16)

  /** flags & DoFencing, the lowest bit; flags & Recovery, the next one. */
  predicate IsFencing(flags: int16) { flags % 2 == 1 }

  predicate IsRecovery(flags: int16) { flags / 2 % 2 == 1 }

  /** The narrowing cast to int8 keeps the low 8 bits. */
  function ToInt8(x: int): (r: int8)
    ensures (r - x) % 0x100 == 0
  {
    if x % 0x100 < 0x80 then x % 0x100 else x % 0x100 - 0x100
  }

  /** The unsigned word a 32-bit int is written as, and the int a word is read as. */
  function U32(x: int32): (u: nat)
    ensures u < TWO_32 && (u == x || u == x + TWO_32)
  {
    if x < 0 then x + TWO_32 else x
  }

  function S32(u: nat): (x: int32)
    requires u < TWO_32
    ensures U32(x) == u
  {
    if u < 0x8000_0000 then u else u - TWO_32
  }

  function FromInt(value: int32): PacketHeader {
    PacketHeader(ToInt8(value / 0x100_0000), ToInt8(value / 0x1_0000 % 0x100), value % 0x100)
  }

  function ToInt(h: PacketHeader): int32 {
    S32((h.version % 0x100) * 0x100_0000 + (h.opCode % 0x100) * 0x1_0000 + h.flags % 0x1_0000)
  }

  // ---------------------------------------------------------------- the header

  /** The four bytes of a word. */
  lemma FourBytes(u: nat, a: byte, b: byte, c: byte, d: byte)
    requires u == ((a * 0x100 + b) * 0x100 + c) * 0x100 + d
    ensures u / 0x100_0000 == a && u / 0x1_0000 % 0x100 == b && u / 0x100 % 0x100 == c && u % 0x100 == d
    ensures u < TWO_32
  {
    assert u / 0x1_0000 == a * 0x100 + b;
    assert u / 0x100 == (a * 0x100 + b) * 0x100 + c;
  }

  /** Shifting and masking a negative int reads the bytes of its unsigned word. */
  lemma SignedBytes(value: int32)
    ensures value / 0x100_0000 % 0x100 == U32(value) / 0x100_0000
    ensures value / 0x1_0000 % 0x100 == U32(value) / 0x1_0000 % 0x100
    ensures value % 0x100 == U32(value) % 0x100
  {
    var u := U32(value);
    if value < 0 {
      assert value / 0x100_0000 + 0x100 == u / 0x100_0000;
      assert value / 0x1_0000 + 0x1_0000 == u / 0x1_0000;
    }
  }

  /** Decoding masks the flags with 0xFF, encoding with 0xFFFF, so re-encoding a decoded word
      clears exactly its second lowest byte. */
  lemma ToIntFromInt(value: int32)
    ensures U32(ToInt(FromInt(value))) == U32(value) - U32(value) / 0x100 % 0x100 * 0x100
    ensures ToInt(FromInt(value)) == value <==> U32(value) / 0x100 % 0x100 == 0
  {
    SignedBytes(value);
    ToInt8Bits(value / 0x100_0000);
    ToInt8Bits(value / 0x1_0000 % 0x100);
    Recompose(U32(value));
  }

  lemma Masks(x: int32)
    ensures And(U32(x), 0xFF) == x % 0x100 && And(U32(x), 0xFFFF) == x % 0x1_0000
  {
    hide And;
    LowBytes(U32(x));
    assert U32(x) % 0x1_0000 == x % 0x1_0000;
    SameLowByte(U32(x));
    SameLowByte(x);
  }

  /** The same in bits: FromInt and ToInt are the shifts and masks of the source, and decoding
      and encoding again is value & 0xFFFF00FF. */
  lemma HeaderInBits(value: int32, h: PacketHeader)
    ensures FromInt(value)
      == PacketHeader(ToInt8(Shr(value, 24)), ToInt8(And(U32(value / 0x1_0000), 0xFF)), value % 0x100)
    ensures value / 0x1_0000 == Shr(value, 16) && value % 0x100 == And(U32(value), 0xFF)
    ensures U32(ToInt(h))
         == Or(Or(Shl(And(U32(h.version), 0xFF), 24), Shl(And(U32(h.opCode), 0xFF), 16)), And(U32(h.flags), 0xFFFF))
    ensures U32(ToInt(FromInt(value))) == And(U32(value), 0xFFFF_00FF)
  {
    hide And, Or, Shl, Shr, ToInt8;
    Shifts24(value);
    Shifts16(value);
    Masks(value / 0x1_0000);
    Masks(value);
    Joined(h);
    ToIntFromInt(value);
    Cleared(U32(value));
  }

  lemma Joined(h: PacketHeader)
    ensures U32(ToInt(h))
         == Or(Or(Shl(And(U32(h.version), 0xFF), 24), Shl(And(U32(h.opCode), 0xFF), 16)), And(U32(h.flags), 0xFFFF))
  {
    hide And, Or, Shl, Shr;
    Masks(h.version);
    Masks(h.opCode);
    Masks(h.flags);
    var a, b, c := h.version % 0x100, h.opCode % 0x100, h.flags % 0x1_0000;
    Shifts24(a);
    Shifts16(b);
    TopBytes(a, b);
    OrAdds(a * 0x100 + b, c);
  }

  lemma TopBytes(a: nat, b: nat)
    requires b < 0x100
    ensures Or(a * 0x100_0000, b * 0x1_0000) == a * 0x100_0000 + b * 0x1_0000
  {
    hide Or;
    OrByte(a * 0x100_0000, b * 0x1_0000);
    OrAdds(a, b * 0x100);
    Zeros(0);
    assert a * 0x100_0000 / 0x100 == a * 0x1_0000 && b * 0x1_0000 / 0x100 == b * 0x100;
    assert a * 0x100_0000 % 0x100 == 0 && b * 0x1_0000 % 0x100 == 0;
  }

  lemma Cleared(u: nat)
    requires u < TWO_32
    ensures And(u, 0xFFFF_00FF) == u - u / 0x100 % 0x100 * 0x100
  {
    hide And, Or;
    AndByte(u, 0xFFFF_00FF);
    Ones(u % 0x100, 0xFF);
    AndByte(u / 0x100, 0xFF_FF00);
    Zeros(u / 0x100 % 0x100);
    LowBytes(u / 0x100 / 0x100);
    assert u / 0x100 / 0x100 == u / 0x1_0000 < 0x1_0000;
    Recompose(u);
  }

  lemma ToInt8Bits(x: int)
    ensures ToInt8(x) % 0x100 == x % 0x100
  {
  }

  lemma Recompose(u: nat)
    requires u < TWO_32
    ensures u == u / 0x100_0000 * 0x100_0000 + u / 0x1_0000 % 0x100 * 0x1_0000 + u / 0x100 % 0x100 * 0x100 + u % 0x100
  {
    assert u / 0x100 / 0x100 == u / 0x1_0000 && u / 0x1_0000 / 0x100 == u / 0x100_0000;
  }

  /** A header survives the wire except for the high byte of its flags, and the two flags
      the protocol defines survive for every flag word. */
  lemma FromIntToInt(h: PacketHeader)
    ensures FromInt(ToInt(h)) == h.(flags := h.flags % 0x100)
    ensures FromInt(ToInt(h)) == h <==> 0 <= h.flags < 0x100
    ensures IsFencing(FromInt(ToInt(h)).flags) == IsFencing(h.flags)
    ensures IsRecovery(FromInt(ToInt(h)).flags) == IsRecovery(h.flags)
  {
    var v, f := ToInt(h), h.flags % 0x1_0000;
    FourBytes(U32(v), h.version % 0x100, h.opCode % 0x100, f / 0x100, f % 0x100);
    SignedBytes(v);
    LowByteOfFlags(h.flags);
    ByteOfInt8(v / 0x100_0000, h.version);
    ByteOfInt8(v / 0x1_0000 % 0x100, h.opCode);
  }

  lemma ByteOfInt8(x: int, b: int8)
    requires x % 0x100 == b % 0x100
    ensures ToInt8(x) == b
  {
  }

  lemma LowByteOfFlags(flags: int16)
    ensures flags % 0x1_0000 % 0x100 == flags % 0x100
    ensures IsFencing(flags % 0x100) == IsFencing(flags)
    ensures IsRecovery(flags % 0x100) == IsRecovery(flags)
    ensures flags % 0x100 == flags <==> 0 <= flags < 0x100
  {
    var q, d := flags / 0x100, flags % 0x100;
    Halve(0x80 * q, d);
    Halve(0x40 * q, d / 2);
    SameLowByte(flags);
  }

  lemma Halve(k: int, d: int)
    ensures (2 * k + d) % 2 == d % 2 && (2 * k + d) / 2 == k + d / 2
  {
  }

  lemma SameLowByte(x: int)
    ensures x % 0x1_0000 % 0x100 == x % 0x100
  {
    assert x == 0x100 * (0x100 * (x / 0x1_0000)) + x % 0x1_0000;
  }

  /** A header as the 4 bytes writeBE puts on the wire, and back. */
  function HeaderBytes(h: PacketHeader): (s: seq<byte>)
    ensures |s| == 4
  {
    BE32(U32(ToInt(h)))
  }

  function BytesHeader(s: seq<byte>): PacketHeader
    requires |s| == 4
  {
    FromInt(S32(FromBE32(s)))
  }

  lemma HeaderRoundTrip(h: PacketHeader)
    ensures BytesHeader(HeaderBytes(h)) == h.(flags := h.flags % 0x100)
  {
    RoundTrip32(U32(ToInt(h)));
    FromIntToInt(h);
  }

  /** The two flags are the bits of their masks, 1 and 2. */
  lemma FlagsAreBits(flags: int16)
    ensures IsFencing(flags) <==> And(U32(flags), 1) != 0
    ensures IsRecovery(flags) <==> And(U32(flags), 2) != 0
  {
    var u := U32(flags);
    assert u % 2 == flags % 2 && u / 2 % 2 == flags / 2 % 2;
    Zeros(u / 2);
    Zeros(u / 2 / 2);
    AndBit(u, 1);
    AndBit(u, 2);
    AndBit(u / 2, 1);
  }

  /** The bytes of a header: version, operation, and the flags, high byte first. */
  lemma HeaderOnWire(h: PacketHeader)
    ensures HeaderBytes(h) == [h.version % 0x100, h.opCode % 0x100, h.flags / 0x100 % 0x100, h.flags % 0x100]
  {
    hide FromBE32, BE32;
    var f := h.flags % 0x1_0000;
    var u := U32(ToInt(h));
    LowTwoBytes(h.flags);
    assert u == ((h.version % 0x100 * 0x100 + h.opCode % 0x100) * 0x100 + f / 0x100) * 0x100 + f % 0x100;
    hide ToInt;
    BigEndian32(u, [0, 0, 0, 0]);
    FourBytes(u, h.version % 0x100, h.opCode % 0x100, f / 0x100, f % 0x100);
  }

  lemma LowTwoBytes(x: int)
    ensures x % 0x1_0000 % 0x100 == x % 0x100 && x % 0x1_0000 / 0x100 == x / 0x100 % 0x100
  {
    SameLowByte(x);
  }
}
