/** The codec as the pipeline runs it: cursors over buffers, filled and read in place. */
module CodecHandlers {
  import opened Bytes
  import opened Protocol
  import opened Codec

  /** folly::io::Cursor over a flat buffer. Reading past the end throws, so every read
      demands the bytes; callers check TotalLength as the source does. */
  class Cursor {
    const buf: seq<byte>
    var pos: nat

    ghost predicate Valid()
      reads this
    {
      pos <= |buf|
    }

    constructor (b: seq<byte>)
      ensures Valid() && buf == b && pos == 0
    {
      buf, pos := b, 0;
    }

    /** What is left to read. */
    function Left(): (s: seq<byte>)
      requires Valid()
      reads this
      ensures |s| == |buf| - pos
    {
      buf[pos..]
    }

    method ReadBE32() returns (x: int32)
      requires Valid() && |Left()| >= 4
      modifies this
      ensures Valid() && Left() == old(Left())[4..]
      ensures x == S32(FromBE32(old(Left())[..4]))
    {
      x := S32(FromBE32(buf[pos..pos + 4]));
      assert buf[pos..pos + 4] == Left()[..4];
      pos := pos + 4;
    }

    method ReadBE64() returns (x: int64)
      requires Valid() && |Left()| >= 8
      modifies this
      ensures Valid() && Left() == old(Left())[8..]
      ensures x == FromBE64(old(Left())[..8])
    {
      x := FromBE64(buf[pos..pos + 8]);
      assert buf[pos..pos + 8] == Left()[..8];
      pos := pos + 8;
    }

    method Skip(n: nat)
      requires Valid() && |Left()| >= n
      modifies this
      ensures Valid() && Left() == old(Left())[n..]
    {
      pos := pos + n;
    }
  }

  /** folly::io::RWPrivateCursor over one buffer of fixed size. */
  class Writer {
    const buf: array<byte>
    var pos: nat

    ghost predicate Valid()
      reads this
    {
      pos <= buf.Length
    }

    constructor (b: array<byte>)
      ensures Valid() && buf == b && pos == 0
    {
      buf, pos := b, 0;
    }

    /** Overwrites the next bytes; what was written before stays. */
    method Put(s: seq<byte>)
      requires Valid() && pos + |s| <= buf.Length
      modifies this, buf
      ensures Valid() && pos == old(pos) + |s|
      ensures buf[..pos] == old(buf[..pos]) + s
      ensures buf[pos..] == old(buf[pos + |s|..])
    {
      ghost var before, at := buf[..], pos;
      for i := 0 to |s|
        invariant pos == at && buf[..pos + i] == before[..pos] + s[..i]
        invariant buf[pos + i..] == before[pos + i..]
      {
        buf[pos + i] := s[i];
        assert buf[..pos + i + 1] == buf[..pos + i] + [s[i]];
        assert s[..i + 1] == s[..i] + [s[i]];
      }
      pos := pos + |s|;
    }

    method WriteBE32(x: int32)
      requires Valid() && pos + 4 <= buf.Length
      modifies this, buf
      ensures Valid() && pos == old(pos) + 4
      ensures buf[..pos] == old(buf[..pos]) + BE32(U32(x))
      ensures buf[pos..] == old(buf[pos + 4..])
    {
      Put(BE32(U32(x)));
    }

    method WriteBE64(x: int64)
      requires Valid() && pos + 8 <= buf.Length
      modifies this, buf
      ensures Valid() && pos == old(pos) + 8
      ensures buf[..pos] == old(buf[..pos]) + BE64(x)
      ensures buf[pos..] == old(buf[pos + 8..])
    {
      Put(BE64(x));
    }

    /** Leaves the bytes as they were. */
    method Skip(n: nat)
      requires Valid() && pos + n <= buf.Length
      modifies this
      ensures Valid() && pos == old(pos) + n
      ensures buf[..pos] == old(buf[..pos]) + buf[old(pos)..pos]
      ensures buf[..] == old(buf[..])
    {
      pos := pos + n;
    }
  }

  method ServerRead(b: seq<byte>) returns (inbound: Inbound)
    ensures inbound == DecodeRequest(b)
  {
    var reader := new Cursor(b);
    if |reader.Left()| < 4 {
      return Closed;
    }
    var word := reader.ReadBE32();
    var h := FromInt(word);
    assert reader.Left() == b[4..];
    if h.opCode == OP_ADD_ENTRY {
      if |reader.Left()| < ADD_REQUEST_SIZE {
        return Closed;
      }
      reader.Skip(MASTER_KEY_LENGTH);
      var ledgerId := reader.ReadBE64();
      var entryId := reader.ReadBE64();
      assert b[4..][20..][..8] == b[4..][20..28] && b[4..][20..][8..][..8] == b[4..][28..36];
      return Add(Request(h.version, h.opCode, ledgerId, entryId, h.flags, reader.Left()));
    } else if h.opCode == OP_READ_ENTRY {
      if |reader.Left()| < 2 * 8 + (if IsFencing(h.flags) then MASTER_KEY_LENGTH else 0) {
        return Closed;
      }
      var ledgerId := reader.ReadBE64();
      var entryId := reader.ReadBE64();
      assert b[4..][8..][..8] == b[4..][8..16];
      if IsFencing(h.flags) {
        reader.Skip(MASTER_KEY_LENGTH);
      }
      return Read(h, ledgerId, entryId);
    }
    return Bare(h);
  }

  /** The buffer is as long as the frame plus its length field; its last 4 bytes, and for
      other operations all but the first 8, stay as allocated. */
  method ServerWrite(r: Response) returns (buf: array<byte>)
    ensures fresh(buf) && buf.Length == 4 + RESPONSE_FRAME_SIZE
    ensures r.opCode == OP_ADD_ENTRY || r.opCode == OP_READ_ENTRY ==> buf[..] == EncodeResponse(r, buf[28..])
    ensures buf[..8] == BE32(RESPONSE_FRAME_SIZE) + HeaderBytes(PacketHeader(r.version, r.opCode, 0))
  {
    buf := new byte[4 + RESPONSE_FRAME_SIZE];
    var h := PacketHeader(r.version, r.opCode, 0);
    var writer := new Writer(buf);
    writer.WriteBE32(RESPONSE_FRAME_SIZE);
    writer.WriteBE32(ToInt(h));
    ghost var first := buf[..8];
    assert first == BE32(RESPONSE_FRAME_SIZE) + HeaderBytes(h);
    if r.opCode == OP_ADD_ENTRY || r.opCode == OP_READ_ENTRY {
      writer.WriteBE32(r.errorCode);
      writer.WriteBE64(r.ledgerId);
      writer.WriteBE64(r.entryId);
      assert buf[..28] == first + BE32(U32(r.errorCode)) + BE64(r.ledgerId) + BE64(r.entryId);
      assert buf[..] == buf[..28] + buf[28..];
      assert buf[..8] == buf[..28][..8] == first;
    }
  }

  method ClientRead(b: seq<byte>) returns (reply: Reply)
    ensures reply == DecodeResponse(b)
  {
    var reader := new Cursor(b);
    if |reader.Left()| < 4 {
      return Close;
    }
    var word := reader.ReadBE32();
    var h := FromInt(word);
    assert reader.Left() == b[4..];
    if h.opCode == OP_ADD_ENTRY || h.opCode == OP_READ_ENTRY {
      if |reader.Left()| < 4 + 2 * 8 {
        return Thrown;
      }
      var error := reader.ReadBE32();
      var ledgerId := reader.ReadBE64();
      var entryId := reader.ReadBE64();
      assert b[4..][4..][..8] == b[4..][4..12] && b[4..][4..][8..][..8] == b[4..][12..20];
      return Got(Response(h.version, h.opCode, ToInt8(error), ledgerId, entryId));
    }
    return BareReply(h);
  }

  /** The 44-byte buffer and, chained behind it without a copy, the payload. The length is
      narrowed to an int. For operations other than AddEntry all but the first 8 bytes stay as
      allocated, and no payload is chained. */
  method ClientWrite(r: Request) returns (buf: array<byte>, chain: seq<byte>)
    ensures fresh(buf) && buf.Length == 4 + REQUEST_HEADER_SIZE
    ensures chain == if r.opCode == OP_ADD_ENTRY then r.data else []
    ensures buf[..8] == BE32((REQUEST_HEADER_SIZE + |r.data|) % TWO_32)
      + HeaderBytes(PacketHeader(r.version, r.opCode, r.flags))
    ensures r.opCode == OP_ADD_ENTRY && REQUEST_HEADER_SIZE + |r.data| < TWO_32 ==>
      buf[..] + chain == EncodeRequest(r, buf[8..8 + MASTER_KEY_LENGTH])
  {
    hide ToInt, U32, S32, BE, BE32, BE64;
    var frameSize := S32((REQUEST_HEADER_SIZE + |r.data|) % TWO_32);
    buf := new byte[4 + REQUEST_HEADER_SIZE];
    chain := [];
    var h := PacketHeader(r.version, r.opCode, r.flags);
    var writer := new Writer(buf);
    writer.WriteBE32(frameSize);
    writer.WriteBE32(ToInt(h));
    ghost var head := buf[..8];
    assert head == BE32(U32(frameSize)) + HeaderBytes(h);
    if r.opCode == OP_ADD_ENTRY {
      writer.Skip(MASTER_KEY_LENGTH);
      ghost var key := buf[8..8 + MASTER_KEY_LENGTH];
      ghost var first := buf[..28];
      assert first == head + key;
      writer.WriteBE64(r.ledgerId);
      writer.WriteBE64(r.entryId);
      assert buf[..] == buf[..44] == first + BE64(r.ledgerId) + BE64(r.entryId);
      assert buf[8..28] == buf[..][8..28] == first[8..28] == key;
      assert buf[..8] == buf[..][..8] == head;
      chain := r.data;
    }
  }
}
