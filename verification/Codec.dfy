/** The V2 codec: what each side writes, what the other reads back, and the cursors they use. */
module Codec {
  import opened Bytes
  import opened Protocol
  import opened Frames

  datatype Request = Request(version: int8, opCode: int8, ledgerId: int64, entryId: int64, flags: int16,
    data: seq<byte>)

  datatype Response = Response(version: int8, opCode: int8, errorCode: int8, ledgerId: int64, entryId: int64)

  /** What the server codec does with one frame: close the connection, or pass a request up.
      Auth and unknown operations are passed up with no field set but the header. */
  datatype Inbound =
    | Closed
    | Add(request: Request)
    | Read(header: PacketHeader, ledgerId: int64, entryId: int64)
    | Bare(header: PacketHeader)

  /** What the client codec does with one frame. A frame too short for its fields makes the
      cursor throw. */
  datatype Reply = Close | Thrown | Got(response: Response) | BareReply(header: PacketHeader)

  const REQUEST_HEADER_SIZE := 4 + MASTER_KEY_LENGTH + 2 * 8
  const RESPONSE_FRAME_SIZE := 4 + 24
  const ADD_REQUEST_SIZE := MASTER_KEY_LENGTH + 2 * 8

  // ---------------------------------------------------------------- what goes on the wire

  /** An AddEntry request as the client writes it. The master key bytes are skipped over,
      so they hold whatever the buffer held. */
  function EncodeRequest(r: Request, masterKey: seq<byte>): (s: seq<byte>)
    requires |masterKey| == MASTER_KEY_LENGTH && REQUEST_HEADER_SIZE + |r.data| < TWO_32
    ensures |s| == 4 + REQUEST_HEADER_SIZE + |r.data|
  {
    BE32(REQUEST_HEADER_SIZE + |r.data|)
    + HeaderBytes(PacketHeader(r.version, r.opCode, r.flags))
    + masterKey + BE64(r.ledgerId) + BE64(r.entryId) + r.data
  }

  /** A response as the server writes it. The declared length counts 4 bytes after the last
      field that are never written. */
  function EncodeResponse(r: Response, slack: seq<byte>): (s: seq<byte>)
    requires |slack| == 4
    ensures |s| == 4 + RESPONSE_FRAME_SIZE
  {
    BE32(RESPONSE_FRAME_SIZE)
    + HeaderBytes(PacketHeader(r.version, r.opCode, 0))
    + BE32(U32(r.errorCode)) + BE64(r.ledgerId) + BE64(r.entryId) + slack
  }

  function DecodeRequest(b: seq<byte>): Inbound {
    if |b| < 4 then Closed
    else
      var h, body := BytesHeader(b[..4]), b[4..];
      if h.opCode == OP_ADD_ENTRY then
        if |body| < ADD_REQUEST_SIZE then Closed
        else Add(Request(h.version, h.opCode, FromBE64(body[20..28]), FromBE64(body[28..36]), h.flags, body[36..]))
      else if h.opCode == OP_READ_ENTRY then
        if |body| < 2 * 8 + (if IsFencing(h.flags) then MASTER_KEY_LENGTH else 0) then Closed
        else Read(h, FromBE64(body[..8]), FromBE64(body[8..16]))
      else Bare(h)
  }

  function DecodeResponse(b: seq<byte>): Reply {
    if |b| < 4 then Close
    else
      var h, body := BytesHeader(b[..4]), b[4..];
      if h.opCode == OP_ADD_ENTRY || h.opCode == OP_READ_ENTRY then
        if |body| < 20 then Thrown
        else
          var error := ToInt8(S32(FromBE32(body[..4])));
          Got(Response(h.version, h.opCode, error, FromBE64(body[4..12]), FromBE64(body[12..20])))
      else BareReply(h)
  }

  // ---------------------------------------------------------------- one message

  /** Only the low byte of the flags crosses the wire. */
  function OnArrival(r: Request): Request {
    r.(flags := r.flags % 0x100)
  }

  /** The request the server sees keeps the meaning of both protocol flags. */
  lemma FlagsKeepTheirMeaning(r: Request)
    ensures IsFencing(OnArrival(r).flags) == IsFencing(r.flags)
    ensures IsRecovery(OnArrival(r).flags) == IsRecovery(r.flags)
    ensures OnArrival(r) == r <==> 0 <= r.flags < 0x100
  {
    LowByteOfFlags(r.flags);
  }

  function RequestPayload(r: Request, masterKey: seq<byte>): (s: seq<byte>)
    requires |masterKey| == MASTER_KEY_LENGTH && REQUEST_HEADER_SIZE + |r.data| < TWO_32
    ensures |s| == REQUEST_HEADER_SIZE + |r.data|
  {
    EncodeRequest(r, masterKey)[4..]
  }

  function ResponsePayload(r: Response, slack: seq<byte>): (s: seq<byte>)
    requires |slack| == 4
    ensures |s| == RESPONSE_FRAME_SIZE
  {
    EncodeResponse(r, slack)[4..]
  }

  lemma SixParts(a: seq<byte>, b: seq<byte>, c: seq<byte>, d: seq<byte>, e: seq<byte>, f: seq<byte>)
    ensures var s := a + b + c + d + e + f;
      var i, j, k, l := |a| + |b|, |a| + |b| + |c|, |a| + |b| + |c| + |d|, |a| + |b| + |c| + |d| + |e|;
      s[..|a|] == a && s[|a|..i] == b && s[i..j] == c && s[j..k] == d && s[k..l] == e && s[l..] == f
  {
    var p2 := a + b;
    var p3 := p2 + c;
    var p4 := p3 + d;
    var p5 := p4 + e;
    var s := p5 + f;
    TwoParts(p5, f);
    TwoParts(p4, e);
    Within(s, p5, |p4|, |p5|);
    Within(s, p5, 0, |p4|);
    TwoParts(p3, d);
    Within(s, p4, |p3|, |p4|);
    Within(s, p4, 0, |p3|);
    TwoParts(p2, c);
    Within(s, p3, |p2|, |p3|);
    Within(s, p3, 0, |p2|);
    TwoParts(a, b);
    Within(s, p2, |a|, |p2|);
    Within(s, p2, 0, |a|);
  }

  lemma TwoParts(p: seq<byte>, q: seq<byte>)
    ensures (p + q)[..|p|] == p && (p + q)[|p|..] == q && (p + q)[|p|..|p + q|] == q
  {
  }

  lemma Within(s: seq<byte>, p: seq<byte>, i: nat, j: nat)
    requires |p| <= |s| && p == s[..|p|] && i <= j <= |p|
    ensures s[i..j] == p[i..j]
    ensures i == 0 ==> s[..j] == p[..j]
  {
  }

  /** Where each field of a request is: length, version, operation, flags, master key, ids, payload. */
  lemma RequestLayout(r: Request, masterKey: seq<byte>)
    requires |masterKey| == MASTER_KEY_LENGTH && REQUEST_HEADER_SIZE + |r.data| < TWO_32
    ensures var s := EncodeRequest(r, masterKey);
      && s[..4] == BE32(|s| - 4) && |s| == 44 + |r.data|
      && s[4..8] == [r.version % 0x100, r.opCode % 0x100, r.flags / 0x100 % 0x100, r.flags % 0x100]
      && s[8..28] == masterKey && s[28..36] == BE64(r.ledgerId) && s[36..44] == BE64(r.entryId) && s[44..] == r.data
  {
    hide HeaderBytes, BE32, BE64;
    var h := PacketHeader(r.version, r.opCode, r.flags);
    HeaderOnWire(h);
    SixParts(BE32(REQUEST_HEADER_SIZE + |r.data|), HeaderBytes(h), masterKey, BE64(r.ledgerId), BE64(r.entryId),
      r.data);
  }

  /** And of a response: 28, version, operation, no flags, error, ids, and 4 bytes more. */
  lemma ResponseLayout(r: Response, slack: seq<byte>)
    requires |slack| == 4
    ensures var s := EncodeResponse(r, slack);
      && s[..4] == [0, 0, 0, 28] && |s| == 32
      && s[4..8] == [r.version % 0x100, r.opCode % 0x100, 0, 0]
      && s[8..12] == BE32(U32(r.errorCode)) && s[12..20] == BE64(r.ledgerId) && s[20..28] == BE64(r.entryId)
      && s[28..] == slack
  {
    hide HeaderBytes, BE32, BE64;
    var h := PacketHeader(r.version, r.opCode, 0);
    HeaderOnWire(h);
    BigEndian32(28, [0, 0, 0, 0]);
    SixParts(BE32(RESPONSE_FRAME_SIZE), HeaderBytes(h), BE32(U32(r.errorCode)), BE64(r.ledgerId), BE64(r.entryId),
      slack);
  }

  lemma RequestBegins(s: seq<byte>, chain: seq<byte>, r: Request, masterKey: seq<byte>)
    requires |masterKey| == MASTER_KEY_LENGTH && REQUEST_HEADER_SIZE + |r.data| < TWO_32
    requires |s| >= 8 && s + chain == EncodeRequest(r, masterKey)
    ensures s[4..8] == [r.version % 0x100, r.opCode % 0x100, r.flags / 0x100 % 0x100, r.flags % 0x100]
  {
    hide EncodeRequest;
    RequestLayout(r, masterKey);
    assert s[4..8] == (s + chain)[4..8];
  }

  lemma ResponseBegins(s: seq<byte>, r: Response, slack: seq<byte>)
    requires |slack| == 4 && s == EncodeResponse(r, slack)
    ensures s[..8] == [0, 0, 0, 28, r.version % 0x100, r.opCode % 0x100, 0, 0]
  {
    hide EncodeResponse;
    ResponseLayout(r, slack);
    assert s[..8] == s[..4] + s[4..8];
  }

  /** Which frames the server closes the connection on, by their bytes: those without a header,
      AddEntry without key and ids, and ReadEntry without ids, or without the key if fencing. */
  lemma ServerClosesIff(b: seq<byte>)
    ensures DecodeRequest(b) == Closed
       <==> || |b| < 4
            || (b[1] == 1 && |b| < 40)
            || (b[1] == 2 && |b| < if b[3] % 2 == 1 then 40 else 20)
  {
    if |b| >= 4 {
      HeaderRead(b[..4]);
    }
  }

  /** Which frames the client codec closes on, and for which its cursor throws. */
  lemma ClientFailsIff(b: seq<byte>)
    ensures DecodeResponse(b) == Close <==> |b| < 4
    ensures DecodeResponse(b) == Thrown <==> 4 <= |b| < 24 && (b[1] == 1 || b[1] == 2)
  {
    if |b| >= 4 {
      HeaderRead(b[..4]);
    }
  }

  /** What a header read holds of its four bytes. */
  lemma HeaderRead(s: seq<byte>)
    requires |s| == 4
    ensures var h := BytesHeader(s);
      && (h.version - s[0]) % 0x100 == 0 && (h.opCode - s[1]) % 0x100 == 0 && h.flags == s[3]
      && (h.opCode == 1 <==> s[1] == 1) && (h.opCode == 2 <==> s[1] == 2)
  {
    BigEndian32(0, s);
    var u := FromBE32(s);
    hide FromBE32;
    FourBytes(u, s[0], s[1], s[2], s[3]);
    SignedBytes(S32(u));
    ToInt8Bits(S32(u) / 0x100_0000);
    ToInt8Bits(S32(u) / 0x1_0000 % 0x100);
    SameByte(BytesHeader(s).version, s[0]);
    SameByte(BytesHeader(s).opCode, s[1]);
  }

  lemma SameByte(x: int8, b: byte)
    requires x % 0x100 == b
    ensures (x - b) % 0x100 == 0 && x == if b < 0x80 then b else b - 0x100
  {
    if x < 0 {
      assert x + 0x100 == b;
    } else {
      assert x == b;
    }
  }

  /** The server reads a ReadEntry request's ledger id, then its entry id, then skips the key. */
  lemma ReadEntryDecodes(h: PacketHeader, ledgerId: int64, entryId: int64, rest: seq<byte>)
    requires h.opCode == 2 && (IsFencing(h.flags) ==> |rest| >= 20)
    ensures DecodeRequest(HeaderBytes(h) + BE64(ledgerId) + BE64(entryId) + rest)
         == Read(h.(flags := h.flags % 0x100), ledgerId, entryId)
  {
    hide HeaderBytes, BytesHeader, BE64, FromBE64;
    var b := HeaderBytes(h) + BE64(ledgerId) + BE64(entryId) + rest;
    HeaderRoundTrip(h);
    LowByteOfFlags(h.flags);
    RoundTrip64(ledgerId);
    RoundTrip64(entryId);
    SixParts(HeaderBytes(h), BE64(ledgerId), BE64(entryId), rest, [], []);
    assert b == b + [] + [];
    var body := b[4..];
    assert body[..8] == b[4..12] && body[8..16] == b[12..20];
  }

  /** The declared length is the number of bytes that follow, and the server reads back the
      request whatever the master key bytes hold. */
  lemma RequestRoundTrip(r: Request, masterKey: seq<byte>)
    requires |masterKey| == MASTER_KEY_LENGTH && REQUEST_HEADER_SIZE + |r.data| < TWO_32
    requires r.opCode == OP_ADD_ENTRY
    ensures EncodeRequest(r, masterKey) == Frame(RequestPayload(r, masterKey))
    ensures DecodeRequest(RequestPayload(r, masterKey)) == Add(OnArrival(r))
  {
    hide HeaderBytes, BytesHeader, BE32, BE64, FromBE32, FromBE64;
    var h := PacketHeader(r.version, r.opCode, r.flags);
    HeaderRoundTrip(h);
    RoundTrip64(r.ledgerId);
    RoundTrip64(r.entryId);
    SixParts(BE32(REQUEST_HEADER_SIZE + |r.data|), HeaderBytes(h), masterKey, BE64(r.ledgerId), BE64(r.entryId),
      r.data);
    var s, p := EncodeRequest(r, masterKey), RequestPayload(r, masterKey);
    assert s == s[..4] + p;
    var body := p[4..];
    assert p[..4] == s[4..8] && body[20..28] == s[28..36] && body[28..36] == s[36..44] && body[36..] == s[44..];
  }

  /** 28 bytes declared, 24 written, 4 of slack; the client reads the response back whatever
      the slack holds, negative error codes included. */
  lemma ResponseRoundTrip(r: Response, slack: seq<byte>)
    requires |slack| == 4
    requires r.opCode == OP_ADD_ENTRY || r.opCode == OP_READ_ENTRY
    ensures EncodeResponse(r, slack) == Frame(ResponsePayload(r, slack))
    ensures ResponsePayload(r, slack)[24..] == slack
    ensures DecodeResponse(ResponsePayload(r, slack)) == Got(r)
  {
    hide HeaderBytes, BytesHeader, BE32, BE64, FromBE32, FromBE64, U32, S32, ToInt8;
    var h := PacketHeader(r.version, r.opCode, 0);
    HeaderRoundTrip(h);
    RoundTrip64(r.ledgerId);
    RoundTrip64(r.entryId);
    ErrorRoundTrip(r.errorCode);
    SixParts(BE32(RESPONSE_FRAME_SIZE), HeaderBytes(h), BE32(U32(r.errorCode)), BE64(r.ledgerId), BE64(r.entryId),
      slack);
    var s, p := EncodeResponse(r, slack), ResponsePayload(r, slack);
    assert s == s[..4] + p;
    var body := p[4..];
    assert p[..4] == s[4..8] && body[..4] == s[8..12] && body[4..12] == s[12..20] && body[12..20] == s[20..28];
    assert p[24..] == s[28..];
  }

  /** An int8 error code widened to 32 bits, written, read and narrowed again. */
  lemma ErrorRoundTrip(e: int8)
    ensures ToInt8(S32(FromBE32(BE32(U32(e))))) == e
  {
    RoundTrip32(U32(e));
    ByteOfInt8(e, e);
  }

  // ---------------------------------------------------------------- pipelined streams

  /** A request as written: the message and what its master key bytes happened to hold. */
  datatype SentRequest_Raw = SentRequest(request: Request, masterKey: seq<byte>) {
    predicate Writable() {
      |masterKey| == MASTER_KEY_LENGTH && request.opCode == OP_ADD_ENTRY
      && REQUEST_HEADER_SIZE + |request.data| < TWO_32
    }
  }
  type SentRequest = m: SentRequest_Raw | m.Writable()
    witness SentRequest(Request(2, OP_ADD_ENTRY, 0, 0, 0, []), BE64(0) + BE64(0) + BE32(0))

  datatype SentResponse_Raw = SentResponse(response: Response, slack: seq<byte>) {
    predicate Writable() {
      |slack| == 4 && (response.opCode == OP_ADD_ENTRY || response.opCode == OP_READ_ENTRY)
    }
  }
  type SentResponse = m: SentResponse_Raw | m.Writable()
    witness SentResponse(Response(2, OP_ADD_ENTRY, ERROR_OK, 0, 0), BE32(0))

  predicate FitsLimit(r: Request) { 4 + REQUEST_HEADER_SIZE + |r.data| <= MAX_FRAME_SIZE }

  function RequestBytes(ms: seq<SentRequest>): seq<byte>
  {
    if ms == [] then [] else EncodeRequest(ms[0].request, ms[0].masterKey) + RequestBytes(ms[1..])
  }

  function ResponseBytes(ms: seq<SentResponse>): seq<byte>
  {
    if ms == [] then [] else EncodeResponse(ms[0].response, ms[0].slack) + ResponseBytes(ms[1..])
  }

  function RequestPayloads(ms: seq<SentRequest>): (ps: seq<seq<byte>>)
    ensures |ps| == |ms|
  {
    seq(|ms|, i requires 0 <= i < |ms| => RequestPayload(ms[i].request, ms[i].masterKey))
  }

  function ResponsePayloads(ms: seq<SentResponse>): (ps: seq<seq<byte>>)
    ensures |ps| == |ms|
  {
    seq(|ms|, i requires 0 <= i < |ms| => ResponsePayload(ms[i].response, ms[i].slack))
  }

  lemma {:induction false} RequestBytesAreFrames(ms: seq<SentRequest>)
    ensures RequestBytes(ms) == Stream(RequestPayloads(ms))
  {
    if ms != [] {
      RequestBytesAreFrames(ms[1..]);
      RequestRoundTrip(ms[0].request, ms[0].masterKey);
      assert RequestPayloads(ms)[1..] == RequestPayloads(ms[1..]);
    }
  }

  lemma {:induction false} ResponseBytesAreFrames(ms: seq<SentResponse>)
    ensures ResponseBytes(ms) == Stream(ResponsePayloads(ms))
  {
    if ms != [] {
      ResponseBytesAreFrames(ms[1..]);
      ResponseRoundTrip(ms[0].response, ms[0].slack);
      assert ResponsePayloads(ms)[1..] == ResponsePayloads(ms[1..]);
    }
  }

  function DecodedRequests(frames: seq<seq<byte>>): seq<Inbound> {
    seq(|frames|, i requires 0 <= i < |frames| => DecodeRequest(frames[i]))
  }

  function DecodedResponses(frames: seq<seq<byte>>): seq<Reply> {
    seq(|frames|, i requires 0 <= i < |frames| => DecodeResponse(frames[i]))
  }

  function Arrivals(ms: seq<SentRequest>): seq<Inbound> {
    seq(|ms|, i requires 0 <= i < |ms| => Add(OnArrival(ms[i].request)))
  }

  function Replies(ms: seq<SentResponse>): seq<Reply> {
    seq(|ms|, i requires 0 <= i < |ms| => Got(ms[i].response))
  }

  /** Requests concatenated, cut into arbitrary chunks, reframed and decoded come out as
      they went in; the stream is accepted whole if and only if every frame fits the limit. */
  lemma RequestStreamRoundTrip(ms: seq<SentRequest>, chunks: seq<seq<byte>>)
    requires Concat(chunks) == RequestBytes(ms)
    ensures var f := DeliverAll(START, chunks);
      DecodedRequests(f.frames) == Arrivals(ms) && f.rest == [] && !f.failed
      <==> forall i :: 0 <= i < |ms| ==> FitsLimit(ms[i].request)
  {
    hide Split, Deliver, DeliverAll, Stream, Concat, RequestBytes, DecodeRequest, EncodeRequest, OnArrival;
    var ps := RequestPayloads(ms);
    RequestBytesAreFrames(ms);
    assert forall i :: 0 <= i < |ms| ==> (Fits(ps[i]) <==> FitsLimit(ms[i].request));
    ChunkedStreamReframes(ps, chunks);
    RequestsDecode(ms);
  }

  lemma RequestsDecode(ms: seq<SentRequest>)
    ensures DecodedRequests(RequestPayloads(ms)) == Arrivals(ms)
  {
    forall i | 0 <= i < |ms|
      ensures DecodeRequest(RequestPayloads(ms)[i]) == Add(OnArrival(ms[i].request))
    {
      RequestRoundTrip(ms[i].request, ms[i].masterKey);
    }
  }

  lemma ResponsesDecode(ms: seq<SentResponse>)
    ensures DecodedResponses(ResponsePayloads(ms)) == Replies(ms)
  {
    forall i | 0 <= i < |ms|
      ensures DecodeResponse(ResponsePayloads(ms)[i]) == Got(ms[i].response)
    {
      ResponseRoundTrip(ms[i].response, ms[i].slack);
    }
  }

  /** Responses always fit, so their stream always comes back whole. */
  lemma ResponseStreamRoundTrip(ms: seq<SentResponse>, chunks: seq<seq<byte>>)
    requires Concat(chunks) == ResponseBytes(ms)
    ensures var f := DeliverAll(START, chunks);
      DecodedResponses(f.frames) == Replies(ms) && f.rest == [] && !f.failed
  {
    hide Split, Deliver, DeliverAll, Stream, Concat, ResponseBytes, DecodeResponse, EncodeResponse;
    ResponseBytesAreFrames(ms);
    ChunkedStreamReframes(ResponsePayloads(ms), chunks);
    ResponsesDecode(ms);
  }
}
