/** Length framing: wangle's LengthFieldBasedFrameDecoder(4, MaxFrameSize), by its contract. */
module Frames {
  import opened Bytes
  import opened Protocol

  /** Complete frames (length field stripped), the bytes not yet consumed, and whether a
      frame longer than MAX_FRAME_SIZE has been met, after which nothing more is decoded. */
  datatype Framing = Framing(frames: seq<seq<byte>>, rest: seq<byte>, failed: bool)

  predicate Fits(payload: seq<byte>) { 4 + |payload| <= MAX_FRAME_SIZE }

  function Frame(payload: seq<byte>): (s: seq<byte>)
    ensures |s| == 4 + |payload|
  {
    BE32(|payload|) + payload
  }

  function Stream(payloads: seq<seq<byte>>): seq<byte> {
    if payloads == [] then [] else Frame(payloads[0]) + Stream(payloads[1..])
  }

  function Concat(chunks: seq<seq<byte>>): seq<byte> {
    if chunks == [] then [] else chunks[0] + Concat(chunks[1..])
  }

  function Split(b: seq<byte>): Framing
    decreases |b|
  {
    if |b| < 4 then Framing([], b, false)
    else
      var n := FromBE32(b[..4]);
      if 4 + n > MAX_FRAME_SIZE then Framing([], b, true)
      else if |b| < 4 + n then Framing([], b, false)
      else
        var t := Split(b[4 + n..]);
        Framing([b[4..4 + n]] + t.frames, t.rest, t.failed)
  }

  /** What the decoder has produced after one more chunk arrives. */
  function Deliver(f: Framing, chunk: seq<byte>): Framing {
    if f.failed then f.(rest := f.rest + chunk)
    else
      var t := Split(f.rest + chunk);
      Framing(f.frames + t.frames, t.rest, t.failed)
  }

  function DeliverAll(f: Framing, chunks: seq<seq<byte>>): Framing
    decreases chunks
  {
    if chunks == [] then f else DeliverAll(Deliver(f, chunks[0]), chunks[1..])
  }

  /** Cutting a stream in two loses nothing: the decoder resumes from its leftover bytes. */
  lemma {:induction false} SplitResumes(a: seq<byte>, b: seq<byte>)
    ensures Split(a + b) == Deliver(Split(a), b)
    decreases |a|
  {
    if |a| < 4 || (4 + FromBE32(a[..4]) <= MAX_FRAME_SIZE && |a| < 4 + FromBE32(a[..4])) {
      assert Split(a) == Framing([], a, false);
      var t := Split(a + b);
      assert [] + t.frames == t.frames;
    } else {
      var n := FromBE32(a[..4]);
      assert (a + b)[..4] == a[..4];
      if 4 + n <= MAX_FRAME_SIZE {
        var front, back := a[4..4 + n], a[4 + n..];
        SplitResumes(back, b);
        assert (a + b)[4..4 + n] == front && (a + b)[4 + n..] == back + b;
        PrependCommutes(front, Split(back), b);
      }
    }
  }

  lemma PrependCommutes(p: seq<byte>, f: Framing, chunk: seq<byte>)
    ensures var d := Deliver(f, chunk);
      Deliver(f.(frames := [p] + f.frames), chunk) == d.(frames := [p] + d.frames)
  {
    if !f.failed {
      var t := Split(f.rest + chunk);
      assert [p] + f.frames + t.frames == [p] + (f.frames + t.frames);
    }
  }

  /** However the bytes are cut into chunks, the decoder yields what the whole stream yields. */
  lemma {:induction false} ChunkingIsInvisible(received: seq<byte>, chunks: seq<seq<byte>>)
    ensures DeliverAll(Split(received), chunks) == Split(received + Concat(chunks))
    decreases chunks
  {
    hide Split, Deliver;
    if chunks == [] {
      assert received + Concat(chunks) == received;
    } else {
      SplitResumes(received, chunks[0]);
      ChunkingIsInvisible(received + chunks[0], chunks[1..]);
      assert received + Concat(chunks) == received + chunks[0] + Concat(chunks[1..]);
    }
  }

  lemma SplitFrame(payload: seq<byte>, tail: seq<byte>)
    requires |payload| < TWO_32
    ensures !Fits(payload) ==> Split(Frame(payload) + tail) == Framing([], Frame(payload) + tail, true)
    ensures Fits(payload) ==>
      var t := Split(tail);
      Split(Frame(payload) + tail) == Framing([payload] + t.frames, t.rest, t.failed)
  {
    var b := Frame(payload) + tail;
    RoundTrip32(|payload|);
    assert b[..4] == BE32(|payload|);
    assert b[4..4 + |payload|] == payload;
    assert b[4 + |payload|..] == tail;
  }

  /** A frame is passed on if it is at most 5 MiB long, its length field counted in; a longer one
      stops the decoder. */
  lemma FrameLimit(payload: seq<byte>, tail: seq<byte>)
    requires |payload| < TWO_32
    ensures |payload| <= 5_242_876 ==> Split(Frame(payload) + tail).frames == [payload] + Split(tail).frames
    ensures |payload| > 5_242_876 ==>
      Split(Frame(payload) + tail).failed && Split(Frame(payload) + tail).frames == []
  {
    SplitFrame(payload, tail);
  }

  /** A pipelined stream is reframed exactly, with nothing left over, if every frame fits
      the limit, and otherwise the decoder fails. */
  lemma {:induction false} StreamReframes(payloads: seq<seq<byte>>)
    requires forall i :: 0 <= i < |payloads| ==> |payloads[i]| < TWO_32
    ensures (forall i :: 0 <= i < |payloads| ==> Fits(payloads[i])) ==>
      Split(Stream(payloads)) == Framing(payloads, [], false)
    ensures !(forall i :: 0 <= i < |payloads| ==> Fits(payloads[i])) ==> Split(Stream(payloads)).failed
  {
    if payloads != [] {
      StreamReframes(payloads[1..]);
      SplitFrame(payloads[0], Stream(payloads[1..]));
      assert payloads == [payloads[0]] + payloads[1..];
    }
  }

  /** What is left over holds no whole frame, so reading it again yields nothing. */
  lemma {:induction false} RestIsKept(b: seq<byte>)
    ensures Split(Split(b).rest) == Framing([], Split(b).rest, Split(b).failed)
    decreases |b|
  {
    if |b| >= 4 {
      var n := FromBE32(b[..4]);
      if 4 + n <= MAX_FRAME_SIZE && 4 + n <= |b| {
        RestIsKept(b[4 + n..]);
      }
    }
  }

  const START := Framing([], [], false)

  /** The same with the stream cut into arbitrary chunks. */
  lemma ChunkedStreamReframes(payloads: seq<seq<byte>>, chunks: seq<seq<byte>>)
    requires forall i :: 0 <= i < |payloads| ==> |payloads[i]| < TWO_32
    requires Concat(chunks) == Stream(payloads)
    ensures (forall i :: 0 <= i < |payloads| ==> Fits(payloads[i])) ==>
      DeliverAll(START, chunks) == Framing(payloads, [], false)
    ensures !(forall i :: 0 <= i < |payloads| ==> Fits(payloads[i])) ==> DeliverAll(START, chunks).failed
  {
    ChunkingIsInvisible([], chunks);
    assert [] + Concat(chunks) == Concat(chunks);
    StreamReframes(payloads);
  }

  /** The handler that sits between the socket and the codec, one per connection. */
  class FrameDecoder {
    var pending: seq<byte>
    var failed: bool

    constructor ()
      ensures pending == [] && !failed
    {
      pending, failed := [], false;
    }

    /** One read of the socket: all frames completed by this chunk. */
    method Read(chunk: seq<byte>) returns (out: seq<seq<byte>>)
      modifies this
      ensures Framing(out, pending, failed) == Deliver(Framing([], old(pending), old(failed)), chunk)
    {
      hide Split;
      out := [];
      pending := pending + chunk;
      if failed {
        return;
      }
      SplitCases(pending, out);
      var more := true;
      while more
        invariant !more ==> Split(pending) == Framing([], pending, failed)
        invariant more ==> !failed
        invariant var t := Split(pending);
          Split(old(pending) + chunk) == Framing(out + t.frames, t.rest, t.failed)
        decreases more, |pending|
      {
        SplitCases(pending, out);
        if |pending| < 4 {
          more := false;
        } else {
          var n := FromBE32(pending[..4]);
          if 4 + n > MAX_FRAME_SIZE {
            failed, more := true, false;
          } else if |pending| < 4 + n {
            more := false;
          } else {
            out := out + [pending[4..4 + n]];
            pending := pending[4 + n..];
          }
        }
      }
    }
  }

  /** One turn of the decoder, with `out` already delivered. */
  lemma SplitCases(b: seq<byte>, out: seq<seq<byte>>)
    ensures |b| < 4 ==> Split(b) == Framing([], b, false)
    ensures |b| >= 4 ==>
      var n := FromBE32(b[..4]);
      if 4 + n > MAX_FRAME_SIZE then Split(b) == Framing([], b, true)
      else if |b| < 4 + n then Split(b) == Framing([], b, false)
      else
        var t := Split(b[4 + n..]);
        Split(b).rest == t.rest && Split(b).failed == t.failed
        && out + Split(b).frames == out + [b[4..4 + n]] + t.frames
    ensures [] + Split(b).frames == Split(b).frames
  {
    if |b| >= 4 {
      var n := FromBE32(b[..4]);
      if 4 + n <= MAX_FRAME_SIZE && 4 + n <= |b| {
        var t := Split(b[4 + n..]);
        assert out + ([b[4..4 + n]] + t.frames) == out + [b[4..4 + n]] + t.frames;
      }
    }
  }
}
