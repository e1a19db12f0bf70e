/** The objects of a running deployment put together: the pipelines of each connection, over
    the shared storage. Every method is a step of the system, or none. */
module Deployment {
  import opened Bytes
  import opened Protocol
  import opened Frames
  import opened Codec
  import opened CodecHandlers
  import opened RateLimiter
  import opened LimiterRuns
  import opened Endpoints
  import opened System
  import opened SystemProofs
  import J = JournalModel
  import opened JournalThread

  // ---------------------------------------------------------------- frames in flight

  predicate AllFit(frames: seq<seq<byte>>) {
    forall i :: 0 <= i < |frames| ==> Fits(frames[i])
  }

  /** What a decoder has passed on, keeps and has not been given adds up to what was sent. */
  lemma {:induction false} SplitKeepsBytes(b: seq<byte>)
    ensures Stream(Split(b).frames) + Split(b).rest == b && AllFit(Split(b).frames)
    decreases |b|
  {
    hide FromBE32, Stream, Frame, Split;
    NoStream();
    SplitCases(b, []);
    if |b| >= 4 && 4 + FromBE32(b[..4]) <= MAX_FRAME_SIZE && 4 + FromBE32(b[..4]) <= |b| {
      var n := FromBE32(b[..4]);
      var frame, tail := b[4..4 + n], b[4 + n..];
      SplitKeepsBytes(tail);
      LengthIsRead(b[..4], frame);
      FrameComesOff(b[..4] + frame, frame, tail, Split(tail).frames, Split(tail).rest);
      assert b == b[..4] + frame + tail;
      assert Split(b).frames == [frame] + Split(tail).frames;
    }
  }

  lemma FrameComesOff(head: seq<byte>, frame: seq<byte>, tail: seq<byte>, frames: seq<seq<byte>>, rest: seq<byte>)
    requires head == Frame(frame) && Stream(frames) + rest == tail
    ensures Stream([frame] + frames) + rest == head + tail
  {
    hide Stream, Frame;
    StreamCons(frame, frames);
    assert Frame(frame) + Stream(frames) + rest == Frame(frame) + (Stream(frames) + rest);
  }

  lemma LengthIsRead(s: seq<byte>, frame: seq<byte>)
    requires |s| == 4 && FromBE32(s) == |frame|
    ensures Frame(frame) == s + frame
  {
    FromBERoundTrip(s);
  }

  lemma StreamCons(frame: seq<byte>, frames: seq<seq<byte>>)
    ensures Stream([frame] + frames) == Frame(frame) + Stream(frames)
  {
    assert ([frame] + frames)[1..] == frames;
  }

  lemma {:induction false} StreamConcat(a: seq<seq<byte>>, b: seq<seq<byte>>)
    ensures Stream(a + b) == Stream(a) + Stream(b)
  {
    hide Frame;
    if a == [] {
      assert a + b == b;
    } else {
      StreamConcat(a[1..], b);
      assert (a + b)[1..] == a[1..] + b;
    }
  }

  /** Frames passed on come first in the stream they were taken from. */
  lemma {:induction false} FramesComeFirst(frames: seq<seq<byte>>, b: seq<byte>)
    requires AllFit(frames)
    ensures Split(Stream(frames) + b) == Framing(frames + Split(b).frames, Split(b).rest, Split(b).failed)
  {
    hide Split, Frame;
    if frames == [] {
      NoStream();
      assert [] + b == b && [] + Split(b).frames == Split(b).frames;
    } else {
      FramesComeFirst(frames[1..], b);
      assert Stream(frames) + b == Frame(frames[0]) + (Stream(frames[1..]) + b);
      SplitFrame(frames[0], Stream(frames[1..]) + b);
      assert [frames[0]] + (frames[1..] + Split(b).frames) == frames + Split(b).frames;
    }
  }

  /** The stream not yet taken is what the decoder has passed on, what it keeps and what is in the
      socket; all that it keeps is the beginning of a frame, or it has failed on it. */
  predicate Flows(stream: seq<byte>, frames: seq<seq<byte>>, pending: seq<byte>, failed: bool, wire: seq<byte>) {
    && stream == Stream(frames) + pending + wire && AllFit(frames)
    && Split(pending) == Framing([], pending, failed)
  }

  lemma FlowGrows(stream: seq<byte>, frames: seq<seq<byte>>, pending: seq<byte>, failed: bool, wire: seq<byte>,
                  more: seq<byte>)
    requires Flows(stream, frames, pending, failed, wire)
    ensures Flows(stream + more, frames, pending, failed, wire + more)
  {
    hide Stream, AllFit, Split;
  }

  /** One read of the socket moves bytes into the decoder, and whole frames out of it. Once the
      socket is empty, the frames passed on are all those of the stream. */
  lemma SocketRead(stream: seq<byte>, frames: seq<seq<byte>>, pending: seq<byte>, failed: bool, wire: seq<byte>,
                   n: nat, out: seq<seq<byte>>, pending': seq<byte>, failed': bool)
    requires n <= |wire| && Flows(stream, frames, pending, failed, wire)
    requires Framing(out, pending', failed') == Deliver(Framing([], pending, failed), wire[..n])
    ensures Flows(stream, frames + out, pending', failed', wire[n..])
    ensures Framing(frames + out, pending', failed') == Deliver(Framing(frames, pending, failed), wire[..n])
    ensures n == |wire| ==> Split(stream) == Framing(frames + out, pending', failed')
  {
    hide Split, Stream, Fits, Deliver;
    var chunk, left := wire[..n], wire[n..];
    OneDelivery(frames, pending, failed, chunk, out, pending', failed');
    SplitKeepsBytes(pending + chunk);
    RestIsKept(pending + chunk);
    StreamConcat(frames, out);
    Regroup(stream, Stream(frames), pending, chunk, Stream(out), pending', left);
    if n == |wire| {
      FramesComeFirst(frames + out, pending');
      AtTheEnd(stream, Stream(frames + out), pending', left, frames + out);
    }
  }

  lemma OneDelivery(frames: seq<seq<byte>>, pending: seq<byte>, failed: bool, chunk: seq<byte>,
                    out: seq<seq<byte>>, pending': seq<byte>, failed': bool)
    requires Split(pending) == Framing([], pending, failed)
    requires Framing(out, pending', failed') == Deliver(Framing([], pending, failed), chunk)
    ensures Split(pending + chunk) == Framing(out, pending', failed')
    ensures Framing(frames + out, pending', failed') == Deliver(Framing(frames, pending, failed), chunk)
  {
    hide Split;
    SplitResumes(pending, chunk);
  }

  lemma Regroup(stream: seq<byte>, before: seq<byte>, pending: seq<byte>, chunk: seq<byte>, out: seq<byte>,
                pending': seq<byte>, left: seq<byte>)
    requires stream == before + pending + (chunk + left) && out + pending' == pending + chunk
    ensures stream == before + out + pending' + left
  {
    assert stream == before + (pending + chunk) + left;
    assert before + (out + pending') == before + out + pending';
  }

  lemma AtTheEnd(stream: seq<byte>, before: seq<byte>, pending: seq<byte>, left: seq<byte>, frames: seq<seq<byte>>)
    requires stream == before + pending + left && left == []
    ensures stream == before + pending && frames + [] == frames
  {
  }

  lemma FailureShows(stream: seq<byte>, frames: seq<seq<byte>>, pending: seq<byte>, failed: bool, wire: seq<byte>)
    requires Flows(stream, frames, pending, failed, wire) && failed
    ensures Split(stream).failed
  {
    hide Split, Stream;
    FramesComeFirst(frames, pending);
    SplitResumes(Stream(frames) + pending, wire);
  }

  /** The first frame passed on is the first of the stream. */
  lemma FrameTaken(stream: seq<byte>, frames: seq<seq<byte>>, pending: seq<byte>, failed: bool, wire: seq<byte>)
    requires Flows(stream, frames, pending, failed, wire) && frames != []
    ensures FirstFrame(stream) == Some(frames[0])
    ensures Flows(DropFrame(stream), frames[1..], pending, failed, wire)
  {
    hide FirstFrame, DropFrame, Frame, Split;
    var first, others := Frame(frames[0]), Stream(frames[1..]);
    assert Stream(frames) == first + others;
    hide Stream;
    FrontPart(first, others, pending, wire);
    OneFrame(frames[0], others + pending + wire);
  }

  lemma FrontPart(first: seq<byte>, others: seq<byte>, pending: seq<byte>, wire: seq<byte>)
    ensures first + others + pending + wire == first + (others + pending + wire)
  {
  }

  lemma NoStream()
    ensures Stream([]) == []
  {
  }

  // ---------------------------------------------------------------- the pace

  /** The limiter has been asked for one permit at each of the clock readings, and nothing else;
      `grants` are the instants at which it let them through. */
  predicate Paces(c: Config, bucket: Bucket, clock: seq<int>, grants: seq<int>)
    requires c.Valid()
  {
    && |grants| == |clock| && bucket == After(c, RateLimiter.FRESH, Paced(clock))
    && forall i :: 0 <= i < |clock| ==> grants[i] == GrantOf(c, RateLimiter.FRESH, Paced(clock), i)
  }

  lemma OneMoreTurn(c: Config, bucket: Bucket, clock: seq<int>, grants: seq<int>, now: int)
    requires c.Valid() && Paces(c, bucket, clock, grants)
    ensures Paces(c, AfterCall(c, bucket, now, 1), clock + [now], grants + [Grant(c, bucket, now)])
  {
    var calls := Paced(clock + [now]);
    hide AfterCall, Grant;
    assert calls == Paced(clock) + [Call(now, 1)];
    hide Paced;
    assert forall i :: 0 <= i <= |clock| ==> calls[..i] == Paced(clock)[..i];
    assert Paced(clock)[..|clock|] == Paced(clock);
  }

  // ---------------------------------------------------------------- one connection

  class Connection {
    const owner: nat                 // the client process
    const task: AddEntryTask
    const handler: BookieHandler
    const requestDecoder: FrameDecoder
    const responseDecoder: FrameDecoder
    var toServer: seq<byte>          // in the socket
    var inbound: seq<seq<byte>>      // frames passed on to the server's codec
    var toClient: seq<byte>
    var replies: seq<seq<byte>>      // frames passed on to the client's codec
    ghost var k: Conn                // the connection in the model
    ghost var clock: seq<int>        // for each entry generated, the reading at which its turn began
    ghost var grants: seq<int>       // and the instant at which it was posted

    ghost function Repr(): set<object> {
      {this, task, task.rateLimiter, handler, requestDecoder, responseDecoder}
    }

    ghost predicate Valid()
      reads Repr()
    {
      && requestDecoder != responseDecoder
      && task.rateLimiter.Setup().Valid()
      && k.owner == owner && k.client == task.State() && k.handler == handler.State()
      && Flows(k.toServer, inbound, requestDecoder.pending, requestDecoder.failed, toServer)
      && Flows(k.toClient, replies, responseDecoder.pending, responseDecoder.failed, toClient)
      && |clock| == k.client.generated && Paces(task.rateLimiter.Setup(), task.rateLimiter.State(), clock, grants)
    }

    constructor (owner: nat, ledgerId: int64, payload: seq<byte>, rate: real)
      requires 0.0 < rate < MicrosPerSecond()
      ensures Valid() && k == NewConn(owner, ledgerId, payload) && fresh(Repr())
      ensures task.rateLimiter.Setup() == ConfigOf(rate) && clock == []
    {
      this.owner := owner;
      task := new AddEntryTask(ledgerId, payload, rate);
      handler := new BookieHandler();
      requestDecoder := new FrameDecoder();
      responseDecoder := new FrameDecoder();
      toServer, inbound, toClient, replies := [], [], [], [];
      clock, grants := [], [];
      k := NewConn(owner, ledgerId, payload);
    }

    /** A turn of the generator's loop: the entry is posted at `grant`. */
    method Generates(now: int) returns (grant: int)
      requires Valid() && k.client.generated < TWO_63
      modifies this`k, this`clock, this`grants, task`entryIdGenerator, task`closures, task.rateLimiter
      ensures Valid() && k == old(k).(client := Generate(old(k).client))
      ensures grant == Grant(task.rateLimiter.Setup(), old(task.rateLimiter.State()), now)
      ensures task.rateLimiter.State()
           == AfterCall(task.rateLimiter.Setup(), old(task.rateLimiter.State()), now, 1)
      ensures clock == old(clock) + [now] && grants == old(grants) + [grant]
    {
      hide Flows, Paces, AfterCall, Grant;
      OneMoreTurn(task.rateLimiter.Setup(), task.rateLimiter.State(), clock, grants, now);
      grant := task.Turn(now);
      clock, grants := clock + [now], grants + [grant];
      k := k.(client := Generate(k.client));
    }

    method Sends() returns (ghost masterKey: MasterKey)
      requires Valid() && k.client.closures != [] && REQUEST_HEADER_SIZE + |k.client.payload| < TWO_32
      modifies this`toServer, this`k, task`closures, task`pendingRequests
      ensures Valid() && k == SendOn(old(k), masterKey)
    {
      hide Flows, Paces, EncodeRequest;
      var buf, chain := task.SendNext();
      masterKey := buf[8..28];
      FlowGrows(k.toServer, inbound, requestDecoder.pending, requestDecoder.failed, toServer, buf[..] + chain);
      toServer := toServer + (buf[..] + chain);
      k := SendOn(k, masterKey);
    }

    method ServerSocket(n: nat)
      requires Valid() && n <= |toServer|
      modifies this`toServer, this`inbound, requestDecoder
      ensures Valid() && toServer == old(toServer)[n..]
      ensures Framing(inbound, requestDecoder.pending, requestDecoder.failed)
        == Deliver(Framing(old(inbound), old(requestDecoder.pending), old(requestDecoder.failed)), old(toServer)[..n])
      ensures toServer == [] ==>
        Framing(inbound, requestDecoder.pending, requestDecoder.failed) == Split(k.toServer)
    {
      hide Flows, Paces, Deliver, Split;
      var out := requestDecoder.Read(toServer[..n]);
      SocketRead(k.toServer, inbound, old(requestDecoder.pending), old(requestDecoder.failed), toServer, n,
                 out, requestDecoder.pending, requestDecoder.failed);
      inbound, toServer := inbound + out, toServer[n..];
    }

    lemma HasRequest()
      requires Valid() && inbound != []
      ensures FirstFrame(k.toServer).Some?
    {
      hide Paces;
      FrameTaken(k.toServer, inbound, requestDecoder.pending, requestDecoder.failed, toServer);
    }

    lemma HasResponse()
      requires Valid() && replies != []
      ensures FirstFrame(k.toClient).Some? && k.owner == owner
    {
      hide Paces;
      FrameTaken(k.toClient, replies, responseDecoder.pending, responseDecoder.failed, toClient);
    }

    lemma FailuresShow()
      requires Valid()
      ensures requestDecoder.failed ==> Split(k.toServer).failed
      ensures responseDecoder.failed ==> Split(k.toClient).failed
    {
      hide Paces, Flows, Split;
      if requestDecoder.failed {
        FailureShows(k.toServer, inbound, requestDecoder.pending, requestDecoder.failed, toServer);
      }
      if responseDecoder.failed {
        FailureShows(k.toClient, replies, responseDecoder.pending, responseDecoder.failed, toClient);
      }
    }

    /** The codec decodes the next frame and the handler takes it. */
    method ServerHandles(storage: Storage)
      requires Valid() && inbound != [] && k.handler.handling == None && NextRequest(k.toServer).Some?
      requires storage.Valid() && |storage.journalQueue| < storage.capacity && !storage.closed
      modifies this`inbound, this`k, handler, storage
      ensures Valid() && storage.Valid() && inbound == old(inbound)[1..]
      ensures storage.s == J.Step(old(storage.s), J.Enqueue(PutOf(NextRequest(old(k).toServer).value)))
      ensures k == TakeOn(old(k), |old(storage.s).accepted|)
    {
      hide Flows, Paces, DecodeRequest, J.Inv, DropFrame, FirstFrame;
      FrameTaken(k.toServer, inbound, requestDecoder.pending, requestDecoder.failed, toServer);
      var m := ServerRead(inbound[0]);
      k := TakeOn(k, |storage.s.accepted|);
      inbound := inbound[1..];
      match m {
        case Add(request) => handler.HandleAddEntry(request, storage);
        case _ => assert false;
      }
    }

    method Attaches(storage: Storage)
      requires Valid() && k.handler.handling.Some? && storage.Valid()
      modifies this`k, handler
      ensures Valid() && k == AttachOn(old(k), storage.s)
    {
      hide Flows, Paces;
      handler.AttachContinuation(storage);
      k := AttachOn(k, storage.s);
    }

    method Settles(p: nat, ok: bool)
      requires Valid()
      modifies this`k, handler
      ensures Valid() && k == SettleOn(old(k), p, ok)
    {
      hide Flows, Paces;
      handler.Settled(p, ok);
      k := SettleOn(k, p, ok);
    }

    method Responds(i: nat) returns (ghost slack: Slack)
      requires Valid() && i < |k.handler.posted|
      modifies this`toClient, this`k, handler
      ensures Valid() && k == RespondOn(old(k), i, slack)
      ensures |toClient| == |old(toClient)| + 32 && toClient[..|old(toClient)|] == old(toClient)
        && toClient[|old(toClient)|..][..8] == [0, 0, 0, 28, 2, 1, 0, 0]
    {
      hide Flows, Paces, EncodeResponse;
      var buf := handler.RunContinuation(i);
      slack := buf[28..];
      FlowGrows(k.toClient, replies, responseDecoder.pending, responseDecoder.failed, toClient, buf[..]);
      toClient := toClient + buf[..];
      k := RespondOn(k, i, slack);
    }

    method ClientSocket(n: nat)
      requires Valid() && n <= |toClient|
      modifies this`toClient, this`replies, responseDecoder
      ensures Valid() && toClient == old(toClient)[n..]
      ensures Framing(replies, responseDecoder.pending, responseDecoder.failed)
        == Deliver(Framing(old(replies), old(responseDecoder.pending), old(responseDecoder.failed)), old(toClient)[..n])
      ensures toClient == [] ==>
        Framing(replies, responseDecoder.pending, responseDecoder.failed) == Split(k.toClient)
    {
      hide Flows, Paces, Deliver, Split;
      var out := responseDecoder.Read(toClient[..n]);
      SocketRead(k.toClient, replies, old(responseDecoder.pending), old(responseDecoder.failed), toClient, n,
                 out, responseDecoder.pending, responseDecoder.failed);
      replies, toClient := replies + out, toClient[n..];
    }

    /** The codec decodes the next frame and AddEntryTask reacts; `process` is what becomes of it. */
    method ClientHandles() returns (process: Process)
      requires Valid() && replies != [] && NextResponse(k.toClient).Some?
      modifies this`replies, this`k, task`pendingRequests
      ensures Valid() && k == ReadOn(old(k)) && process == ProcessAfter(old(k))
    {
      hide Flows, Paces, DecodeResponse, DropFrame, FirstFrame;
      FrameTaken(k.toClient, replies, responseDecoder.pending, responseDecoder.failed, toClient);
      var m := ClientRead(replies[0]);
      k := ReadOn(k);
      match m {
        case Got(response) =>
          var reaction := task.Read(response);
          match reaction {
            case Exit => process := Ended;
            case NotFound => process := Undefined;
            case Erased(_) =>
              process := Running;
              replies := replies[1..];
          }
        case _ =>
          assert false;
      }
    }
  }

  /** Of the entries a connection's client has generated, those numbered i to j - 1 were posted
      over at least the time they are worth, less the burst. */
  lemma GeneratedAtPace(conn: Connection, i: nat, j: nat)
    requires conn.Valid() && i <= j < conn.k.client.generated
    ensures |conn.grants| == conn.k.client.generated
    ensures var c := conn.task.rateLimiter.Setup();
      c.interval * (j - i) <= c.interval * c.burst + (conn.grants[j] - conn.grants[i])
  {
    hide Flows;
    EntriesArePaced(conn.task.rateLimiter.Setup(), conn.clock, i, j);
  }

  // ---------------------------------------------------------------- all of them

  /** What the journal thread has settled shows in what it shares. */
  lemma SettlesShows(j: J.State, l: J.Label)
    requires J.Enabled(j, l) && !l.Enqueue?
    ensures var j' := J.Step(j, l);
      match Settles(j, l)
      case None => j'.acked == j.acked && j'.broken == j.broken
      case Some((p, true)) => j'.acked == j.acked + [p] && j'.broken == j.broken
      case Some((p, false)) => j'.acked == j.acked && j'.broken == j.broken + {p} && p !in j.broken
  {
    hide J.Apply;
  }

  lemma JournalStepIs(s: State, l: J.Label)
    requires Enabled(s, System.JournalSteps(l))
    ensures var s' := Step(s, System.JournalSteps(l));
      && s'.journal == J.Step(s.journal, l) && s'.processes == s.processes && |s'.conns| == |s.conns|
      && forall c :: 0 <= c < |s.conns| ==>
          s'.conns[c] == match Settles(s.journal, l)
            case None => s.conns[c]
            case Some((p, ok)) => SettleOn(s.conns[c], p, ok)
  {
    hide J.Step, SettleOn, Settles, J.Enabled;
  }

  /** Requests written whose promise has not been handed out, and responses the client has not taken. */
  function UnreadRequests(k: Conn): seq<SentRequest> {
    if |k.promises| <= |k.requests| then k.requests[|k.promises|..] else []
  }

  function UnreadResponses(k: Conn): seq<SentResponse> {
    if k.completed <= |k.answers| then k.answers[k.completed..] else []
  }

  class Cluster {
    const storage: Storage
    const conns: seq<Connection>
    var processes: seq<Process>
    ghost var s: State               // the state of the system

    ghost function Repr(): set<object> {
      {this, storage} + set c, o | 0 <= c < |conns| && o in conns[c].Repr() :: o
    }

    ghost function At(c: nat): Connection
      requires c < |conns|
    {
      conns[c]
    }

    ghost function Handlers(): set<object> { set c | 0 <= c < |conns| :: conns[c].handler }

    ghost predicate Apart() {
      && (forall c :: 0 <= c < |conns| ==> this !in conns[c].Repr() && storage !in conns[c].Repr())
      && (forall c, d :: 0 <= c < d < |conns| ==> conns[c].Repr() !! conns[d].Repr())
    }

    /** Each object is in the state the system says. */
    ghost predicate Shows(state: State)
      reads Repr()
    {
      && storage.Valid() && storage.s == state.journal && processes == state.processes && |conns| == |state.conns|
      && forall c :: 0 <= c < |conns| ==> conns[c].Valid() && conns[c].k == state.conns[c]
    }

    ghost predicate Valid()
      reads Repr()
    {
      Apart() && Shows(s) && Reachable(s)
    }

    /** Over a fresh storage and the given connections of so many client processes. */
    constructor (storage: Storage, conns: seq<Connection>, processes: nat)
      requires storage.Valid() && storage.s == J.Init(storage.capacity, storage.fsyncWal)
      requires forall c :: 0 <= c < |conns| ==> conns[c].Valid() && storage !in conns[c].Repr()
      requires forall c, d :: 0 <= c < d < |conns| ==> conns[c].Repr() !! conns[d].Repr()
      requires forall c :: 0 <= c < |conns| ==> IsNew(conns[c].k) && conns[c].k.owner < processes
      ensures Valid() && Initial(s) && this.storage == storage && this.conns == conns && |s.processes| == processes
    {
      hide Connection.Valid, J.Init, IsNew, Reachable;
      this.storage, this.conns, this.processes := storage, conns, seq(processes, _ => Running);
      s := State(storage.s, seq(|conns|, c requires 0 <= c < |conns| reads conns => conns[c].k), [],
                 seq(processes, _ => Running));
      new;
      InitialIsReachable(s);
    }

    /** The step l has been made on connection c alone. */
    ghost method Made(l: Label, c: nat)
      requires Apart() && Reachable(s) && Enabled(s, l) && c < |conns| && |conns| == |s.conns|
      requires storage.Valid() && storage.s == Step(s, l).journal && processes == Step(s, l).processes
      requires Step(s, l).conns == s.conns[c := conns[c].k]
      requires forall d :: 0 <= d < |conns| ==> conns[d].Valid() && (d != c ==> conns[d].k == s.conns[d])
      modifies this`s
      ensures Valid() && s == Step(old(s), l)
    {
      hide Connection.Valid, Reachable, Enabled, Step;
      ReachableStep(s, l);
      s := Step(s, l);
    }

    /** A turn of the generator's loop, which the limiter lets through at `grant`. */
    method ClientGenerates(c: nat, now: int) returns (grant: int)
      requires Valid() && Enabled(s, System.ClientGenerates(c))
      modifies this`s, At(c)`k, At(c)`clock, At(c)`grants
      modifies conns[c].task`entryIdGenerator, conns[c].task`closures, conns[c].task.rateLimiter
      ensures Valid() && s == Step(old(s), System.ClientGenerates(c))
      ensures var limiter := conns[c].task.rateLimiter;
        && grant == Grant(limiter.Setup(), old(limiter.State()), now)
        && limiter.State() == AfterCall(limiter.Setup(), old(limiter.State()), now, 1)
      ensures conns[c].clock == old(conns[c].clock) + [now] && conns[c].grants == old(conns[c].grants) + [grant]
    {
      hide Connection.Valid, Reachable, Generate, AfterCall, Grant;
      grant := conns[c].Generates(now);
      Made(System.ClientGenerates(c), c);
    }

    method ClientSends(c: nat) returns (ghost masterKey: MasterKey)
      requires Valid() && Runs(s, c) && s.conns[c].client.closures != []
      modifies this`s, At(c)`toServer, At(c)`k, conns[c].task`closures, conns[c].task`pendingRequests
      ensures Valid() && Enabled(old(s), System.ClientSends(c, masterKey))
        && s == Step(old(s), System.ClientSends(c, masterKey))
    {
      hide Connection.Valid, Reachable, Inv, SendOn;
      assert REQUEST_HEADER_SIZE + |s.conns[c].client.payload| < TWO_32 by { ReachableInv(s); PayloadIsSmall(s, c); }
      masterKey := conns[c].Sends();
      Made(System.ClientSends(c, masterKey), c);
    }

    /** Whatever part of what is in the socket a read returns, the system does not notice; the
        decoder takes it, and once the socket is empty every request not yet taken has been passed
        on whole, the decoder keeping nothing. */
    method ServerSocket(c: nat, n: nat)
      requires Valid() && c < |conns| && n <= |conns[c].toServer|
      modifies At(c)`toServer, At(c)`inbound, conns[c].requestDecoder
      ensures Valid() && conns[c].toServer == old(conns[c].toServer)[n..]
      ensures var k, decoder := conns[c], conns[c].requestDecoder;
        && Framing(k.inbound, decoder.pending, decoder.failed)
           == Deliver(Framing(old(k.inbound), old(decoder.pending), old(decoder.failed)), old(k.toServer)[..n])
        && (k.toServer == [] ==>
          && k.inbound == RequestPayloads(UnreadRequests(s.conns[c]))
          && decoder.pending == [] && !decoder.failed)
    {
      hide Connection.Valid, Reachable, Inv, Deliver, Split, RequestPayloads, UnreadRequests;
      ReachableInv(s);
      RequestsAreWhole(s, c);
      conns[c].ServerSocket(n);
      forall d | 0 <= d < |conns| && d != c
        ensures conns[d].Valid() && conns[d].k == s.conns[d]
      {
        assert conns[d].Repr() !! conns[c].Repr();
      }
    }

    method ClientSocket(c: nat, n: nat)
      requires Valid() && c < |conns| && n <= |conns[c].toClient|
      modifies At(c)`toClient, At(c)`replies, conns[c].responseDecoder
      ensures Valid() && conns[c].toClient == old(conns[c].toClient)[n..]
      ensures var k, decoder := conns[c], conns[c].responseDecoder;
        && Framing(k.replies, decoder.pending, decoder.failed)
           == Deliver(Framing(old(k.replies), old(decoder.pending), old(decoder.failed)), old(k.toClient)[..n])
        && (k.toClient == [] ==>
          && k.replies == ResponsePayloads(UnreadResponses(s.conns[c]))
          && decoder.pending == [] && !decoder.failed)
    {
      hide Connection.Valid, Reachable, Inv, Deliver, Split, ResponsePayloads, UnreadResponses;
      ReachableInv(s);
      ResponsesAreWhole(s, c);
      conns[c].ClientSocket(n);
      forall d | 0 <= d < |conns| && d != c
        ensures conns[d].Valid() && conns[d].k == s.conns[d]
      {
        assert conns[d].Repr() !! conns[c].Repr();
      }
    }

    /** A frame that the decoder has passed on is a request, and is enqueued. */
    method ServerReads(c: nat)
      requires Valid() && c < |conns| && conns[c].inbound != [] && s.conns[c].handler.handling == None
      requires |storage.journalQueue| < storage.capacity && !storage.closed
      modifies this`s, storage, At(c)`inbound, At(c)`k, conns[c].handler
      ensures Valid() && Enabled(old(s), System.ServerReads(c)) && s == Step(old(s), System.ServerReads(c))
    {
      hide Connection.Valid, Reachable, Inv, TakeOn, NextRequest, J.Step;
      ReachableInv(s);
      conns[c].HasRequest();
      FrameIsRequest(s, c);
      conns[c].ServerHandles(storage);
      Made(System.ServerReads(c), c);
    }

    method ServerAttaches(c: nat)
      requires Enabled(s, System.ServerAttaches(c)) && Valid()
      modifies this`s, At(c)`k, conns[c].handler
      ensures s == Step(old(s), System.ServerAttaches(c)) && Valid()
    {
      hide Connection.Valid, Reachable, AttachOn;
      conns[c].Attaches(storage);
      Made(System.ServerAttaches(c), c);
    }

    /** The event loop runs a posted continuation, the oldest if it is fair. */
    method ServerResponds(c: nat, i: nat) returns (ghost slack: Slack)
      requires Valid() && c < |conns| && i < |s.conns[c].handler.posted|
      modifies this`s, At(c)`toClient, At(c)`k, conns[c].handler
      ensures Enabled(old(s), System.ServerResponds(c, i, slack))
      ensures s == Step(old(s), System.ServerResponds(c, i, slack)) && Valid()
      ensures var was, wire := old(conns[c].toClient), conns[c].toClient;
        |wire| == |was| + 32 && wire[..|was|] == was && wire[|was|..][..8] == [0, 0, 0, 28, 2, 1, 0, 0]
    {
      hide Connection.Valid, Reachable, RespondOn;
      slack := conns[c].Responds(i);
      Made(System.ServerResponds(c, i, slack), c);
    }

    method ClientReads(c: nat)
      requires Valid() && Runs(s, c) && conns[c].replies != []
      modifies this`s, this`processes, At(c)`replies, At(c)`k, conns[c].task`pendingRequests
      ensures Valid() && Enabled(old(s), System.ClientReads(c)) && s == Step(old(s), System.ClientReads(c))
    {
      hide Connection.Valid, Reachable, Inv, ReadOn, ProcessAfter, NextResponse;
      ReachableInv(s);
      conns[c].HasResponse();
      FrameIsResponse(s, c);
      var process := conns[c].ClientHandles();
      processes := processes[conns[c].owner := process];
      Made(System.ClientReads(c), c);
    }

    /** The journal thread makes a step and leaves the shared part of the storage as `now`; if it
        has settled a promise, its continuation is posted. */
    method JournalSteps(ghost l: J.Label, now: Shared)
      requires Enabled(s, System.JournalSteps(l)) && now == SharedOf(J.Step(s.journal, l)) && Valid()
      modifies this`s, storage, Handlers(), (set c | 0 <= c < |conns| :: conns[c])`k
      ensures s == Step(old(s), System.JournalSteps(l)) && Valid()
    {
      hide Connection.Valid, Reachable, J.Enabled, J.Step, Settles, SettledUpTo, SharedOf, Step;
      var settled := Settled(s.journal, l, storage.fulfilled, storage.broken, now);
      StorageMoves(l, now);
      Settle(settled);
      MadeByJournal(l, settled);
    }

    method StorageMoves(ghost l: J.Label, now: Shared)
      requires Apart() && Shows(s)
      requires J.Enabled(s.journal, l) && !l.Enqueue? && now == SharedOf(J.Step(s.journal, l))
      modifies storage
      ensures storage.Valid() && storage.s == J.Step(s.journal, l) && SettledAs(None)
    {
      hide J.Enabled, J.Step, SharedOf;
      storage.Meanwhile(l, now);
    }

    /** Which promise that is, by comparing what is shared before and after. */
    method Settled(ghost j: J.State, ghost l: J.Label, fulfilled: seq<nat>, broken: set<nat>, now: Shared)
      returns (settled: Option<(nat, bool)>)
      requires J.Enabled(j, l) && !l.Enqueue? && now == SharedOf(J.Step(j, l)) && fulfilled == j.acked
        && broken == j.broken
      ensures settled == System.Settles(j, l)
    {
      hide J.Enabled, J.Step;
      SettlesShows(j, l);
      settled := None;
      if now.fulfilled != fulfilled {
        settled := Some((now.fulfilled[|now.fulfilled| - 1], true));
      } else if now.broken != broken {
        var p :| p in now.broken && p !in broken;
        settled := Some((p, false));
      }
    }

    ghost method MadeByJournal(l: J.Label, settled: Option<(nat, bool)>)
      requires Enabled(s, System.JournalSteps(l)) && settled == System.Settles(s.journal, l)
      requires storage.s == J.Step(s.journal, l) && processes == s.processes
      requires SettledAs(settled)
      requires Apart() && storage.Valid() && Reachable(s)
      modifies this`s
      ensures s == Step(old(s), System.JournalSteps(l)) && Valid()
    {
      hide Connection.Valid, Reachable, Settles, SettleOn, J.Step, Step, J.Enabled;
      ReachableStep(s, System.JournalSteps(l));
      JournalStepIs(s, l);
      s := Step(s, System.JournalSteps(l));
    }

    ghost predicate SettledUpTo(i: nat, p: nat, ok: bool)
      reads Repr()
    {
      |conns| == |s.conns| && forall c :: 0 <= c < |conns| ==>
        conns[c].Valid() && conns[c].k == if c < i then SettleOn(s.conns[c], p, ok) else s.conns[c]
    }

    ghost predicate SettledAs(settled: Option<(nat, bool)>)
      reads Repr()
    {
      match settled case None => SettledUpTo(0, 0, true) case Some((p, ok)) => SettledUpTo(|conns|, p, ok)
    }

    /** The one handler that waits for the promise, if any, posts its continuation. */
    method Settle(settled: Option<(nat, bool)>)
      requires Apart() && SettledAs(None)
      modifies Handlers(), (set c | 0 <= c < |conns| :: conns[c])`k
      ensures SettledAs(settled)
    {
      hide SettleOn;
      if settled == None {
        return;
      }
      var (p, ok) := settled.value;
      for i := 0 to |conns|
        invariant SettledUpTo(i, p, ok)
      {
        SettleOne(i, p, ok);
      }
    }

    method SettleOne(i: nat, p: nat, ok: bool)
      requires Apart() && i < |conns| && SettledUpTo(i, p, ok)
      modifies conns[i].handler, At(i)`k
      ensures SettledUpTo(i + 1, p, ok)
    {
      hide SettleOn;
      conns[i].Settles(p, ok);
      forall c | 0 <= c < |conns| && c != i
        ensures conns[c].Valid() && conns[c].k == old(conns[c].k)
      {
        assert conns[c].Repr() !! conns[i].Repr();
      }
    }
  }

  /** No decoder of a deployment ever meets a frame over the limit. */
  lemma DecodersNeverFail(cluster: Cluster, c: nat)
    requires cluster.Valid() && c < |cluster.conns|
    ensures !cluster.conns[c].requestDecoder.failed && !cluster.conns[c].responseDecoder.failed
  {
    hide Connection.Valid, Reachable, Inv, Split, RequestPayloads, ResponsePayloads;
    ReachableInv(cluster.s);
    RequestsAreWhole(cluster.s, c);
    ResponsesAreWhole(cluster.s, c);
    cluster.conns[c].FailuresShow();
  }

  /** Clients send nothing but AddEntry requests, so that is what a frame holds. */
  lemma FrameIsRequest(s: State, c: nat)
    requires Inv(s) && c < |s.conns| && FirstFrame(s.conns[c].toServer).Some?
    ensures NextRequest(s.conns[c].toServer).Some?
  {
    hide J.Inv, ServerSide, FirstFrame, DropFrame, RequestBytes, ResponseBytes;
    assert ClientSide(s.conns[c]);
    var ms := s.conns[c].requests[|s.conns[c].promises|..];
    RequestStreamHead(ms);
    if ms == [] {
      NothingToRead();
    }
  }

  lemma FrameIsResponse(s: State, c: nat)
    requires Inv(s) && c < |s.conns| && FirstFrame(s.conns[c].toClient).Some?
    ensures NextResponse(s.conns[c].toClient).Some?
  {
    hide J.Inv, ServerSide, FirstFrame, DropFrame, RequestBytes, ResponseBytes;
    assert ClientSide(s.conns[c]);
    var ms := s.conns[c].answers[s.conns[c].completed..];
    ResponseStreamHead(ms);
    if ms == [] {
      NothingToRead();
    }
  }

  /** The stream towards the server is whole requests, each within the limit. */
  lemma RequestsAreWhole(s: State, c: nat)
    requires Inv(s) && c < |s.conns|
    ensures |UnreadRequests(s.conns[c])| == |s.conns[c].requests| - |s.conns[c].promises|
    ensures Split(s.conns[c].toServer) == Framing(RequestPayloads(UnreadRequests(s.conns[c])), [], false)
  {
    hide J.Inv, ServerSide, Split, Stream, EncodeRequest;
    assert ClientSide(s.conns[c]);
    var ms := s.conns[c].requests[|s.conns[c].promises|..];
    RequestBytesAreFrames(ms);
    StreamReframes(RequestPayloads(ms));
  }

  lemma ResponsesAreWhole(s: State, c: nat)
    requires Inv(s) && c < |s.conns|
    ensures |UnreadResponses(s.conns[c])| == |s.conns[c].answers| - s.conns[c].completed
    ensures Split(s.conns[c].toClient) == Framing(ResponsePayloads(UnreadResponses(s.conns[c])), [], false)
  {
    hide J.Inv, ServerSide, Split, Stream, EncodeResponse;
    assert ClientSide(s.conns[c]);
    var ms := s.conns[c].answers[s.conns[c].completed..];
    ResponseBytesAreFrames(ms);
    StreamReframes(ResponsePayloads(ms));
  }

  lemma NothingToRead()
    ensures FirstFrame(RequestBytes([])) == None && FirstFrame(ResponseBytes([])) == None
  {
  }

  lemma PayloadIsSmall(s: State, c: nat)
    requires Inv(s) && c < |s.conns|
    ensures REQUEST_HEADER_SIZE + |s.conns[c].client.payload| < TWO_32
  {
    hide J.Inv, ServerSide, Streamed;
    assert ClientSide(s.conns[c]);
  }
}
