/** Clients, the two byte streams of each connection, handlers and the shared journal, as one
    transition system. */
module System {
  import opened Bytes
  import opened Protocol
  import opened Frames
  import opened Codec
  import opened Endpoints
  import J = JournalModel
  import StorageKey

  /** Which request a promise answers. */
  datatype Origin = Origin(conn: nat, ledgerId: int64, entryId: int64)

  datatype Conn = Conn(
    owner: nat,                  // the client process
    client: Client,
    toServer: seq<byte>,         // written by the client, not yet taken by the server's codec
    handler: Handler,
    toClient: seq<byte>,         // written by the server, not yet taken by the client's codec
    requests: seq<SentRequest>,  // history: requests written
    promises: seq<nat>,          // history: the promise of each request the server has read
    run: seq<Posted>,            // history: continuations run
    answers: seq<SentResponse>,  // history: the response each of them wrote
    completed: nat)              // history: responses that completed an entry of the client's

  /** A client process: an error response ends it, an unknown entry id is undefined behaviour. */
  datatype Process = Running | Ended | Undefined

  datatype State = State(journal: J.State, conns: seq<Conn>, origins: seq<Origin>, processes: seq<Process>)

  function NewConn(owner: nat, ledgerId: int64, payload: seq<byte>): Conn {
    Conn(owner, NewClient(ledgerId, payload), [], IDLE_HANDLER, [], [], [], [], [], 0)
  }

  predicate PayloadFits(ledgerId: int64, payload: seq<byte>) { FitsLimit(RequestFor(ledgerId, payload, 0)) }

  predicate IsNew(k: Conn) {
    k == NewConn(k.owner, k.client.ledgerId, k.client.payload) && PayloadFits(k.client.ledgerId, k.client.payload)
  }

  /** Any number of client processes with any number of connections. A process counts its
      ledger ids from 0, so several may use the same ones. */
  predicate Initial(s: State) {
    && s.journal == J.Init(s.journal.capacity, s.journal.fsync)
    && s.origins == []
    && (forall p :: 0 <= p < |s.processes| ==> s.processes[p] == Running)
    && (forall c :: 0 <= c < |s.conns| ==> IsNew(s.conns[c]) && s.conns[c].owner < |s.processes|)
  }

  /** The client process of connection c runs. */
  predicate Runs(s: State, c: nat) {
    c < |s.conns| && s.conns[c].owner < |s.processes| && s.processes[s.conns[c].owner] == Running
  }

  type MasterKey = k: seq<byte> | |k| == MASTER_KEY_LENGTH witness BE64(0) + BE64(0) + BE32(0)
  type Slack = k: seq<byte> | |k| == 4 witness BE32(0)

  datatype Label =
    | ClientGenerates(c: nat)
    | ClientSends(c: nat, masterKey: MasterKey)   // what the skipped bytes happen to hold
    | ServerReads(c: nat)                         // decode a frame and enqueue it
    | ServerAttaches(c: nat)
    | JournalSteps(l: J.Label)
    | ServerResponds(c: nat, i: nat, slack: Slack) // which is run; what the unwritten bytes hold
    | ClientReads(c: nat)

  function FirstFrame(b: seq<byte>): Option<seq<byte>> {
    var f := Split(b).frames;
    if f == [] then None else Some(f[0])
  }

  function NextRequest(b: seq<byte>): Option<Request> {
    match FirstFrame(b)
    case None => None
    case Some(frame) => match DecodeRequest(frame) case Add(r) => Some(r) case _ => None
  }

  function NextResponse(b: seq<byte>): Option<Response> {
    match FirstFrame(b)
    case None => None
    case Some(frame) => match DecodeResponse(frame) case Got(r) => Some(r) case _ => None
  }

  function DropFrame(b: seq<byte>): seq<byte> {
    match FirstFrame(b)
    case None => b
    case Some(frame) => if 4 + |frame| <= |b| then b[4 + |frame|..] else []
  }

  function PutOf(r: Request): J.Put { J.Put(StorageKey.Key(r.ledgerId, r.entryId), r.data) }

  predicate Enabled(s: State, l: Label) {
    match l
    case ClientGenerates(c) => Runs(s, c) && s.conns[c].client.generated < TWO_63
    case ClientSends(c, _) =>
      Runs(s, c) && s.conns[c].client.closures != []
      && REQUEST_HEADER_SIZE + |s.conns[c].client.payload| < TWO_32
    case ServerReads(c) =>
      c < |s.conns| && s.conns[c].handler.handling == None && NextRequest(s.conns[c].toServer).Some?
      && J.Enabled(s.journal, J.Enqueue(PutOf(NextRequest(s.conns[c].toServer).value)))
    case ServerAttaches(c) => c < |s.conns| && s.conns[c].handler.handling.Some?
    case JournalSteps(l) => !l.Enqueue? && J.Enabled(s.journal, l)
    case ServerResponds(c, i, _) => c < |s.conns| && i < |s.conns[c].handler.posted|
    case ClientReads(c) => Runs(s, c) && NextResponse(s.conns[c].toClient).Some?
  }

  // ---------------------------------------------------------------- one connection

  function SendOn(k: Conn, masterKey: MasterKey): Conn
    requires k.client.closures != [] && REQUEST_HEADER_SIZE + |k.client.payload| < TWO_32
  {
    var r := RequestFor(k.client.ledgerId, k.client.payload, k.client.closures[0]);
    k.(client := Send(k.client), toServer := k.toServer + EncodeRequest(r, masterKey),
       requests := k.requests + [SentRequest(r, masterKey)])
  }

  /** The request is read, and storage hands out promise p. */
  function TakeOn(k: Conn, p: nat): Conn
    requires NextRequest(k.toServer).Some?
  {
    var r := NextRequest(k.toServer).value;
    k.(toServer := DropFrame(k.toServer),
       handler := k.handler.(handling := Some(Continuation(p, r.ledgerId, r.entryId))),
       promises := k.promises + [p])
  }

  function AttachOn(k: Conn, j: J.State): Conn
    requires k.handler.handling.Some?
  {
    k.(handler := Attach(k.handler, FateOf(j, k.handler.handling.value.promise)))
  }

  function SettleOn(k: Conn, p: nat, ok: bool): Conn { k.(handler := OnSettled(k.handler, p, ok)) }

  /** The i-th posted continuation is run. */
  function RespondOn(k: Conn, i: nat, slack: Slack): Conn
    requires i < |k.handler.posted|
  {
    var next := k.handler.posted[i];
    var r := ResponseFor(next.k, next.ok);
    k.(handler := k.handler.(posted := k.handler.posted[..i] + k.handler.posted[i + 1..]),
       toClient := k.toClient + EncodeResponse(r, slack),
       run := k.run + [next], answers := k.answers + [SentResponse(r, slack)])
  }

  function ReadOn(k: Conn): Conn
    requires NextResponse(k.toClient).Some?
  {
    match React(k.client, NextResponse(k.toClient).value)
    case Erased(client) => k.(client := client, toClient := DropFrame(k.toClient), completed := k.completed + 1)
    case _ => k
  }

  function ProcessAfter(k: Conn): Process
    requires NextResponse(k.toClient).Some?
  {
    match React(k.client, NextResponse(k.toClient).value)
    case Erased(_) => Running
    case Exit => Ended
    case NotFound => Undefined
  }

  function SettleAll(conns: seq<Conn>, p: nat, ok: bool): (r: seq<Conn>)
    ensures |r| == |conns|
  {
    seq(|conns|, c requires 0 <= c < |conns| => SettleOn(conns[c], p, ok))
  }

  // ---------------------------------------------------------------- all of it

  /** The promise a journal step settles, and whether with a value. */
  function Settles(j: J.State, l: J.Label): Option<(nat, bool)>
    requires J.Enabled(j, l)
  {
    match l
    case Fulfil => Some((j.entriesToSync[j.pc.next], true))
    case Break(id) => Some((id, false))
    case _ => None
  }

  function Step(s: State, l: Label): State
    requires Enabled(s, l)
  {
    match l
    case ClientGenerates(c) => s.(conns := s.conns[c := s.conns[c].(client := Generate(s.conns[c].client))])
    case ClientSends(c, masterKey) => s.(conns := s.conns[c := SendOn(s.conns[c], masterKey)])
    case ServerReads(c) =>
      var r := NextRequest(s.conns[c].toServer).value;
      s.(journal := J.Step(s.journal, J.Enqueue(PutOf(r))),
         conns := s.conns[c := TakeOn(s.conns[c], |s.journal.accepted|)],
         origins := s.origins + [Origin(c, r.ledgerId, r.entryId)])
    case ServerAttaches(c) => s.(conns := s.conns[c := AttachOn(s.conns[c], s.journal)])
    case JournalSteps(jl) =>
      s.(journal := J.Step(s.journal, jl),
         conns := match Settles(s.journal, jl) case None => s.conns case Some((p, ok)) => SettleAll(s.conns, p, ok))
    case ServerResponds(c, i, slack) => s.(conns := s.conns[c := RespondOn(s.conns[c], i, slack)])
    case ClientReads(c) =>
      s.(conns := s.conns[c := ReadOn(s.conns[c])],
         processes := s.processes[s.conns[c].owner := ProcessAfter(s.conns[c])])
  }

  predicate IsRun(s: State, labels: seq<Label>)
    decreases labels
  {
    labels == [] || (Enabled(s, labels[0]) && IsRun(Step(s, labels[0]), labels[1..]))
  }

  function Exec(s: State, labels: seq<Label>): State
    requires IsRun(s, labels)
    decreases labels
  {
    if labels == [] then s else Exec(Step(s, labels[0]), labels[1..])
  }

  /** A state some interleaving of clients, event loops and the journal thread leads to. */
  ghost predicate Reachable(s: State) {
    exists s0: State, labels: seq<Label> :: Initial(s0) && IsRun(s0, labels) && Exec(s0, labels) == s
  }

  lemma {:induction false} RunConcat(s: State, a: seq<Label>, b: seq<Label>)
    requires IsRun(s, a) && IsRun(Exec(s, a), b)
    ensures IsRun(s, a + b) && Exec(s, a + b) == Exec(Exec(s, a), b)
    decreases a
  {
    hide Step, Enabled;
    if a == [] {
      assert a + b == b;
    } else {
      RunConcat(Step(s, a[0]), a[1..], b);
      assert (a + b)[1..] == a[1..] + b;
    }
  }

  lemma OneStep(s: State, l: Label)
    requires Enabled(s, l)
    ensures IsRun(s, [l]) && Exec(s, [l]) == Step(s, l)
  {
    hide Step, Enabled;
    assert [l][1..] == [];
    assert IsRun(Step(s, l), [l][1..]);
  }

  lemma ReachableStep(s: State, l: Label)
    requires Reachable(s) && Enabled(s, l)
    ensures Reachable(Step(s, l))
  {
    hide Step, Enabled, Initial;
    var s0: State, labels: seq<Label> :| Initial(s0) && IsRun(s0, labels) && Exec(s0, labels) == s;
    OneStep(s, l);
    RunConcat(s0, labels, [l]);
  }

  lemma InitialIsReachable(s: State)
    requires Initial(s)
    ensures Reachable(s)
  {
    hide Initial;
    assert IsRun(s, []) && Exec(s, []) == s;
  }

  // ---------------------------------------------------------------- the two streams

  lemma OneFrame(frame: seq<byte>, tail: seq<byte>)
    requires Fits(frame)
    ensures FirstFrame(Frame(frame) + tail) == Some(frame) && DropFrame(Frame(frame) + tail) == tail
    ensures FirstFrame([]) == None
  {
    SplitFrame(frame, tail);
  }

  /** The server takes the first of the requests encoded in the stream, and leaves the rest. */
  lemma RequestStreamHead(ms: seq<SentRequest>)
    requires forall i :: 0 <= i < |ms| ==> FitsLimit(ms[i].request)
    ensures ms != [] ==> NextRequest(RequestBytes(ms)) == Some(OnArrival(ms[0].request))
    ensures ms != [] ==> DropFrame(RequestBytes(ms)) == RequestBytes(ms[1..])
    ensures ms == [] ==> NextRequest(RequestBytes(ms)) == None
  {
    hide FirstFrame, DropFrame, DecodeRequest, EncodeRequest, RequestPayload, Frame, OnArrival;
    if ms != [] {
      RequestRoundTrip(ms[0].request, ms[0].masterKey);
      OneFrame(RequestPayload(ms[0].request, ms[0].masterKey), RequestBytes(ms[1..]));
    } else {
      OneFrame([], []);
    }
  }

  lemma ResponseStreamHead(ms: seq<SentResponse>)
    ensures ms != [] ==> NextResponse(ResponseBytes(ms)) == Some(ms[0].response)
    ensures ms != [] ==> DropFrame(ResponseBytes(ms)) == ResponseBytes(ms[1..])
    ensures ms == [] ==> NextResponse(ResponseBytes(ms)) == None
  {
    hide FirstFrame, DropFrame, DecodeResponse, EncodeResponse, ResponsePayload, Frame;
    if ms != [] {
      ResponseRoundTrip(ms[0].response, ms[0].slack);
      OneFrame(ResponsePayload(ms[0].response, ms[0].slack), ResponseBytes(ms[1..]));
    } else {
      OneFrame([], []);
    }
  }

  lemma {:induction false} RequestStreamAppend(ms: seq<SentRequest>, m: SentRequest)
    ensures RequestBytes(ms + [m]) == RequestBytes(ms) + EncodeRequest(m.request, m.masterKey)
  {
    hide EncodeRequest;
    if ms == [] {
      assert ms + [m] == [m] && [m][1..] == [];
    } else {
      RequestStreamAppend(ms[1..], m);
      assert (ms + [m])[1..] == ms[1..] + [m];
    }
  }

  lemma {:induction false} ResponseStreamAppend(ms: seq<SentResponse>, m: SentResponse)
    ensures ResponseBytes(ms + [m]) == ResponseBytes(ms) + EncodeResponse(m.response, m.slack)
  {
    hide EncodeResponse;
    if ms == [] {
      assert ms + [m] == [m] && [m][1..] == [];
    } else {
      ResponseStreamAppend(ms[1..], m);
      assert (ms + [m])[1..] == ms[1..] + [m];
    }
  }
}
