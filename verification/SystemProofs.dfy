/** The end-to-end invariant of clients, streams, handlers and journal, and that every step
    keeps it. */
module SystemProofs {
  import opened Bytes
  import opened Codec
  import opened Endpoints
  import opened System
  import J = JournalModel
  import StorageKey

  // ---------------------------------------------------------------- invariant

  /** One of these continuations is entry e's. */
  predicate Has(posts: seq<Posted>, e: int) {
    exists i :: 0 <= i < |posts| && posts[i].k.entryId == e
  }

  /** The client's counters and closures, and its map: what has been sent and not completed. */
  predicate Counted(k: Conn) {
    && PayloadFits(k.client.ledgerId, k.client.payload)
    && k.completed <= |k.run| && |k.promises| <= |k.requests| <= k.client.generated <= TWO_63
    && |k.client.closures| == k.client.generated - |k.requests|
    && (forall i :: 0 <= i < |k.client.closures| ==> k.client.closures[i] == |k.requests| + i)
    && (forall i :: 0 <= i < k.completed ==> k.run[i].k.entryId < |k.requests|)
    && (forall e :: e in k.client.pending ==> 0 <= e < |k.requests| && !Has(k.run[..k.completed], e))
    && (forall e :: 0 <= e < |k.requests| && !Has(k.run[..k.completed], e) ==> e in k.client.pending)
  }

  /** The two streams hold what has been written and not yet read; the client has read only
      answers that are no errors. */
  predicate Streamed(k: Conn) {
    && |k.promises| <= |k.requests| <= TWO_63 && k.completed <= |k.run| == |k.answers|
    && (forall e :: 0 <= e < |k.requests| ==>
      k.requests[e].request == RequestFor(k.client.ledgerId, k.client.payload, e))
    && k.toServer == RequestBytes(k.requests[|k.promises|..])
    && k.toClient == ResponseBytes(k.answers[k.completed..])
    && (forall i :: 0 <= i < |k.run| ==> k.answers[i].response == ResponseFor(k.run[i].k, k.run[i].ok))
    && (forall i :: 0 <= i < k.completed ==> k.run[i].ok)
  }

  predicate ClientSide(k: Conn) { Counted(k) && Streamed(k) }

  /** The continuations posted so far, in order: those run and those to be run. */
  function All(k: Conn): seq<Posted> { k.run + k.handler.posted }

  /** Promises number the connection's requests in order. */
  predicate Numbered(k: Conn, c: nat, origins: seq<Origin>) {
    && |k.promises| <= TWO_63
    && (forall e :: 0 <= e < |k.promises| ==>
        k.promises[e] < |origins| && origins[k.promises[e]] == Origin(c, k.client.ledgerId, e))
    && (forall d, e :: 0 <= d < e < |k.promises| ==> k.promises[d] < k.promises[e])
    && (forall p :: 0 <= p < |origins| && origins[p].conn == c ==>
        0 <= origins[p].entryId < |k.promises| && k.promises[origins[p].entryId] == p)
    && (k.handler.handling.Some? ==>
        |k.promises| > 0 && k.handler.handling.value == BookOf(k).Of(|k.promises| - 1))
  }

  /** What a connection's promises are: those of its first `attached` entries have their
      continuation attached. */
  datatype Book = Book(promises: seq<nat>, ledgerId: int64, attached: nat) {
    predicate Sound() {
      attached <= |promises| <= TWO_63 && forall d, e :: 0 <= d < e < |promises| ==> promises[d] < promises[e]
    }

    /** The continuation of entry e. */
    function Of(e: nat): Continuation
      requires e < |promises| <= TWO_63
    {
      Continuation(promises[e], ledgerId, e)
    }
  }

  function BookOf(k: Conn): Book {
    var n := |k.promises|;
    Book(k.promises, k.client.ledgerId, if k.handler.handling.Some? && n > 0 then n - 1 else n)
  }

  /** What is posted: with a value for fulfilled promises, without one for broken ones. */
  predicate Rightly(x: Posted, b: Book, acked: nat, broken: set<nat>)
    requires b.Sound()
  {
    var e := x.k.entryId;
    && 0 <= e < b.attached && x.k == b.Of(e)
    && if x.ok then b.promises[e] < acked else b.promises[e] in broken
  }

  predicate AllRightly(all: seq<Posted>, b: Book, acked: nat, broken: set<nat>)
    requires b.Sound()
  {
    forall i :: 0 <= i < |all| ==> Rightly(all[i], b, acked, broken)
  }

  /** No entry twice. */
  predicate Once(all: seq<Posted>) {
    forall i, j :: 0 <= i < j < |all| ==> all[i].k.entryId != all[j].k.entryId
  }

  predicate PostedAs(all: seq<Posted>, e: nat, ok: bool) {
    exists i :: 0 <= i < |all| && all[i].k.entryId == e && all[i].ok == ok
  }

  /** Every attached and settled one. */
  predicate SettledArePosted(all: seq<Posted>, b: Book, acked: nat, broken: set<nat>)
    requires b.Sound()
  {
    && (forall e :: 0 <= e < b.attached && b.promises[e] < acked ==> PostedAs(all, e, true))
    && (forall e :: 0 <= e < b.attached && b.promises[e] in broken ==> PostedAs(all, e, false))
  }

  predicate PostedRight(all: seq<Posted>, b: Book, acked: nat, broken: set<nat>)
    requires b.Sound()
  {
    AllRightly(all, b, acked, broken) && Once(all) && SettledArePosted(all, b, acked, broken)
  }

  predicate Pends(e: int, b: Book, acked: nat, broken: set<nat>)
    requires b.Sound()
  {
    0 <= e < b.attached && acked <= b.promises[e] && b.promises[e] !in broken
  }

  predicate Waits(waiting: seq<Continuation>, e: nat) {
    exists i :: 0 <= i < |waiting| && waiting[i].entryId == e
  }

  predicate WaitingRight(waiting: seq<Continuation>, b: Book, acked: nat, broken: set<nat>)
    requires b.Sound()
  {
    && (forall i :: 0 <= i < |waiting| ==>
        Pends(waiting[i].entryId, b, acked, broken) && waiting[i] == b.Of(waiting[i].entryId))
    && (forall i, j :: 0 <= i < j < |waiting| ==> waiting[i].entryId < waiting[j].entryId)
    && (forall e: nat :: e < b.attached && Pends(e, b, acked, broken) ==> Waits(waiting, e))
  }

  predicate ServerSide(k: Conn, c: nat, origins: seq<Origin>, acked: nat, broken: set<nat>) {
    && Numbered(k, c, origins)
    && PostedRight(All(k), BookOf(k), acked, broken)
    && WaitingRight(k.handler.waiting, BookOf(k), acked, broken)
  }

  /** What the journal has accepted is what the origins say. */
  predicate Recorded(s: State) {
    && |s.origins| == |s.journal.accepted|
    && forall p :: 0 <= p < |s.origins| ==>
        && s.origins[p].conn < |s.conns|
        && s.origins[p].ledgerId == s.conns[s.origins[p].conn].client.ledgerId
        && s.journal.accepted[p]
           == J.Put(StorageKey.Key(s.origins[p].ledgerId, s.origins[p].entryId),
             s.conns[s.origins[p].conn].client.payload)
  }

  /** A client process ends only over a broken promise. */
  predicate ProcessesRight(s: State) {
    && (forall c :: 0 <= c < |s.conns| ==> s.conns[c].owner < |s.processes|)
    && (forall p :: 0 <= p < |s.processes| ==>
        s.processes[p] != Undefined && (s.processes[p] == Ended ==> s.journal.broken != {}))
  }

  predicate Inv(s: State) {
    && J.Inv(s.journal)
    && Recorded(s) && ProcessesRight(s)
    && (forall c :: 0 <= c < |s.conns| ==> ClientSide(s.conns[c]))
    && (forall c :: 0 <= c < |s.conns| ==> ServerSide(s.conns[c], c, s.origins, |s.journal.acked|, s.journal.broken))
  }

  // ---------------------------------------------------------------- one connection

  lemma GenerateKeeps(k: Conn)
    requires ClientSide(k) && k.client.generated < TWO_63
    ensures ClientSide(k.(client := Generate(k.client)))
  {
    hide RequestBytes, ResponseBytes;
  }

  lemma SendKeeps(k: Conn, masterKey: MasterKey)
    requires ClientSide(k) && k.client.closures != []
    ensures ClientSide(SendOn(k, masterKey))
  {
    hide Streamed, Counted, EncodeRequest;
    assert REQUEST_HEADER_SIZE + |k.client.payload| < TWO_32 by { CountedFits(k); }
    SendStreams(k, masterKey);
    SendCounts(k, SendOn(k, masterKey));
  }

  lemma CountedFits(k: Conn)
    requires Counted(k)
    ensures REQUEST_HEADER_SIZE + |k.client.payload| < TWO_32
  {
  }

  lemma SendCounts(k: Conn, k': Conn)
    requires Counted(k) && k.client.closures != []
    requires k'.client == Send(k.client) && |k'.requests| == |k.requests| + 1
    requires k'.promises == k.promises && k'.completed == k.completed && k'.run == k.run
    ensures Counted(k')
  {
    hide PayloadFits;
    assert k.client.closures[0] == |k.requests|;
    assert !Has(k.run[..k.completed], |k.requests|);
  }

  lemma SendStreams(k: Conn, masterKey: MasterKey)
    requires ClientSide(k) && k.client.closures != []
    ensures Streamed(SendOn(k, masterKey))
  {
    hide RequestBytes, ResponseBytes, EncodeRequest;
    assert k.client.closures[0] == |k.requests|;
    var m := SentRequest(RequestFor(k.client.ledgerId, k.client.payload, k.client.closures[0]), masterKey);
    var n := |k.promises|;
    RequestStreamAppend(k.requests[n..], m);
    assert (k.requests + [m])[n..] == k.requests[n..] + [m];
  }

  lemma HandlerIsNotTheClients(k: Conn, h: Handler)
    requires ClientSide(k)
    ensures ClientSide(k.(handler := h))
  {
  }

  lemma ClientIsNotTheHandlers(k: Conn, k': Conn, c: nat, origins: seq<Origin>, acked: nat, broken: set<nat>)
    requires ServerSide(k, c, origins, acked, broken)
    requires k'.client.ledgerId == k.client.ledgerId
    requires k'.handler == k.handler && k'.promises == k.promises && k'.run == k.run
    ensures ServerSide(k', c, origins, acked, broken)
  {
    hide PostedRight, WaitingRight;
    assert BookOf(k') == BookOf(k);
  }

  /** The next response the client reads is the next answer; it is an error if its promise is
      broken, and in any case its entry has not been completed. */
  lemma NextAnswer(k: Conn, c: nat, origins: seq<Origin>, acked: nat, broken: set<nat>)
    requires ClientSide(k) && ServerSide(k, c, origins, acked, broken) && NextResponse(k.toClient).Some?
    ensures k.completed < |k.run| == |k.answers| && NextResponse(k.toClient).value == k.answers[k.completed].response
    ensures DropFrame(k.toClient) == ResponseBytes(k.answers[k.completed + 1..])
    ensures var next := k.run[k.completed];
      && 0 <= next.k.entryId < |k.promises| && next.k.ledgerId == k.client.ledgerId
      && !Has(k.run[..k.completed], next.k.entryId)
      && (!next.ok ==> k.promises[next.k.entryId] in broken)
  {
    hide Counted, RequestBytes, ResponseBytes, NextResponse, DropFrame, PostedRight, WaitingRight;
    ResponseStreamHead(k.answers[k.completed..]);
    if k.completed < |k.answers| {
      assert k.answers[k.completed..][1..] == k.answers[k.completed + 1..];
      assert forall i :: 0 <= i < |k.run| ==> All(k)[i] == k.run[i];
      PostedIs(All(k), BookOf(k), acked, broken, k.completed);
    }
  }

  /** A posted continuation, by what it carries. */
  lemma PostedIs(all: seq<Posted>, b: Book, acked: nat, broken: set<nat>, i: nat)
    requires b.Sound() && PostedRight(all, b, acked, broken) && i < |all|
    ensures var e := all[i].k.entryId;
      && 0 <= e < b.attached && all[i].k == b.Of(e)
      && if all[i].ok then b.promises[e] < acked else b.promises[e] in broken
    ensures forall j :: 0 <= j < |all| && j != i ==> all[j].k.entryId != all[i].k.entryId
  {
    assert Rightly(all[i], b, acked, broken);
  }

  lemma ClientReadKeeps(k: Conn, c: nat, origins: seq<Origin>, acked: nat, broken: set<nat>)
    requires ClientSide(k) && ServerSide(k, c, origins, acked, broken) && NextResponse(k.toClient).Some?
    ensures ClientSide(ReadOn(k)) && ServerSide(ReadOn(k), c, origins, acked, broken)
    ensures k.completed < |k.run| && ProcessAfter(k) == if k.run[k.completed].ok then Running else Ended
    ensures !k.run[k.completed].ok ==> broken != {}
  {
    NextAnswer(k, c, origins, acked, broken);
    hide ServerSide, NextResponse, DropFrame;
    Reads(k, ReadOn(k));
    assert ServerSide(ReadOn(k), c, origins, acked, broken) by {
      ClientIsNotTheHandlers(k, ReadOn(k), c, origins, acked, broken);
    }
  }

  lemma Reads(k: Conn, k': Conn)
    requires ClientSide(k) && k.completed < |k.run|
      && DropFrame(k.toClient) == ResponseBytes(k.answers[k.completed + 1..])
    requires var e := k.run[k.completed].k.entryId; 0 <= e < |k.requests| && !Has(k.run[..k.completed], e)
    requires NextResponse(k.toClient) == Some(k.answers[k.completed].response) && k' == ReadOn(k)
    ensures ClientSide(k') && (ProcessAfter(k) == if k.run[k.completed].ok then Running else Ended)
  {
    hide RequestBytes, ResponseBytes, NextResponse, DropFrame, PayloadFits;
    var e := k.run[k.completed].k.entryId;
    assert e in k.client.pending;
    if k.run[k.completed].ok {
      assert k.run[..k.completed + 1] == k.run[..k.completed] + [k.run[k.completed]];
      forall d: int
        ensures Has(k.run[..k.completed + 1], d) <==> Has(k.run[..k.completed], d) || d == e
      {
        HasMore(k.run[..k.completed], k.run[k.completed], d);
      }
      hide Has;
      assert Streamed(k');
      assert Counted(k');
    }
  }

  lemma HasMore(posts: seq<Posted>, x: Posted, e: int)
    ensures Has(posts + [x], e) <==> Has(posts, e) || x.k.entryId == e
  {
    if Has(posts, e) {
      var i :| 0 <= i < |posts| && posts[i].k.entryId == e;
      assert (posts + [x])[i] == posts[i];
    }
    if x.k.entryId == e {
      assert (posts + [x])[|posts|] == x;
    }
  }

  lemma RespondKeeps(k: Conn, c: nat, origins: seq<Origin>, acked: nat, broken: set<nat>, i: nat, slack: Slack)
    requires ClientSide(k) && ServerSide(k, c, origins, acked, broken) && i < |k.handler.posted|
    ensures ClientSide(RespondOn(k, i, slack)) && ServerSide(RespondOn(k, i, slack), c, origins, acked, broken)
  {
    hide ClientSide, ServerSide, RespondOn;
    RespondIsTheServers(k, c, origins, acked, broken, i, slack);
    RespondIsTheClients(k, i, slack);
  }

  lemma RespondIsTheClients(k: Conn, i: nat, slack: Slack)
    requires ClientSide(k) && i < |k.handler.posted|
    ensures ClientSide(RespondOn(k, i, slack))
  {
    hide RequestBytes, ResponseBytes, EncodeResponse, RequestFor, Has, PayloadFits;
    var k', next := RespondOn(k, i, slack), k.handler.posted[i];
    var m := SentResponse(ResponseFor(next.k, next.ok), slack);
    ResponseStreamAppend(k.answers[k.completed..], m);
    assert (k.answers + [m])[k.completed..] == k.answers[k.completed..] + [m];
    assert k'.run[..k.completed] == k.run[..k.completed];
    assert Counted(k');
  }

  /** Whichever posted continuation is run, it stays posted once. */
  lemma RespondIsTheServers(k: Conn, c: nat, origins: seq<Origin>, acked: nat, broken: set<nat>, i: nat, slack: Slack)
    requires ServerSide(k, c, origins, acked, broken) && i < |k.handler.posted|
    ensures ServerSide(RespondOn(k, i, slack), c, origins, acked, broken)
  {
    hide EncodeResponse, PostedRight, WaitingRight;
    var k' := RespondOn(k, i, slack);
    assert BookOf(k') == BookOf(k);
    Reordered(All(k), All(k'), |k.run|, |k.run| + i, BookOf(k), acked, broken);
  }

  /** all' is all with its j-th element moved to place i. */
  predicate Moved(all: seq<Posted>, all': seq<Posted>, i: nat, j: nat) {
    i <= j < |all| == |all'|
    && forall n :: 0 <= n < |all| ==> all'[n] == all[if n < i || n > j then n else if n == i then j else n - 1]
  }

  lemma Reordered(all: seq<Posted>, all': seq<Posted>, i: nat, j: nat, b: Book, acked: nat, broken: set<nat>)
    requires b.Sound() && PostedRight(all, b, acked, broken) && Moved(all, all', i, j)
    ensures PostedRight(all', b, acked, broken)
  {
    forall n | 0 <= n < |all'|
      ensures Rightly(all'[n], b, acked, broken)
    {
      assert Rightly(all[if n < i || n > j then n else if n == i then j else n - 1], b, acked, broken);
    }
    hide Rightly, PostedAs;
    forall e: nat, ok | PostedAs(all, e, ok)
      ensures PostedAs(all', e, ok)
    {
      StillPosted(all, all', i, j, e, ok);
    }
  }

  lemma StillPosted(all: seq<Posted>, all': seq<Posted>, i: nat, j: nat, e: nat, ok: bool)
    requires Moved(all, all', i, j) && PostedAs(all, e, ok)
    ensures PostedAs(all', e, ok)
  {
    var n :| 0 <= n < |all| && all[n].k.entryId == e && all[n].ok == ok;
    assert all'[if n < i || n > j then n else if n == j then i else n + 1] == all[n];
  }

  /** The connection whose request is read: what is read is what was sent next. */
  lemma ServerReadsNext(k: Conn, p: nat)
    requires ClientSide(k) && NextRequest(k.toServer).Some?
    ensures |k.promises| < TWO_63
    ensures NextRequest(k.toServer).value == RequestFor(k.client.ledgerId, k.client.payload, |k.promises|)
    ensures ClientSide(TakeOn(k, p))
  {
    hide RequestBytes, ResponseBytes, NextRequest, DropFrame;
    var n := |k.promises|;
    RequestStreamHead(k.requests[n..]);
    assert n < |k.requests| ==> k.requests[n..][1..] == k.requests[n + 1..];
  }

  lemma ServerReadKeeps(k: Conn, c: nat, origins: seq<Origin>, acked: nat, broken: set<nat>)
    requires ServerSide(k, c, origins, acked, broken) && |k.promises| < TWO_63 && NextRequest(k.toServer).Some?
    requires NextRequest(k.toServer).value == RequestFor(k.client.ledgerId, k.client.payload, |k.promises|)
    requires k.handler.handling == None
    ensures ServerSide(TakeOn(k, |origins|), c, origins + [Origin(c, k.client.ledgerId, |k.promises|)], acked, broken)
  {
    hide DropFrame, NextRequest, PostedRight, WaitingRight;
    var k' := TakeOn(k, |origins|);
    var b, b' := BookOf(k), BookOf(k');
    assert b'.attached == b.attached && b.promises == b'.promises[..b.attached];
    assert forall e :: 0 <= e < b.attached ==> b'.Of(e) == b.Of(e);
    NumberNext(k, k', c, origins);
    hide BookOf, Numbered;
    LongerBook(All(k), k.handler.waiting, b, b', acked, broken);
  }

  lemma NumberNext(k: Conn, k': Conn, c: nat, origins: seq<Origin>)
    requires Numbered(k, c, origins) && |k.promises| < TWO_63 && k'.client == k.client
    requires k'.promises == k.promises + [|origins|]
    requires k'.handler.handling == Some(Continuation(|origins|, k.client.ledgerId, |k.promises|))
    ensures Numbered(k', c, origins + [Origin(c, k.client.ledgerId, |k.promises|)])
  {
  }

  lemma LongerBook(all: seq<Posted>, waiting: seq<Continuation>, b: Book, b': Book, acked: nat, broken: set<nat>)
    requires b.Sound() && b'.Sound() && b'.attached == b.attached <= |b.promises| <= |b'.promises|
      && b'.ledgerId == b.ledgerId
    requires b.promises == b'.promises[..|b.promises|]
    requires PostedRight(all, b, acked, broken) && WaitingRight(waiting, b, acked, broken)
    ensures PostedRight(all, b', acked, broken) && WaitingRight(waiting, b', acked, broken)
  {
    hide PostedAs, Waits;
    assert forall e :: 0 <= e < b.attached ==> b'.promises[e] == b.promises[e];
  }

  lemma OriginElsewhereKeeps(k: Conn, c: nat, origins: seq<Origin>, acked: nat, broken: set<nat>, o: Origin)
    requires ServerSide(k, c, origins, acked, broken) && o.conn != c
    ensures ServerSide(k, c, origins + [o], acked, broken)
  {
    hide PostedRight, WaitingRight;
  }

  /** Attaching late or early, responses stay in request order. */
  lemma AttachKeeps(k: Conn, c: nat, origins: seq<Origin>, j: J.State)
    requires ServerSide(k, c, origins, |j.acked|, j.broken) && k.handler.handling.Some?
    requires forall p: nat :: p in j.acked <==> p < |j.acked|
    requires forall p: nat :: p in j.broken ==> p >= |j.acked|
    ensures ServerSide(AttachOn(k, j), c, origins, |j.acked|, j.broken)
  {
    var k' := AttachOn(k, j);
    var b := BookOf(k);
    assert BookOf(k') == b.(attached := b.attached + 1) && k.handler.handling.value == b.Of(b.attached);
    hide BookOf, PostedRight, WaitingRight, Numbered;
    var k0 := b.Of(b.attached);
    match FateOf(j, k0.promise)
    case Pending =>
      assert All(k') == All(k);
      AttachPending(All(k), k.handler.waiting, b, |j.acked|, j.broken);
    case Fulfilled =>
      assert All(k') == All(k) + [Posted(k0, true)];
      AttachSettled(All(k), k.handler.waiting, b, |j.acked|, j.broken);
    case Broken =>
      assert All(k') == All(k) + [Posted(k0, false)];
      AttachSettled(All(k), k.handler.waiting, b, |j.acked|, j.broken);
  }

  lemma AttachPending(all: seq<Posted>, waiting: seq<Continuation>, b: Book, acked: nat, broken: set<nat>)
    requires b.Sound() && PostedRight(all, b, acked, broken) && WaitingRight(waiting, b, acked, broken)
    requires b.attached < |b.promises| && acked <= b.promises[b.attached] && b.promises[b.attached] !in broken
    ensures var b' := b.(attached := b.attached + 1);
      PostedRight(all, b', acked, broken) && WaitingRight(waiting + [b.Of(b.attached)], b', acked, broken)
  {
    PostedElsewhere(all, b, acked, broken);
    hide PostedRight;
    WaitingGrows(waiting, b, acked, broken);
  }

  lemma WaitingGrows(waiting: seq<Continuation>, b: Book, acked: nat, broken: set<nat>)
    requires b.Sound() && WaitingRight(waiting, b, acked, broken)
    requires b.attached < |b.promises| && acked <= b.promises[b.attached] && b.promises[b.attached] !in broken
    ensures WaitingRight(waiting + [b.Of(b.attached)], b.(attached := b.attached + 1), acked, broken)
  {
    var b', w' := b.(attached := b.attached + 1), waiting + [b.Of(b.attached)];
    forall e: nat | e < b'.attached && Pends(e, b', acked, broken)
      ensures Waits(w', e)
    {
      if e < b.attached {
        assert Pends(e, b, acked, broken);
        var i :| 0 <= i < |waiting| && waiting[i].entryId == e;
        assert w'[i] == waiting[i];
      } else {
        assert w'[|waiting|].entryId == e;
      }
    }
    hide Waits;
    assert forall i :: 0 <= i < |waiting| ==> w'[i] == waiting[i] && Pends(w'[i].entryId, b', acked, broken);
  }

  lemma PostedElsewhere(all: seq<Posted>, b: Book, acked: nat, broken: set<nat>)
    requires b.Sound() && PostedRight(all, b, acked, broken)
    requires b.attached < |b.promises| && acked <= b.promises[b.attached] && b.promises[b.attached] !in broken
    ensures PostedRight(all, b.(attached := b.attached + 1), acked, broken)
  {
    hide PostedAs;
  }

  lemma AttachSettled(all: seq<Posted>, waiting: seq<Continuation>, b: Book, acked: nat, broken: set<nat>)
    requires b.Sound() && PostedRight(all, b, acked, broken) && WaitingRight(waiting, b, acked, broken)
    requires b.attached < |b.promises|
    requires forall p: nat :: p in broken ==> p >= acked
    requires b.promises[b.attached] < acked || b.promises[b.attached] in broken
    ensures var b', ok := b.(attached := b.attached + 1), b.promises[b.attached] < acked;
      && PostedRight(all + [Posted(b.Of(b.attached), ok)], b', acked, broken)
      && WaitingRight(waiting, b', acked, broken)
  {
    var b', e := b.(attached := b.attached + 1), b.attached;
    SettledDoNotWait(waiting, b, acked, broken);
    hide WaitingRight;
    forall i | 0 <= i < |all|
      ensures all[i].k.entryId != e
    {
      assert Rightly(all[i], b, acked, broken);
    }
    PostingKeeps(all, b, b', e, acked, acked, broken, broken);
  }

  lemma SettledDoNotWait(waiting: seq<Continuation>, b: Book, acked: nat, broken: set<nat>)
    requires b.Sound() && WaitingRight(waiting, b, acked, broken) && b.attached < |b.promises|
    requires b.promises[b.attached] < acked || b.promises[b.attached] in broken
    ensures WaitingRight(waiting, b.(attached := b.attached + 1), acked, broken)
  {
    hide Waits;
    var b' := b.(attached := b.attached + 1);
    assert forall e: nat :: e < b'.attached && Pends(e, b', acked, broken) ==>
      e < b.attached && Pends(e, b, acked, broken);
  }

  /** One more attached and settled entry is posted. */
  lemma PostingKeeps(all: seq<Posted>, b: Book, b': Book, e: nat,
                      acked: nat, acked': nat, broken: set<nat>, broken': set<nat>)
    requires b.Sound() && PostedRight(all, b, acked, broken) && e < |b.promises|
    requires b'.Sound() && OnlyNew(b, b', e, acked, acked', broken, broken')
    requires forall i :: 0 <= i < |all| ==> all[i].k.entryId != e
    ensures PostedRight(all + [Posted(b.Of(e), b.promises[e] < acked')], b', acked', broken')
  {
    PostingIsRight(all, b, b', e, acked, acked', broken, broken');
    PostingCovers(all, b, b', e, acked, acked', broken, broken');
  }

  /** The acknowledged and the broken are as before, but for entry e, which is one of them now. */
  predicate OnlyNew(b: Book, b': Book, e: nat, acked: nat, acked': nat, broken: set<nat>, broken': set<nat>)
    requires b.Sound() && b'.Sound()
  {
    && b'.promises == b.promises && b'.ledgerId == b.ledgerId && e < b'.attached
    && (b'.attached == b.attached || (b'.attached == b.attached + 1 && e == b.attached))
    && (forall d :: 0 <= d < |b.promises| && d != e ==>
        (b.promises[d] < acked' <==> b.promises[d] < acked) && (b.promises[d] in broken' <==> b.promises[d] in broken))
    && (b.promises[e] < acked' <==> b.promises[e] !in broken')
  }

  lemma PostingIsRight(all: seq<Posted>, b: Book, b': Book, e: nat,
                      acked: nat, acked': nat, broken: set<nat>, broken': set<nat>)
    requires b.Sound() && b'.Sound() && OnlyNew(b, b', e, acked, acked', broken, broken')
    requires AllRightly(all, b, acked, broken) && Once(all)
    requires forall i :: 0 <= i < |all| ==> all[i].k.entryId != e
    ensures AllRightly(all + [Posted(b.Of(e), b.promises[e] < acked')], b', acked', broken')
    ensures Once(all + [Posted(b.Of(e), b.promises[e] < acked')])
  {
    var all' := all + [Posted(b.Of(e), b.promises[e] < acked')];
    forall i | 0 <= i < |all'|
      ensures Rightly(all'[i], b', acked', broken')
    {
      assert i < |all| ==> Rightly(all[i], b, acked, broken);
    }
  }

  lemma PostingCovers(all: seq<Posted>, b: Book, b': Book, e: nat,
                      acked: nat, acked': nat, broken: set<nat>, broken': set<nat>)
    requires b.Sound() && b'.Sound() && OnlyNew(b, b', e, acked, acked', broken, broken')
    requires SettledArePosted(all, b, acked, broken)
    ensures SettledArePosted(all + [Posted(b.Of(e), b.promises[e] < acked')], b', acked', broken')
  {
    var all' := all + [Posted(b.Of(e), b.promises[e] < acked')];
    assert all'[|all|] == Posted(b.Of(e), b.promises[e] < acked');
    forall d: nat, ok | PostedAs(all, d, ok)
      ensures PostedAs(all', d, ok)
    {
      var i :| 0 <= i < |all| && all[i].k.entryId == d && all[i].ok == ok;
      assert all'[i] == all[i];
    }
    assert PostedAs(all', e, b.promises[e] < acked');
    hide PostedAs;
  }

  /** A promise is fulfilled, the next in order, or broken; broken ones come last. */
  predicate Settling(p: nat, ok: bool, acked: nat, acked': nat, broken: set<nat>, broken': set<nat>) {
    if ok then p == acked && acked' == acked + 1 && broken == broken' == {}
    else p >= acked && acked' == acked && p !in broken && broken' == broken + {p}
  }

  /** Settling a promise posts its continuation, if it is attached, and nothing else. */
  lemma SettleKeeps(k: Conn, c: nat, origins: seq<Origin>, p: nat, ok: bool,
                    acked: nat, acked': nat, broken: set<nat>, broken': set<nat>)
    requires ServerSide(k, c, origins, acked, broken) && Settling(p, ok, acked, acked', broken, broken')
    ensures ServerSide(SettleOn(k, p, ok), c, origins, acked', broken')
  {
    var k', i, b := SettleOn(k, p, ok), Find(k.handler.waiting, p), BookOf(k);
    hide PostedRight, WaitingRight, Settling;
    assert BookOf(k') == b && b.Sound();
    hide BookOf, Numbered;
    NumberedStays(k, k', c, origins);
    if i == |k.handler.waiting| {
      assert All(k') == All(k);
      NothingToSettle(All(k), k.handler.waiting, b, p, ok, acked, acked', broken, broken');
    } else {
      assert All(k') == All(k) + [Posted(k.handler.waiting[i], ok)];
      SettlePosts(All(k), k.handler.waiting, b, i, ok, acked, acked', broken, broken');
      SettleUnwaits(k.handler.waiting, b, i, ok, acked, acked', broken, broken');
    }
  }

  lemma NumberedStays(k: Conn, k': Conn, c: nat, origins: seq<Origin>)
    requires Numbered(k, c, origins)
    requires k'.promises == k.promises && k'.client == k.client && k'.handler.handling == k.handler.handling
    ensures Numbered(k', c, origins)
  {
  }

  lemma NothingToSettle(all: seq<Posted>, waiting: seq<Continuation>, b: Book, p: nat, ok: bool,
                        acked: nat, acked': nat, broken: set<nat>, broken': set<nat>)
    requires b.Sound() && PostedRight(all, b, acked, broken) && WaitingRight(waiting, b, acked, broken)
    requires Settling(p, ok, acked, acked', broken, broken') && forall i :: 0 <= i < |waiting| ==>
      waiting[i].promise != p
    ensures PostedRight(all, b, acked', broken') && WaitingRight(waiting, b, acked', broken')
  {
    forall e | 0 <= e < b.attached
      ensures b.promises[e] != p
    {
      if Pends(e, b, acked, broken) {
        var i :| 0 <= i < |waiting| && waiting[i].entryId == e;
        assert waiting[i].promise == b.promises[e];
      }
    }
    assert forall e :: 0 <= e < b.attached ==> Pends(e, b, acked', broken') == Pends(e, b, acked, broken);
    hide PostedAs, Waits;
    forall i | 0 <= i < |all|
      ensures Rightly(all[i], b, acked', broken')
    {
      assert Rightly(all[i], b, acked, broken);
    }
  }

  lemma SettlePosts(all: seq<Posted>, waiting: seq<Continuation>, b: Book, i: nat, ok: bool,
                    acked: nat, acked': nat, broken: set<nat>, broken': set<nat>)
    requires b.Sound() && PostedRight(all, b, acked, broken) && WaitingRight(waiting, b, acked, broken)
    requires i < |waiting| && Settling(waiting[i].promise, ok, acked, acked', broken, broken')
    ensures PostedRight(all + [Posted(waiting[i], ok)], b, acked', broken')
  {
    var e := waiting[i].entryId;
    assert Pends(e, b, acked, broken) && waiting[i] == b.Of(e);
    hide WaitingRight;
    forall j | 0 <= j < |all|
      ensures all[j].k.entryId != e
    {
      assert Rightly(all[j], b, acked, broken);
    }
    hide PostedRight;
    assert forall d, d' :: 0 <= d < d' < |b.promises| ==> b.promises[d] != b.promises[d'];
    assert ok <==> b.promises[e] < acked';
    PostingKeeps(all, b, b, e, acked, acked', broken, broken');
  }

  lemma SettleUnwaits(waiting: seq<Continuation>, b: Book, i: nat, ok: bool,
                      acked: nat, acked': nat, broken: set<nat>, broken': set<nat>)
    requires b.Sound() && WaitingRight(waiting, b, acked, broken)
    requires i < |waiting| && Settling(waiting[i].promise, ok, acked, acked', broken, broken')
    ensures WaitingRight(waiting[..i] + waiting[i + 1..], b, acked', broken')
  {
    var w' := waiting[..i] + waiting[i + 1..];
    OthersStillWait(waiting, b, i, ok, acked, acked', broken, broken');
    assert forall d, d' :: 0 <= d < d' < |b.promises| ==> b.promises[d] != b.promises[d'];
    hide Waits;
    forall j | 0 <= j < |w'|
      ensures Pends(w'[j].entryId, b, acked', broken') && w'[j] == b.Of(w'[j].entryId)
    {
      assert w'[j] == waiting[if j < i then j else j + 1];
    }
  }

  lemma OthersStillWait(waiting: seq<Continuation>, b: Book, i: nat, ok: bool,
                        acked: nat, acked': nat, broken: set<nat>, broken': set<nat>)
    requires b.Sound() && WaitingRight(waiting, b, acked, broken)
    requires i < |waiting| && Settling(waiting[i].promise, ok, acked, acked', broken, broken')
    ensures forall d: nat :: d < b.attached && Pends(d, b, acked', broken') ==>
      Waits(waiting[..i] + waiting[i + 1..], d)
  {
    var w' := waiting[..i] + waiting[i + 1..];
    forall d: nat | d < b.attached && Pends(d, b, acked', broken')
      ensures Waits(w', d)
    {
      assert Pends(d, b, acked, broken);
      var j :| 0 <= j < |waiting| && waiting[j].entryId == d;
      assert w'[if j < i then j else j - 1] == waiting[j];
    }
  }

  // ---------------------------------------------------------------- the whole system

  lemma NewConnHolds(k: Conn, c: nat)
    requires IsNew(k)
    ensures ClientSide(k) && ServerSide(k, c, [], 0, {})
  {
    NewConnServes(k, c);
    hide ServerSide, PayloadFits, RequestFor;
    assert k.requests[0..] == [] && k.answers[0..] == [] && k.run[..0] == [];
  }

  lemma NewConnServes(k: Conn, c: nat)
    requires IsNew(k)
    ensures ServerSide(k, c, [], 0, {})
  {
    hide PostedAs, Waits, PayloadFits;
    assert All(k) == [];
  }

  lemma InitialInv(s: State)
    requires Initial(s)
    ensures Inv(s)
  {
    hide ClientSide, ServerSide, J.Inv, IsNew;
    J.InitInv(s.journal.capacity, s.journal.fsync);
    forall c | 0 <= c < |s.conns|
      ensures ClientSide(s.conns[c]) && ServerSide(s.conns[c], c, [], 0, {})
    {
      NewConnHolds(s.conns[c], c);
    }
  }

  lemma AckedIsCounted(j: J.State)
    requires J.Inv(j)
    ensures j.acked == Range(0, |j.acked|) && |j.acked| <= |j.accepted|
    ensures forall p: nat :: p in j.acked <==> p < |j.acked|
    ensures forall p: nat :: p in j.broken ==> |j.acked| <= p < |j.accepted|
    ensures j.pc != J.Exited ==> j.broken == {}
    ensures J.Enabled(j, J.Fulfil) ==> j.entriesToSync[j.pc.next] == |j.acked|
  {
    hide J.Stored, J.Holds;
    forall p: nat | p < |j.acked|
      ensures p in j.acked
    {
      assert j.acked[p] == p;
    }
  }

  /** Every step changes at most one connection, or the journal and the handlers. */
  lemma StepKeepsInv(s: State, l: Label)
    requires Inv(s) && Enabled(s, l)
    ensures Inv(Step(s, l))
  {
    hide Inv, Enabled, Step;
    match l
    case ClientGenerates(c) => GenerateStep(s, c);
    case ClientSends(c, masterKey) => SendStep(s, c, masterKey);
    case ServerReads(c) => ServerReadStep(s, c);
    case ServerAttaches(c) => AttachStep(s, c);
    case JournalSteps(jl) => JournalStep(s, jl);
    case ServerResponds(c, i, slack) => RespondStep(s, c, i, slack);
    case ClientReads(c) => ClientReadStep(s, c);
  }

  lemma GenerateStep(s: State, c: nat)
    requires Inv(s) && Enabled(s, ClientGenerates(c))
    ensures Inv(Step(s, ClientGenerates(c)))
  {
    hide ClientSide, ServerSide, J.Inv;
    GenerateKeeps(s.conns[c]);
    ClientIsNotTheHandlers(s.conns[c], Step(s, ClientGenerates(c)).conns[c], c, s.origins, |s.journal.acked|,
      s.journal.broken);
  }

  lemma SendStep(s: State, c: nat, masterKey: MasterKey)
    requires Inv(s) && Enabled(s, ClientSends(c, masterKey))
    ensures Inv(Step(s, ClientSends(c, masterKey)))
  {
    hide ClientSide, ServerSide, J.Inv, EncodeRequest;
    SendKeeps(s.conns[c], masterKey);
    ClientIsNotTheHandlers(s.conns[c], SendOn(s.conns[c], masterKey), c, s.origins, |s.journal.acked|,
      s.journal.broken);
  }

  lemma ClientReadStep(s: State, c: nat)
    requires Inv(s) && Enabled(s, ClientReads(c))
    ensures Inv(Step(s, ClientReads(c)))
  {
    hide ClientSide, ServerSide, J.Inv, NextResponse, DropFrame;
    ClientReadKeeps(s.conns[c], c, s.origins, |s.journal.acked|, s.journal.broken);
    assert ReadOn(s.conns[c]).client.ledgerId == s.conns[c].client.ledgerId
        && ReadOn(s.conns[c]).client.payload == s.conns[c].client.payload;
    hide ReadOn, ProcessAfter;
  }

  lemma AttachStep(s: State, c: nat)
    requires Inv(s) && Enabled(s, ServerAttaches(c))
    ensures Inv(Step(s, ServerAttaches(c)))
  {
    hide ClientSide, ServerSide, J.Inv;
    AckedIsCounted(s.journal);
    AttachKeeps(s.conns[c], c, s.origins, s.journal);
    HandlerIsNotTheClients(s.conns[c], Step(s, ServerAttaches(c)).conns[c].handler);
  }

  lemma RespondStep(s: State, c: nat, i: nat, slack: Slack)
    requires Inv(s) && Enabled(s, ServerResponds(c, i, slack))
    ensures Inv(Step(s, ServerResponds(c, i, slack)))
  {
    hide ClientSide, ServerSide, J.Inv, EncodeResponse;
    RespondKeeps(s.conns[c], c, s.origins, |s.journal.acked|, s.journal.broken, i, slack);
  }

  /** What a journal step does to the promises. */
  lemma JournalSettles(j: J.State, jl: J.Label)
    requires J.Inv(j) && J.Enabled(j, jl) && !jl.Enqueue?
    ensures var j' := J.Step(j, jl);
      && J.Inv(j') && j'.accepted == j.accepted && j.broken <= j'.broken
      && match Settles(j, jl)
         case None => j'.acked == j.acked && j'.broken == j.broken
         case Some((p, ok)) => Settling(p, ok, |j.acked|, |j'.acked|, j.broken, j'.broken)
  {
    hide J.Inv, J.Take, J.Commit;
    J.StepKeepsInv(j, jl);
    AckedIsCounted(j);
    AckedIsCounted(J.Step(j, jl));
    match jl
    case Break(id) => assert id in J.Step(j, jl).broken;
    case ReadHit => TakeSettlesNothing(j);
    case BlockingRead => TakeSettlesNothing(j);
    case Write(ok) => CommitSettlesNothing(j, ok);
    case _ =>
  }

  lemma TakeSettlesNothing(j: J.State)
    requires j.queue != []
    ensures var j' := J.Take(j);
      j'.accepted == j.accepted && j'.acked == j.acked && j'.broken == j.broken
  {
  }

  lemma CommitSettlesNothing(j: J.State, ok: bool)
    ensures var j' := J.Commit(j, ok);
      j'.accepted == j.accepted && j'.acked == j.acked && j'.broken == j.broken
  {
    hide J.Apply;
  }

  lemma JournalStep(s: State, jl: J.Label)
    requires Inv(s) && Enabled(s, JournalSteps(jl))
    ensures Inv(Step(s, JournalSteps(jl)))
  {
    hide ClientSide, ServerSide, J.Inv, J.Step, J.Enabled, Settling;
    JournalSettles(s.journal, jl);
    var s' := Step(s, JournalSteps(jl));
    if Settles(s.journal, jl).Some? {
      var (p, ok) := Settles(s.journal, jl).value;
      hide Settles;
      forall c | 0 <= c < |s.conns|
        ensures ClientSide(s'.conns[c]) && ServerSide(s'.conns[c], c, s.origins, |s'.journal.acked|, s'.journal.broken)
      {
        SettleKeeps(s.conns[c], c, s.origins, p, ok, |s.journal.acked|, |s'.journal.acked|, s.journal.broken,
          s'.journal.broken);
        HandlerIsNotTheClients(s.conns[c], OnSettled(s.conns[c].handler, p, ok));
      }
    }
  }

  lemma ServerReadStep(s: State, c: nat)
    requires Inv(s) && Enabled(s, ServerReads(c))
    ensures Inv(Step(s, ServerReads(c)))
  {
    hide ClientSide, ServerSide, J.Inv, NextRequest, DropFrame, StorageKey.Key;
    var k := s.conns[c];
    ServerReadsNext(k, |s.origins|);
    ServerReadKeeps(k, c, s.origins, |s.journal.acked|, s.journal.broken);
    var r := NextRequest(k.toServer).value;
    J.StepKeepsInv(s.journal, J.Enqueue(PutOf(r)));
    var s' := Step(s, ServerReads(c));
    forall d | 0 <= d < |s.conns| && d != c
      ensures ServerSide(s'.conns[d], d, s'.origins, |s.journal.acked|, s.journal.broken)
    {
      OriginElsewhereKeeps(s.conns[d], d, s.origins, |s.journal.acked|, s.journal.broken, s'.origins[|s.origins|]);
    }
  }

  lemma {:induction false} RunKeepsInv(s: State, labels: seq<Label>)
    requires Inv(s) && IsRun(s, labels)
    ensures Inv(Exec(s, labels))
    decreases labels
  {
    hide Inv, Step, Enabled;
    if labels != [] {
      StepKeepsInv(s, labels[0]);
      RunKeepsInv(Step(s, labels[0]), labels[1..]);
    }
  }

  lemma ReachableInv(s: State)
    requires Reachable(s)
    ensures Inv(s)
  {
    hide Inv, Initial, Step;
    var s0: State, labels: seq<Label> :| Initial(s0) && IsRun(s0, labels) && Exec(s0, labels) == s;
    InitialInv(s0);
    RunKeepsInv(s0, labels);
  }
}
