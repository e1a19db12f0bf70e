/** The end-to-end guarantees, in every reachable state of clients, streams, handlers and journal. */
module SystemTheorems {
  import opened Bytes
  import opened Protocol
  import opened Frames
  import opened Codec
  import opened Endpoints
  import opened System
  import opened SystemProofs
  import J = JournalModel
  import JournalTheorems
  import JournalThread
  import StorageKey

  // ---------------------------------------------------------------- where a request can be

  /** Entry ids of the requests a decoder finds in a stream. */
  function RequestsOnWire(b: seq<byte>): set<int> {
    var ms := DecodedRequests(Split(b).frames);
    set i | 0 <= i < |ms| && ms[i].Add? :: ms[i].request.entryId
  }

  function ResponsesOnWire(b: seq<byte>): set<int> {
    var ms := DecodedResponses(Split(b).frames);
    set i | 0 <= i < |ms| && ms[i].Got? :: ms[i].response.entryId
  }

  /** Promise p is one of connection c's, and not settled by being broken. */
  predicate Awaited(s: State, c: nat, p: nat) {
    p < |s.origins| && s.origins[p].conn == c && p !in s.journal.broken
  }

  /** In the journal queue. */
  function InQueue(s: State, c: nat): set<int> {
    var q := s.journal.queue;
    set i | 0 <= i < |q| && q[i].Data? && Awaited(s, c, q[i].id) :: s.origins[q[i].id].entryId
  }

  /** Collected in the current batch, promise not yet fulfilled. */
  function InBatch(s: State, c: nat): set<int> {
    var ids := s.journal.entriesToSync;
    var from := if s.journal.pc.Acking? then s.journal.pc.next else 0;
    set i | from <= i < |ids| && Awaited(s, c, ids[i]) :: s.origins[ids[i]].entryId
  }

  predicate IsSettled(j: J.State, p: nat) { p in j.acked || p in j.broken }

  /** Promise settled, continuation posted or still being attached. */
  function Undelivered(s: State, c: nat): set<int>
    requires c < |s.conns|
  {
    var h := s.conns[c].handler;
    (set i | 0 <= i < |h.posted| :: h.posted[i].k.entryId)
    + if h.handling.Some? && IsSettled(s.journal, h.handling.value.promise) then {h.handling.value.entryId} else {}
  }

  /** What the invariant says of one connection. */
  lemma ConnHolds(s: State, c: nat)
    requires Inv(s) && c < |s.conns|
    ensures ClientSide(s.conns[c]) && ServerSide(s.conns[c], c, s.origins, |s.journal.acked|, s.journal.broken)
    ensures |s.origins| == |s.journal.accepted|
  {
    hide J.Inv, ClientSide, ServerSide;
  }

  lemma InvJournal(s: State)
    requires Inv(s)
    ensures J.Inv(s.journal)
  {
  }

  lemma PromiseAnswers(s: State, c: nat, e: nat)
    requires Inv(s) && c < |s.conns| && e < |s.conns[c].promises|
    ensures e < TWO_63
    ensures var p := s.conns[c].promises[e];
      p < |s.origins| && s.origins[p] == Origin(c, s.conns[c].client.ledgerId, e) && p < |s.journal.accepted|
  {
    hide Inv, ClientSide, PostedRight, WaitingRight;
    ConnHolds(s, c);
  }

  lemma OriginAnswers(s: State, c: nat, p: nat)
    requires Inv(s) && c < |s.conns| && p < |s.origins| && s.origins[p].conn == c
    ensures 0 <= s.origins[p].entryId < |s.conns[c].promises| && s.conns[c].promises[s.origins[p].entryId] == p
  {
    hide Inv, ClientSide, PostedRight, WaitingRight;
    ConnHolds(s, c);
  }

  lemma InQueueIs(s: State, c: nat, e: int)
    requires Inv(s) && c < |s.conns|
    ensures var ps := s.conns[c].promises;
      e in InQueue(s, c) <==> 0 <= e < |ps| && ps[e] >= s.journal.taken && ps[e] !in s.journal.broken
  {
    var ps, j := s.conns[c].promises, s.journal;
    assert J.Holds(j.queue, j.accepted, j.taken) && |s.origins| == |j.accepted|;
    J.QueueIds(j.queue, j.accepted, j.taken);
    if 0 <= e < |ps| && ps[e] >= j.taken && ps[e] !in j.broken {
      PromiseAnswers(s, c, e);
      var i := J.QueueFinds(j.queue, j.accepted, j.taken, ps[e]);
      assert Awaited(s, c, j.queue[i].id);
    }
    hide Inv;
    if e in InQueue(s, c) {
      var i :| 0 <= i < |j.queue| && j.queue[i].Data? && Awaited(s, c, j.queue[i].id)
        && s.origins[j.queue[i].id].entryId == e;
      OriginAnswers(s, c, j.queue[i].id);
    }
  }

  lemma CollectedIds(j: J.State)
    requires J.Inv(j)
    ensures var from := if j.pc.Acking? then j.pc.next else 0;
      && from <= |j.entriesToSync| && |j.acked| == J.BatchStart(j) + from
        && J.BatchStart(j) + |j.entriesToSync| == j.taken
      && forall i :: 0 <= i < |j.entriesToSync| ==> j.entriesToSync[i] == J.BatchStart(j) + i
  {
  }

  lemma InBatchIs(s: State, c: nat, e: int)
    requires Inv(s) && c < |s.conns|
    ensures var ps := s.conns[c].promises;
      e in InBatch(s, c) <==>
        0 <= e < |ps| && |s.journal.acked| <= ps[e] < s.journal.taken && ps[e] !in s.journal.broken
  {
    hide Inv, J.BatchStart;
    var ps, j := s.conns[c].promises, s.journal;
    CollectedIds(j) by { InvJournal(s); }
    if 0 <= e < |ps| && |j.acked| <= ps[e] < j.taken && ps[e] !in j.broken {
      BatchHolds(s, c, e);
    }
    if e in InBatch(s, c) {
      var i :| (if j.pc.Acking? then j.pc.next else 0) <= i < |j.entriesToSync|
            && Awaited(s, c, j.entriesToSync[i]) && s.origins[j.entriesToSync[i]].entryId == e;
      OriginAnswers(s, c, j.entriesToSync[i]);
    }
  }

  lemma BatchHolds(s: State, c: nat, e: nat)
    requires Inv(s) && c < |s.conns| && e < |s.conns[c].promises|
    requires |s.journal.acked| <= s.conns[c].promises[e] < s.journal.taken
      && s.conns[c].promises[e] !in s.journal.broken
    ensures e in InBatch(s, c)
  {
    hide Inv;
    var j, p := s.journal, s.conns[c].promises[e];
    CollectedIds(j) by { InvJournal(s); }
    PromiseAnswers(s, c, e);
    var i := p - J.BatchStart(j);
    assert j.entriesToSync[i] == p && Awaited(s, c, j.entriesToSync[i]);
  }

  lemma PostedIff(all: seq<Posted>, b: Book, acked: nat, broken: set<nat>, e: int)
    requires b.Sound() && PostedRight(all, b, acked, broken)
    ensures Has(all, e) <==> 0 <= e < b.attached && (b.promises[e] < acked || b.promises[e] in broken)
    ensures Once(all)
  {
    if i :| 0 <= i < |all| && all[i].k.entryId == e {
      assert Rightly(all[i], b, acked, broken);
    }
    if 0 <= e < b.attached && b.promises[e] < acked {
      assert PostedAs(all, e, true);
    }
    if 0 <= e < b.attached && b.promises[e] in broken {
      assert PostedAs(all, e, false);
    }
  }

  /** In two parts, a continuation is in one or the other. */
  lemma HasParts(a: seq<Posted>, b: seq<Posted>, e: int)
    ensures Has(a + b, e) <==> Has(a, e) || Has(b, e)
    ensures Once(a + b) ==> !(Has(a, e) && Has(b, e))
  {
    var all := a + b;
    if Has(a, e) {
      var i :| 0 <= i < |a| && a[i].k.entryId == e;
      assert all[i] == a[i];
    }
    if Has(b, e) {
      var i :| 0 <= i < |b| && b[i].k.entryId == e;
      assert all[|a| + i] == b[i];
    }
    if Has(all, e) {
      var i :| 0 <= i < |all| && all[i].k.entryId == e;
      assert all[i] == if i < |a| then a[i] else b[i - |a|];
    }
  }

  lemma OnceBefore(a: seq<Posted>, b: seq<Posted>)
    requires Once(a + b)
    ensures Once(a)
  {
    assert forall i :: 0 <= i < |a| ==> (a + b)[i] == a[i];
  }

  /** What the invariant says of entry e's continuation: it has been run if attached and settled,
      unless it is still posted; and what has been run has been read by the client or not. */
  lemma ContinuationIs(s: State, c: nat, e: int)
    requires Inv(s) && c < |s.conns|
    ensures var k, b := s.conns[c], BookOf(s.conns[c]);
      && b.attached <= |k.promises| && b.promises == k.promises && k.completed <= |k.run|
      && (Has(k.run, e) || Has(k.handler.posted, e) <==> 0 <= e < b.attached && IsSettled(s.journal, k.promises[e]))
      && !(Has(k.run, e) && Has(k.handler.posted, e))
      && (Has(k.run, e) <==> Has(k.run[..k.completed], e) || Has(k.run[k.completed..], e))
      && !(Has(k.run[..k.completed], e) && Has(k.run[k.completed..], e))
      && match k.handler.handling
         case None => b.attached == |k.promises|
         case Some(h) =>
           && b.attached == |k.promises| - 1
           && h.entryId == b.attached && h.promise == k.promises[b.attached]
  {
    hide Inv, Has, PostedRight, WaitingRight, Streamed;
    ConnHolds(s, c);
    AckedIsCounted(s.journal) by { InvJournal(s); }
    var k := s.conns[c];
    var b := BookOf(k);
    PostedIff(All(k), b, |s.journal.acked|, s.journal.broken, e);
    HasParts(k.run, k.handler.posted, e);
    OnceBefore(k.run, k.handler.posted);
    assert k.run[..k.completed] + k.run[k.completed..] == k.run;
    HasParts(k.run[..k.completed], k.run[k.completed..], e);
  }

  lemma RunIs(s: State, c: nat, i: nat)
    requires Inv(s) && c < |s.conns| && i < |s.conns[c].run|
    ensures var k, x := s.conns[c], s.conns[c].run[i];
      var e := x.k.entryId;
      && 0 <= e < BookOf(k).attached <= |k.promises| && x.k.ledgerId == k.client.ledgerId
      && if x.ok then k.promises[e] < |s.journal.acked| else k.promises[e] in s.journal.broken
  {
    hide Inv, ClientSide, PostedRight, WaitingRight;
    ConnHolds(s, c);
    var k := s.conns[c];
    PostedIs(All(k), BookOf(k), |s.journal.acked|, s.journal.broken, i);
  }

  lemma OnWireIs(s: State, c: nat, e: int)
    requires Inv(s) && c < |s.conns|
    ensures var k := s.conns[c];
      && k.completed <= |k.run|
      && (e in RequestsOnWire(k.toServer) <==> |k.promises| <= e < |k.requests|)
      && (e in ResponsesOnWire(k.toClient) <==> Has(k.run[k.completed..], e))
  {
    hide Inv, ServerSide, BookOf, RequestBytes, ResponseBytes, Split, DecodedRequests, DecodedResponses;
    ConnHolds(s, c);
    var k := s.conns[c];
    var qs, rs, unread := k.requests[|k.promises|..], k.answers[k.completed..], k.run[k.completed..];
    RequestsDecodeFrom(qs);
    ResponsesDecodeFrom(rs);
    if |k.promises| <= e < |k.requests| {
      assert Arrivals(qs)[e - |k.promises|].request.entryId == e;
    }
    if Has(unread, e) {
      var i :| 0 <= i < |unread| && unread[i].k.entryId == e;
      assert Replies(rs)[i].response.entryId == e;
    }
    if e in ResponsesOnWire(k.toClient) {
      var i :| 0 <= i < |Replies(rs)| && Replies(rs)[i].Got? && Replies(rs)[i].response.entryId == e;
      assert unread[i].k.entryId == e;
    }
  }

  lemma RequestsDecodeFrom(ms: seq<SentRequest>)
    requires forall i :: 0 <= i < |ms| ==> FitsLimit(ms[i].request)
    ensures DecodedRequests(Split(RequestBytes(ms)).frames) == Arrivals(ms)
  {
    hide Split, DecodeRequest, EncodeRequest, RequestBytes, Stream;
    RequestBytesAreFrames(ms);
    StreamReframes(RequestPayloads(ms));
    RequestsDecode(ms);
  }

  lemma ResponsesDecodeFrom(ms: seq<SentResponse>)
    ensures DecodedResponses(Split(ResponseBytes(ms)).frames) == Replies(ms)
  {
    hide Split, DecodeResponse, EncodeResponse, ResponseBytes, Stream;
    ResponseBytesAreFrames(ms);
    StreamReframes(ResponsePayloads(ms));
    ResponsesDecode(ms);
  }

  lemma UndeliveredIs(s: State, c: nat, e: int)
    requires Inv(s) && c < |s.conns|
    ensures var k := s.conns[c];
      e in Undelivered(s, c) <==> 0 <= e < |k.promises| && IsSettled(s.journal, k.promises[e]) && !Has(k.run, e)
  {
    hide Inv, IsSettled, BookOf;
    var k := s.conns[c];
    ContinuationIs(s, c, e);
    assert Has(k.handler.posted, e) <==> e in (set i | 0 <= i < |k.handler.posted| :: k.handler.posted[i].k.entryId);
  }

  /** A request the client waits for is in exactly one place: encoded on its way to the
      server, in the journal queue, in the current batch, settled but not answered, or
      encoded on its way back. */
  lemma RequestsAreConserved(s: State, c: nat)
    requires Reachable(s) && c < |s.conns|
    ensures var k := s.conns[c];
      var toServer, queued, batched, undelivered, toClient :=
        RequestsOnWire(k.toServer), InQueue(s, c), InBatch(s, c), Undelivered(s, c), ResponsesOnWire(k.toClient);
      && k.client.pending == toServer + queued + batched + undelivered + toClient
      && toServer !! queued !! batched !! undelivered !! toClient
  {
    hide InQueue, InBatch, Undelivered, RequestsOnWire, ResponsesOnWire, Inv, Reachable;
    ReachableInv(s);
    var k := s.conns[c];
    forall e: int
      ensures e in k.client.pending <==>
        e in RequestsOnWire(k.toServer) || e in InQueue(s, c) || e in InBatch(s, c) || e in Undelivered(s, c)
          || e in ResponsesOnWire(k.toClient)
      ensures e in RequestsOnWire(k.toServer) ==> e !in InQueue(s, c)
      ensures e in RequestsOnWire(k.toServer) || e in InQueue(s, c) ==> e !in InBatch(s, c)
      ensures e in RequestsOnWire(k.toServer) || e in InQueue(s, c) || e in InBatch(s, c) ==> e !in Undelivered(s, c)
      ensures e in RequestsOnWire(k.toServer) || e in InQueue(s, c) || e in InBatch(s, c) || e in Undelivered(s, c) ==>
        e !in ResponsesOnWire(k.toClient)
    {
      EachIsInOnePlace(s, c, e);
    }
  }

  lemma EachIsInOnePlace(s: State, c: nat, e: int)
    requires Inv(s) && c < |s.conns|
    ensures var k := s.conns[c];
      var toServer, queued, batched, undelivered, toClient :=
        e in RequestsOnWire(k.toServer), e in InQueue(s, c), e in InBatch(s, c), e in Undelivered(s, c),
          e in ResponsesOnWire(k.toClient);
      && (e in k.client.pending <==> toServer || queued || batched || undelivered || toClient)
      && (toServer ==> !queued) && (toServer || queued ==> !batched) && (toServer || queued || batched ==> !undelivered)
      && (toServer || queued || batched || undelivered ==> !toClient)
  {
    var k, j := s.conns[c], s.journal;
    AckedIsCounted(j);
    CollectedIds(j);
    PendingIs(s, c, e);
    hide InQueue, InBatch, Undelivered, RequestsOnWire, ResponsesOnWire, Inv, BookOf, Has;
    OnWireIs(s, c, e);
    InQueueIs(s, c, e);
    InBatchIs(s, c, e);
    UndeliveredIs(s, c, e);
    ContinuationIs(s, c, e);
  }

  lemma PendingIs(s: State, c: nat, e: int)
    requires Inv(s) && c < |s.conns|
    ensures var k := s.conns[c];
      && |k.promises| <= |k.requests| && k.completed <= |k.run|
      && (e in k.client.pending <==> 0 <= e < |k.requests| && !Has(k.run[..k.completed], e))
  {
    hide Inv, ServerSide, Streamed;
    ConnHolds(s, c);
  }

  // ---------------------------------------------------------------- responses and errors

  lemma InvProcesses(s: State)
    requires Inv(s)
    ensures ProcessesRight(s)
  {
  }

  /** The find for a response always hits, in whatever order continuations are run; and the
      response is an error if and only if its entry's promise was broken. */
  lemma ResponsesFindTheirRequest(s: State, c: nat)
    requires Reachable(s) && c < |s.conns|
    ensures forall p :: 0 <= p < |s.processes| ==> s.processes[p] != Undefined
    ensures Enabled(s, ClientReads(c)) ==>
      var k, r := s.conns[c], NextResponse(s.conns[c].toClient).value;
      && r.ledgerId == k.client.ledgerId && r.entryId in k.client.pending
      && 0 <= r.entryId < |k.promises|
      && (r.errorCode != ERROR_OK <==> k.promises[r.entryId] in s.journal.broken)
  {
    hide Inv, ClientSide, NextResponse, ServerSide, RequestBytes, ResponseBytes, Reachable, Has;
    ReachableInv(s);
    assert ProcessesRight(s) by { InvProcesses(s); }
    if Enabled(s, ClientReads(c)) {
      var k := s.conns[c];
      ConnHolds(s, c);
      NextAnswer(k, c, s.origins, |s.journal.acked|, s.journal.broken);
      AnswerTells(s, c, k.completed);
      PendingIs(s, c, k.run[k.completed].k.entryId);
    }
  }

  /** The i-th answer on connection c says what happened to its entry. */
  lemma AnswerTells(s: State, c: nat, i: nat)
    requires Inv(s) && c < |s.conns| && i < |s.conns[c].answers|
    ensures var k := s.conns[c];
      var r := k.answers[i].response;
      && |k.run| == |k.answers| && r == ResponseFor(k.run[i].k, k.run[i].ok) && 0 <= r.entryId < |k.promises|
      && r.ledgerId == k.client.ledgerId
      && if k.run[i].ok then k.promises[r.entryId] in s.journal.acked && k.promises[r.entryId] !in s.journal.broken
         else k.promises[r.entryId] in s.journal.broken && k.promises[r.entryId] !in s.journal.acked
  {
    hide Inv, ServerSide, RequestBytes, ResponseBytes, BookOf;
    ConnHolds(s, c);
    AckedIsCounted(s.journal) by { InvJournal(s); }
    RunIs(s, c, i);
  }

  /** A response is of version 2, for AddEntry, and OK or IOError (101). It is an error if and only
      if its entry is lost: enqueued and, with the journal thread gone, never acknowledged. No entry
      is answered twice. */
  lemma ErrorsAreTheLoss(s: State, c: nat, i: nat)
    requires Reachable(s) && c < |s.conns| && i < |s.conns[c].answers|
    ensures var k, r := s.conns[c], s.conns[c].answers[i].response;
      && 0 <= r.entryId < |k.promises| && r.ledgerId == k.client.ledgerId
      && r.version == 2 && r.opCode == 1 && (r.errorCode == 0 || r.errorCode == 101)
      && (r.errorCode == 101 <==> s.journal.pc == J.Exited && J.Lost(s.journal, k.promises[r.entryId]))
      && forall d :: 0 <= d < |k.answers| && d != i ==> k.answers[d].response.entryId != r.entryId
  {
    hide Inv, Reachable, PostedRight, WaitingRight, RequestBytes, ResponseBytes;
    ReachableInv(s);
    AnswerTells(s, c, i);
    AckedIsCounted(s.journal) by { InvJournal(s); }
    ConnHolds(s, c);
    var k := s.conns[c];
    PostedIs(All(k), BookOf(k), |s.journal.acked|, s.journal.broken, i);
    assert forall d :: 0 <= d < |k.run| ==> All(k)[d] == k.run[d];
  }

  predicate ErrorPosted(all: seq<Posted>) {
    exists i :: 0 <= i < |all| && !all[i].ok
  }

  /** A promise has been broken that a continuation was attached to. */
  predicate AttachedIsBroken(b: Book, broken: set<nat>)
    requires b.Sound()
  {
    exists e :: 0 <= e < b.attached && b.promises[e] in broken
  }

  lemma ErrorIffAttachedIsBroken(all: seq<Posted>, b: Book, acked: nat, broken: set<nat>)
    requires b.Sound() && PostedRight(all, b, acked, broken) && forall p: nat :: p in broken ==> p >= acked
    ensures ErrorPosted(all) <==> AttachedIsBroken(b, broken)
  {
    if i :| 0 <= i < |all| && !all[i].ok {
      PostedIs(all, b, acked, broken, i);
    }
    if e :| 0 <= e < b.attached && b.promises[e] in broken {
      assert PostedAs(all, e, false);
    }
  }

  /** An error is posted on a connection if and only if one of its promises has been broken
      with a continuation attached. Neither that nor an end of a client process happens
      while no promise has been broken, and none is before the journal thread has exited. */
  lemma ErrorsIffBroken(s: State, c: nat)
    requires Reachable(s) && c < |s.conns|
    ensures BookOf(s.conns[c]).Sound()
    ensures ErrorPosted(All(s.conns[c])) <==> AttachedIsBroken(BookOf(s.conns[c]), s.journal.broken)
    ensures Ended in s.processes || ErrorPosted(All(s.conns[c])) ==> s.journal.broken != {}
    ensures s.journal.broken != {} ==> s.journal.pc == J.Exited
  {
    hide Inv, Reachable, ClientSide, PostedRight, WaitingRight, ErrorPosted;
    ReachableInv(s);
    ConnHolds(s, c);
    AckedIsCounted(s.journal) by { InvJournal(s); }
    assert ProcessesRight(s) by { InvProcesses(s); }
    var k := s.conns[c];
    ErrorIffAttachedIsBroken(All(k), BookOf(k), |s.journal.acked|, s.journal.broken);
  }

  // ---------------------------------------------------------------- the journal's own guarantees

  lemma {:induction false} JournalRuns(s: State, labels: seq<Label>, j0: J.State)
    requires IsRun(s, labels) && JournalThread.Leads(j0, s.journal)
    ensures JournalThread.Leads(j0, Exec(s, labels).journal)
    decreases labels
  {
    hide Step, Enabled, JournalThread.Leads;
    if labels != [] {
      JournalFollows(s, labels[0], j0);
      JournalRuns(Step(s, labels[0]), labels[1..], j0);
    }
  }

  lemma JournalFollows(s: State, l: Label, j0: J.State)
    requires Enabled(s, l) && JournalThread.Leads(j0, s.journal)
    ensures JournalThread.Leads(j0, Step(s, l).journal)
  {
    hide J.Step, J.Enabled, JournalThread.Leads;
    match l
    case ServerReads(c) =>
      JournalThread.LeadsStep(j0, s.journal, J.Enqueue(PutOf(NextRequest(s.conns[c].toServer).value)));
    case JournalSteps(jl) => JournalThread.LeadsStep(j0, s.journal, jl);
    case _ =>
  }

  /** Within the system the journal runs as it does on its own, so all that is proved of its
      reachable states holds here. */
  lemma JournalIsReachable(s: State)
    requires Reachable(s)
    ensures J.Reachable(s.journal)
  {
    hide Step, J.Init;
    var s0: State, labels: seq<Label> :| Initial(s0) && IsRun(s0, labels) && Exec(s0, labels) == s;
    JournalThread.NowhereLeads(s0.journal);
    JournalRuns(s0, labels, s0.journal);
  }

  // ---------------------------------------------------------------- durability

  /** puts[p] is the last of the puts with its key. */
  predicate LastPut(puts: seq<J.Put>, p: nat) {
    p < |puts| && forall q :: p < q < |puts| ==> puts[q].key != puts[p].key
  }

  /** The database holds the last of the puts under the key. */
  lemma {:induction false} ReplayHoldsLast(puts: seq<J.Put>, p: nat)
    requires LastPut(puts, p)
    ensures puts[p].key in J.Replay(puts) && J.Replay(puts)[puts[p].key] == puts[p].value
  {
    var k := |puts| - 1;
    if p < k {
      assert puts[..k][p] == puts[p];
      ReplayHoldsLast(puts[..k], p);
    }
  }

  lemma {:induction false} LastPutFrom(puts: seq<J.Put>, p: nat) returns (last: nat)
    requires p < |puts|
    ensures p <= last && LastPut(puts, last) && puts[last].key == puts[p].key
    decreases |puts| - p
  {
    if q :| p < q < |puts| && puts[q].key == puts[p].key {
      last := LastPutFrom(puts, q);
    } else {
      last := p;
    }
  }

  /** Whoever writes to connection c's ledger writes the same payload. */
  predicate LedgerAgrees(s: State, c: nat)
    requires c < |s.conns|
  {
    forall d :: 0 <= d < |s.conns| && s.conns[d].client.ledgerId == s.conns[c].client.ledgerId ==>
      s.conns[d].client.payload == s.conns[c].client.payload
  }

  /** A put under the key of connection c's entry e comes from a connection with that ledger id. */
  lemma PutAnswers(s: State, c: nat, e: nat, p: nat)
    requires Inv(s) && c < |s.conns| && e < |s.conns[c].promises| && p < |s.journal.accepted|
    requires e < TWO_63 && s.journal.accepted[p].key == StorageKey.Key(s.conns[c].client.ledgerId, e)
    requires LedgerAgrees(s, c)
    ensures s.journal.accepted[p].value == s.conns[c].client.payload
  {
    hide ClientSide, ServerSide, J.Inv, StorageKey.Key;
    var o := s.origins[p];
    StorageKey.KeyOrder(o.ledgerId, o.entryId, s.conns[c].client.ledgerId, e);
  }

  /** db holds the last of the puts under the key of connection c's entry e; and that is what the
      client sent, if all who write to its ledger send the same. */
  predicate Holds(s: State, db: J.Db, puts: seq<J.Put>, c: nat, e: int64)
    requires c < |s.conns| && 0 <= e < |s.conns[c].promises|
  {
    var key := StorageKey.Key(s.conns[c].client.ledgerId, e);
    && key in db
    && (exists p :: 0 <= p < |puts| && s.conns[c].promises[e] <= p && puts[p].key == key && LastPut(puts, p)
          && db[key] == puts[p].value)
    && (LedgerAgrees(s, c) ==> db[key] == s.conns[c].client.payload)
  }

  lemma PrefixHolds(s: State, n: nat, c: nat, e: nat)
    requires Inv(s) && c < |s.conns| && e < |s.conns[c].promises| && s.conns[c].promises[e] < n <= |s.journal.accepted|
    ensures e < TWO_63 && Holds(s, J.Replay(s.journal.accepted[..n]), s.journal.accepted[..n], c, e)
  {
    hide ClientSide, ServerSide, J.Inv, StorageKey.Key, J.Replay;
    PromiseAnswers(s, c, e);
    var puts, p := s.journal.accepted[..n], s.conns[c].promises[e];
    assert puts[p] == s.journal.accepted[p];
    var last := LastPutFrom(puts, p);
    ReplayHoldsLast(puts, last);
    assert puts[last] == s.journal.accepted[last];
    if LedgerAgrees(s, c) {
      PutAnswers(s, c, e, last);
    }
  }

  /** What has been answered OK is in the database, if no Write has failed: under its key is the
      last put enqueued with that key among those applied, which is what the client sent if no
      other connection sends anything else to its ledger. With fsync it is on disk too. */
  lemma AnsweredEntriesAreStored(s: State, c: nat, i: nat)
    requires Reachable(s) && c < |s.conns| && J.AllOk(s.journal.outcomes)
    requires i < |s.conns[c].answers| && s.conns[c].answers[i].response.errorCode == ERROR_OK
    ensures var j, e := s.journal, s.conns[c].answers[i].response.entryId;
      && 0 <= e < |s.conns[c].promises| && |j.persisted| <= |j.accepted| && j.durable <= |j.accepted|
      && Holds(s, j.db, j.accepted[..|j.persisted|], c, e)
      && (j.fsync ==> Holds(s, j.disk, j.accepted[..j.durable], c, e))
  {
    hide Inv, Holds, J.Replay, Reachable, J.Reachable;
    ReachableInv(s);
    var j, e := s.journal, s.conns[c].answers[i].response.entryId;
    JournalIsReachable(s);
    JournalTheorems.CrashConsistency(j);
    AnswerTells(s, c, i);
    AckedIsCounted(j) by { InvJournal(s); }
    PrefixHolds(s, |j.persisted|, c, e);
    if j.fsync {
      PrefixHolds(s, j.durable, c, e);
    }
  }
}
