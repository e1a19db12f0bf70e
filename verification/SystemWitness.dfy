/** A run in which a shutdown reaches a client: its entry is lost, it is told so, and it ends. */
module SystemWitness {
  import opened Bytes
  import opened Protocol
  import opened Codec
  import opened Endpoints
  import opened System
  import opened SystemProofs
  import opened SystemTheorems
  import J = JournalModel

  /** Generate, send and read one entry, collect it, and stop; break its promise, answer, read. */
  function FatalRun(key: MasterKey, slack: Slack): seq<Label> {
    SubmitRun(key) + StopRun() + [ServerResponds(0, 0, slack), ClientReads(0)]
  }

  function SubmitRun(key: MasterKey): seq<Label> {
    [ClientGenerates(0), ClientSends(0, key), ServerReads(0), ServerAttaches(0)]
  }

  function StopRun(): seq<Label> {
    [JournalSteps(J.ReadHit), JournalSteps(J.EnqueueStop), JournalSteps(J.ReadHit), JournalSteps(J.Break(0))]
  }

  lemma FourSteps(s0: State, s1: State, s2: State, s3: State, s4: State, a: Label, b: Label, c: Label, d: Label)
    requires Enabled(s0, a) && s1 == Step(s0, a) && Enabled(s1, b) && s2 == Step(s1, b)
    requires Enabled(s2, c) && s3 == Step(s2, c) && Enabled(s3, d) && s4 == Step(s3, d)
    ensures IsRun(s0, [a, b, c, d]) && Exec(s0, [a, b, c, d]) == s4
  {
    hide Step, Enabled;
    OneStep(s0, a);
    OneStep(s1, b);
    OneStep(s2, c);
    OneStep(s3, d);
    RunConcat(s0, [a], [b]);
    RunConcat(s0, [a] + [b], [c]);
    RunConcat(s0, [a] + [b] + [c], [d]);
    assert [a] + [b] + [c] + [d] == [a, b, c, d];
  }

  /** The entry has been enqueued, and its continuation waits. */
  predicate Submitted(s: State) {
    && Runs(s, 0) && |s.conns[0].promises| == 1
    && s.conns[0].handler == Handler(None, [Continuation(0, s.conns[0].client.ledgerId, 0)], [])
    && s.conns[0].run == [] && s.conns[0].answers == [] && s.conns[0].completed == 0
    && s.journal.pc == J.Collecting && s.journal.count == 0 && !s.journal.block && s.journal.capacity > 0
    && |s.journal.queue| == 1 && s.journal.queue[0].Data? && s.journal.queue[0].id == 0
    && |s.journal.accepted| == 1 && s.journal.acked == [] && s.journal.broken == {} && s.journal.taken == 0
      && !s.journal.closed
    && s.journal.entriesToSync == []
  }

  /** Its promise has been broken, and the error posted. */
  predicate Failed(s: State) {
    && Runs(s, 0) && |s.conns[0].promises| == 1
    && s.conns[0].handler == Handler(None, [], [Posted(Continuation(0, s.conns[0].client.ledgerId, 0), false)])
    && s.conns[0].run == [] && s.conns[0].answers == [] && s.conns[0].completed == 0
    && s.journal.pc == J.Exited && s.journal.broken == {0}
  }

  lemma Submits(s0: State, key: MasterKey) returns (s: State)
    requires Initial(s0) && |s0.conns| > 0 && s0.journal.capacity > 0
    ensures IsRun(s0, SubmitRun(key)) && Exec(s0, SubmitRun(key)) == s && Submitted(s) && Inv(s)
  {
    hide Inv, NextRequest, DropFrame, EncodeRequest, IsRun, Exec;
    InitialInv(s0);
    StepKeepsInv(s0, ClientGenerates(0));
    var s1 := Step(s0, ClientGenerates(0));
    SmallPayload(s1, 0);
    StepKeepsInv(s1, ClientSends(0, key));
    var s2 := Step(s1, ClientSends(0, key));
    NextIsFirst(s2, 0);
    StepKeepsInv(s2, ServerReads(0));
    var s3 := Step(s2, ServerReads(0));
    StepKeepsInv(s3, ServerAttaches(0));
    s := Step(s3, ServerAttaches(0));
    FourSteps(s0, s1, s2, s3, s, ClientGenerates(0), ClientSends(0, key), ServerReads(0), ServerAttaches(0));
  }

  lemma SmallPayload(s: State, c: nat)
    requires Inv(s) && c < |s.conns|
    ensures REQUEST_HEADER_SIZE + |s.conns[c].client.payload| < TWO_32
  {
    hide Inv, ServerSide, Streamed;
    ConnHolds(s, c);
  }

  lemma NextIsFirst(s: State, c: nat)
    requires Inv(s) && c < |s.conns| && |s.conns[c].promises| == 0 && |s.conns[c].requests| == 1
    ensures NextRequest(s.conns[c].toServer)
         == Some(RequestFor(s.conns[c].client.ledgerId, s.conns[c].client.payload, 0))
  {
    hide Inv, ServerSide, NextRequest, RequestBytes, ResponseBytes, DropFrame;
    ConnHolds(s, c);
    RequestStreamHead(s.conns[c].requests[0..]);
  }

  lemma Stops(s0: State) returns (s: State)
    requires Submitted(s0) && Inv(s0)
    ensures IsRun(s0, StopRun()) && Exec(s0, StopRun()) == s && Failed(s) && Inv(s)
  {
    hide Inv, IsRun, Exec;
    StepKeepsInv(s0, JournalSteps(J.ReadHit));
    var s1 := Step(s0, JournalSteps(J.ReadHit));
    StepKeepsInv(s1, JournalSteps(J.EnqueueStop));
    var s2 := Step(s1, JournalSteps(J.EnqueueStop));
    StepKeepsInv(s2, JournalSteps(J.ReadHit));
    var s3 := Step(s2, JournalSteps(J.ReadHit));
    StepKeepsInv(s3, JournalSteps(J.Break(0)));
    s := Step(s3, JournalSteps(J.Break(0)));
    assert s.conns[0] == SettleOn(s3.conns[0], 0, false);
    FourSteps(s0, s1, s2, s3, s, JournalSteps(J.ReadHit), JournalSteps(J.EnqueueStop), JournalSteps(J.ReadHit),
      JournalSteps(J.Break(0)));
  }

  /** In every deployment with a connection and a queue there is such a run, whatever is sent. */
  lemma AShutdownEndsTheClient(s0: State, key: MasterKey, slack: Slack) returns (s: State)
    requires Initial(s0) && |s0.conns| > 0 && s0.journal.capacity > 0
    ensures IsRun(s0, FatalRun(key, slack)) && Exec(s0, FatalRun(key, slack)) == s
    ensures |s.conns| > 0 && |s.conns[0].answers| == 1 && s.conns[0].answers[0].response.errorCode == ERROR_IO
    ensures s.conns[0].owner < |s.processes| && s.processes[s.conns[0].owner] == Ended
  {
    hide IsRun, Exec, Inv, Initial, Submitted, NextResponse, EncodeResponse;
    var s1 := Submits(s0, key);
    var s2 := Stops(s1);
    StepKeepsInv(s2, ServerResponds(0, 0, slack));
    var s3 := Step(s2, ServerResponds(0, 0, slack));
    OneStep(s2, ServerResponds(0, 0, slack));
    NextIsError(s3);
    OneStep(s3, ClientReads(0));
    s := Step(s3, ClientReads(0));
    RunConcat(s2, [ServerResponds(0, 0, slack)], [ClientReads(0)]);
    assert [ServerResponds(0, 0, slack)] + [ClientReads(0)] == [ServerResponds(0, 0, slack), ClientReads(0)];
    RunConcat(s0, SubmitRun(key), StopRun());
    RunConcat(s0, SubmitRun(key) + StopRun(), [ServerResponds(0, 0, slack), ClientReads(0)]);
  }

  lemma NextIsError(s: State)
    requires Inv(s) && |s.conns| > 0 && |s.conns[0].answers| == 1 && s.conns[0].completed == 0
    requires |s.conns[0].run| == 1 && !s.conns[0].run[0].ok
    ensures NextResponse(s.conns[0].toClient).Some? && NextResponse(s.conns[0].toClient).value.errorCode == ERROR_IO
    ensures s.conns[0].answers[0].response.errorCode == ERROR_IO
  {
    hide Inv, ServerSide, NextResponse, RequestBytes, ResponseBytes, DropFrame;
    ConnHolds(s, 0);
    ResponseStreamHead(s.conns[0].answers[0..]);
  }
}
