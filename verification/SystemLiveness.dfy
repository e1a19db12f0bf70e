/** Nothing gets stuck: without new entries every schedule comes to rest, and at rest everything
    has been answered. */
module SystemLiveness {
  import opened Bytes
  import opened Protocol
  import opened Codec
  import opened Endpoints
  import opened System
  import opened SystemProofs
  import opened SystemTheorems
  import J = JournalModel
  import opened JournalThread

  // ---------------------------------------------------------------- at rest

  /** New entries and the destructor's sentinel come from outside; the background flush
      changes nothing anyone waits for. */
  predicate FromOutside(l: Label) {
    l.ClientGenerates? || l == JournalSteps(J.EnqueueStop)
  }

  predicate Busy(l: Label) { !FromOutside(l) && l != JournalSteps(J.Flush) }

  ghost predicate AtRest(s: State) {
    forall l :: Enabled(s, l) ==> !Busy(l)
  }

  lemma JournalAtRest(s: State)
    requires J.Inv(s.journal) && AtRest(s)
    ensures s.journal.pc != J.Exited ==>
      s.journal.queue == [] && |s.journal.acked| == |s.journal.accepted| && !s.journal.closed
    ensures s.journal.pc == J.Exited ==> s.journal.closed
    ensures forall p: nat :: p < |s.journal.accepted| ==> IsSettled(s.journal, p)
  {
    hide J.Stored;
    var j := s.journal;
    AckedIsCounted(j);
    forall l: J.Label | !l.Enqueue? && !l.Flush? && !l.EnqueueStop?
      ensures !J.Enabled(j, l)
    {
      assert !J.Enabled(j, l) || Enabled(s, JournalSteps(l));
      assert Busy(JournalSteps(l));
    }
    if j.pc != J.Exited {
      assert !J.Enabled(j, J.ReadMiss) && !J.Enabled(j, J.BlockingRead) && !J.Enabled(j, J.Write(true));
      assert !J.Enabled(j, J.Fulfil) && !J.Enabled(j, J.Finish);
    } else {
      J.HeldIsLost(j);
      assert !J.Enabled(j, J.Close);
      forall i | 0 <= i < |j.entriesToSync|
        ensures j.entriesToSync[i] in j.broken
      {
        assert !J.Enabled(j, J.Break(j.entriesToSync[i]));
      }
      forall p: nat | p < |j.accepted|
        ensures IsSettled(j, p)
      {
        assert !J.Enabled(j, J.Break(p));
      }
    }
  }

  /** The server side of a connection has answered every request it has read. */
  lemma HandlerAtRest(s: State, c: nat, e: nat)
    requires Inv(s) && AtRest(s) && c < |s.conns| && e < |s.conns[c].promises|
    ensures Has(s.conns[c].run, e)
  {
    hide Inv, Has, BookOf;
    JournalAtRest(s) by { InvJournal(s); }
    PromiseAnswers(s, c, e);
    ContinuationIs(s, c, e);
    assert Busy(ServerAttaches(c)) && Busy(ServerResponds(c, 0, BE32(0)));
    assert !Enabled(s, ServerAttaches(c)) && !Enabled(s, ServerResponds(c, 0, BE32(0)));
    assert s.conns[c].handler.posted == [];
    assert !Has([], e) by { NobodyHas(e); }
  }

  lemma NobodyHas(e: int)
    ensures !Has([], e)
  {
  }

  /** When the system comes to rest, unless the journal has been shut down, every entry
      generated has been answered and no client waits for anything: no wake-up is lost. */
  lemma NothingGetsStuck(s: State, c: nat)
    requires Reachable(s) && AtRest(s) && s.journal.pc != J.Exited && s.journal.capacity > 0 && c < |s.conns|
    ensures s.conns[c].completed == s.conns[c].client.generated && s.conns[c].client.pending == {}
  {
    hide Inv, Reachable, Has, NextRequest, NextResponse, AtRest;
    ReachableInv(s);
    JournalAtRest(s) by { InvJournal(s); }
    AckedIsCounted(s.journal) by { InvJournal(s); }
    assert ProcessesRight(s) by { InvProcesses(s); }
    var k := s.conns[c];
    ClientAtRest(s, c);
    assert k.run[..k.completed] == k.run;
    forall e: int
      ensures Has(k.run, e) <==> 0 <= e < |k.promises|
    {
      ContinuationIs(s, c, e);
      if 0 <= e < |k.promises| {
        HandlerAtRest(s, c, e);
      }
    }
    forall e: int
      ensures e !in k.client.pending
    {
      PendingIs(s, c, e);
    }
    RunOnce(s, c);
    OnceCounts(k.run, |k.promises|);
  }

  lemma RunOnce(s: State, c: nat)
    requires Inv(s) && c < |s.conns|
    ensures Once(s.conns[c].run)
  {
    hide Inv, ClientSide, PostedRight, WaitingRight;
    ConnHolds(s, c);
    var k := s.conns[c];
    PostedIff(All(k), BookOf(k), |s.journal.acked|, s.journal.broken, 0);
    OnceBefore(k.run, k.handler.posted);
  }

  /** One continuation for each of n entries makes n continuations. */
  lemma OnceCounts(posts: seq<Posted>, n: nat)
    requires Once(posts) && forall e: int :: Has(posts, e) <==> 0 <= e < n
    ensures |posts| == n
  {
    forall i | 0 <= i < |posts|
      ensures 0 <= posts[i].k.entryId < n
    {
      assert Has(posts, posts[i].k.entryId);
    }
    var ids: seq<nat> := seq(|posts|, i requires 0 <= i < |posts| => posts[i].k.entryId);
    IdSetSize(ids);
    IdSetSize(Range(0, n));
    forall e: nat
      ensures e in IdSet(ids) <==> e in IdSet(Range(0, n))
    {
      if e < n {
        assert Has(posts, e);
        var i :| 0 <= i < |posts| && posts[i].k.entryId == e;
        assert ids[i] == e && Range(0, n)[e] == e;
      }
    }
    assert IdSet(ids) == IdSet(Range(0, n));
  }

  lemma ClientAtRest(s: State, c: nat)
    requires Inv(s) && AtRest(s) && Runs(s, c)
    requires s.journal.queue == [] && s.journal.capacity > 0 && !s.journal.closed
    ensures var k := s.conns[c];
      |k.promises| == |k.requests| == k.client.generated && k.completed == |k.run|
  {
    hide Inv, ServerSide, NextRequest, NextResponse, RequestBytes, ResponseBytes;
    ConnHolds(s, c);
    var k, key: MasterKey := s.conns[c], BE64(0) + BE64(0) + BE32(0);
    assert Busy(ServerAttaches(c)) && Busy(ClientSends(c, key)) && Busy(ServerReads(c)) && Busy(ClientReads(c));
    assert !Enabled(s, ServerAttaches(c)) && !Enabled(s, ClientSends(c, key)) && !Enabled(s, ServerReads(c))
      && !Enabled(s, ClientReads(c));
    RequestStreamHead(k.requests[|k.promises|..]);
    ResponseStreamHead(k.answers[k.completed..]);
  }

  /** Shut down and at rest, every request the server has read has been answered, with an error
      exactly if its entry was lost. */
  lemma ShutdownAnswersEverything(s: State, c: nat, e: nat) returns (i: nat)
    requires Reachable(s) && AtRest(s) && s.journal.pc == J.Exited && c < |s.conns| && e < |s.conns[c].promises|
    ensures i < |s.conns[c].answers| && s.conns[c].answers[i].response.entryId == e
    ensures s.conns[c].answers[i].response.errorCode == ERROR_IO <==> J.Lost(s.journal, s.conns[c].promises[e])
  {
    hide Inv, Reachable, AtRest;
    ReachableInv(s);
    HandlerAtRest(s, c, e);
    i :| 0 <= i < |s.conns[c].run| && s.conns[c].run[i].k.entryId == e;
    assert |s.conns[c].run| == |s.conns[c].answers| by { hide ServerSide; ConnHolds(s, c); }
    AnswerTells(s, c, i);
    ErrorsAreTheLoss(s, c, i);
  }

  // ---------------------------------------------------------------- coming to rest

  lemma SubsetSize(small: set<nat>, big: set<nat>)
    requires small <= big
    ensures |small| <= |big|
  {
    if small != {} {
      var x :| x in small;
      SubsetSize(small - {x}, big - {x});
    }
  }

  lemma BrokenFit(j: J.State)
    requires J.Inv(j)
    ensures |j.acked| + |j.broken| <= |j.accepted|
  {
    AckedIsCounted(j);
    hide J.Inv;
    var lost := Range(|j.acked|, |j.accepted|);
    IdSetSize(lost);
    forall p | p in j.broken
      ensures p in IdSet(lost)
    {
      assert lost[p - |j.acked|] == p;
    }
    SubsetSize(j.broken, IdSet(lost));
  }

  /** Steps left to the thread, but for what is still queued. */
  function ThreadWork(j: J.State): int {
    var e, miss := |j.entriesToSync|, if j.block then 0 else 1;
    match j.pc
    case Collecting => miss + if e > 0 then e + 3 else 0
    case Writing => e + 2 + miss
    case Acking(next) => e - next + 1 + miss
    case Exited => 0
  }

  /** A queued entry may take a batch of its own: a read, a miss, a write, an acknowledgement
      and a clearing; and every unsettled promise may have to be broken. */
  function JournalWork(j: J.State): int {
    6 * |j.queue| + (|j.accepted| - |j.acked| - |j.broken|) + ThreadWork(j) + if j.closed then 0 else 1
  }

  /** What is left to do on a connection, each request counted by how far it has come. */
  function ConnWork(k: Conn): int {
    14 * |k.client.closures| + 13 * (|k.requests| - |k.promises|) + (if k.handler.handling.Some? then 4 else 0)
    + 3 * |k.handler.waiting| + 2 * |k.handler.posted| + (|k.answers| - k.completed)
  }

  function AllWork(conns: seq<Conn>): int {
    if conns == [] then 0 else AllWork(conns[..|conns| - 1]) + ConnWork(conns[|conns| - 1])
  }

  /** Processes yet to end. */
  function Live(processes: seq<Process>): nat {
    if processes == [] then 0
    else Live(processes[1..]) + if processes[0] == Running then 1 else 0
  }

  lemma {:induction false} LiveUpdate(processes: seq<Process>, p: nat, process: Process)
    requires p < |processes| && processes[p] == Running
    ensures Live(processes[p := process]) == Live(processes) - if process == Running then 0 else 1
  {
    if p == 0 {
      assert processes[p := process][1..] == processes[1..];
    } else {
      LiveUpdate(processes[1..], p - 1, process);
      assert processes[p := process][1..] == processes[1..][p - 1 := process];
    }
  }

  function Work(s: State): int {
    JournalWork(s.journal) + AllWork(s.conns) + Live(s.processes)
  }

  lemma {:induction false} AllWorkUpdate(conns: seq<Conn>, c: nat, k: Conn)
    requires c < |conns|
    ensures AllWork(conns[c := k]) == AllWork(conns) - ConnWork(conns[c]) + ConnWork(k)
  {
    hide ConnWork;
    var n := |conns| - 1;
    if c == n {
      assert conns[c := k][..n] == conns[..n];
    } else {
      AllWorkUpdate(conns[..n], c, k);
      assert conns[c := k][..n] == conns[..n][c := k];
    }
  }

  lemma {:induction false} AllWorkPositive(conns: seq<Conn>)
    requires forall c :: 0 <= c < |conns| ==> ClientSide(conns[c])
    ensures AllWork(conns) >= 0
  {
    hide RequestBytes, ResponseBytes;
    if conns != [] {
      AllWorkPositive(conns[..|conns| - 1]);
      assert ClientSide(conns[|conns| - 1]);
    }
  }

  lemma {:induction false} SettlingIsWork(conns: seq<Conn>, p: nat, ok: bool)
    ensures AllWork(SettleAll(conns, p, ok)) <= AllWork(conns)
  {
    if conns != [] {
      var n := |conns| - 1;
      SettlingIsWork(conns[..n], p, ok);
      assert SettleAll(conns, p, ok)[..n] == SettleAll(conns[..n], p, ok);
      assert ConnWork(SettleOn(conns[n], p, ok)) <= ConnWork(conns[n]);
    }
  }

  lemma JournalSpends(j: J.State, jl: J.Label)
    requires J.LoopsAgree(j) && J.Enabled(j, jl)
    ensures JournalWork(J.Step(j, jl)) <= JournalWork(j) + match jl
      case Enqueue(_) => 7
      case EnqueueStop => 6
      case Flush => 0
      case _ => -1
  {
    hide J.Lost, J.Take, J.Commit;
    match jl
    case ReadHit => TakeSpends(j);
    case BlockingRead => TakeSpends(j);
    case Write(ok) => CommitSpends(j, ok);
    case Enqueue(put) => assert |J.Step(j, jl).accepted| == |j.accepted| + 1;
    case _ =>
  }

  lemma TakeSpends(j: J.State)
    requires J.LoopsAgree(j) && j.pc == J.Collecting && j.queue != []
    ensures JournalWork(J.Take(j)) <= JournalWork(j) - 1
  {
  }

  lemma CommitSpends(j: J.State, ok: bool)
    requires J.LoopsAgree(j) && j.pc == J.Writing
    ensures JournalWork(J.Commit(j, ok)) <= JournalWork(j) - 1
  {
    hide J.Apply;
  }

  lemma WorkIsPositive(s: State)
    requires Inv(s)
    ensures Work(s) >= 0
  {
    hide ClientSide, ServerSide;
    BrokenFit(s.journal);
    AllWorkPositive(s.conns);
  }

  lemma StepSpends(s: State, l: Label)
    requires Inv(s) && Enabled(s, l) && !FromOutside(l)
    ensures Work(Step(s, l)) <= Work(s) - (if Busy(l) then 1 else 0)
  {
    hide ClientSide, ServerSide, J.Inv, NextRequest, NextResponse, DropFrame, EncodeRequest, EncodeResponse;
    hide JournalWork, AllWork, Live, J.Enabled, J.Step;
    InvLoops(s);
    match l
    case ServerReads(c) =>
      JournalSpends(s.journal, J.Enqueue(PutOf(NextRequest(s.conns[c].toServer).value)));
      AllWorkUpdate(s.conns, c, Step(s, l).conns[c]);
    case JournalSteps(jl) =>
      JournalSpends(s.journal, jl);
      hide ConnWork;
      if Settles(s.journal, jl).Some? {
        SettlingIsWork(s.conns, Settles(s.journal, jl).value.0, Settles(s.journal, jl).value.1);
      }
    case ClientReads(c) =>
      AllWorkUpdate(s.conns, c, Step(s, l).conns[c]);
      LiveUpdate(s.processes, s.conns[c].owner, ProcessAfter(s.conns[c]));
    case ClientSends(c, _) => AllWorkUpdate(s.conns, c, Step(s, l).conns[c]);
    case ServerAttaches(c) => AllWorkUpdate(s.conns, c, Step(s, l).conns[c]);
    case ServerResponds(c, _, _) => AllWorkUpdate(s.conns, c, Step(s, l).conns[c]);
  }

  lemma InvLoops(s: State)
    requires Inv(s)
    ensures J.LoopsAgree(s.journal)
  {
  }

  function BusySteps(labels: seq<Label>): nat {
    if labels == [] then 0 else (if Busy(labels[0]) then 1 else 0) + BusySteps(labels[1..])
  }

  /** Whatever the schedule and however often reads miss, if nothing new comes from outside the
      system makes no more than Work(s) steps besides background flushes. */
  lemma {:induction false} EveryScheduleEnds(s: State, labels: seq<Label>)
    requires Inv(s) && IsRun(s, labels) && forall i :: 0 <= i < |labels| ==> !FromOutside(labels[i])
    ensures BusySteps(labels) <= Work(s)
    decreases labels
  {
    hide Inv, Step, Enabled, Work, Busy;
    if labels == [] {
      WorkIsPositive(s);
    } else {
      StepSpends(s, labels[0]);
      StepKeepsInv(s, labels[0]);
      EveryScheduleEnds(Step(s, labels[0]), labels[1..]);
    }
  }

  /** So it comes to rest: going on in any way that is possible leads there. */
  lemma {:induction false} RestIsReached(s: State) returns (labels: seq<Label>)
    requires Inv(s)
    ensures IsRun(s, labels) && AtRest(Exec(s, labels)) && forall i :: 0 <= i < |labels| ==> Busy(labels[i])
    decreases Work(s)
  {
    hide Inv, Step, Enabled, Work, Busy;
    if AtRest(s) {
      labels := [];
    } else {
      var l :| Enabled(s, l) && Busy(l);
      assert !FromOutside(l) by { BusyIsInside(l); }
      StepSpends(s, l);
      StepKeepsInv(s, l);
      WorkIsPositive(Step(s, l));
      var rest := RestIsReached(Step(s, l));
      labels := [l] + rest;
      assert labels[1..] == rest;
    }
  }

  lemma BusyIsInside(l: Label)
    requires Busy(l)
    ensures !FromOutside(l)
  {
  }
}
