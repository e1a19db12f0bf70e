/** Liveness of the journal once producers are quiet: exact numbers of steps and of writes. */
module JournalDrain {
  import opened Bytes
  import opened JournalModel
  import opened JournalThread

  /** No producer, no flush, no spurious miss, a successful Write. */
  const QUIET := Tick([], false, false, true)

  /** The post-increment test closes a batch at its 1001st entry. */
  const BATCH := 1001

  function Batches(n: nat): nat { (n + LAST_COUNT) / BATCH }

  predicate OnlyData(queue: seq<Item>) {
    forall i :: 0 <= i < |queue| ==> queue[i].Data?
  }

  /** Non-empty Writes still to come. */
  function WritesLeft(s: State): nat {
    match s.pc
    case Collecting => Batches(s.count + |s.queue|)
    case Writing => 1 + Batches(|s.queue|)
    case Acking(_) => Batches(|s.queue|)
    case Exited => 0
  }

  /** Steps left once the batch in hand is done: a read and an acknowledgement for each entry,
      a write and a clearing for each batch, and one failed read before blocking. */
  function StepsAfterBatch(s: State): nat {
    if s.block && s.queue == [] then 0 else 2 * |s.queue| + 2 * Batches(|s.queue|) + 1
  }

  /** Steps left until the thread blocks on an empty queue. */
  function StepsLeft(s: State): int {
    match s.pc
    case Collecting =>
      if s.block && s.queue == [] then 0
      else 2 * |s.queue| + s.count + 2 * Batches(s.count + |s.queue|) + 1
    case Writing => |s.entriesToSync| + 2 + StepsAfterBatch(s)
    case Acking(next) => |s.entriesToSync| - next + 1 + StepsAfterBatch(s)
    case Exited => 0
  }

  predicate Draining(s: State) {
    LoopsAgree(s) && s.pc != Exited && OnlyData(s.queue)
  }

  lemma BatchesBounds(n: nat)
    ensures n == 0 ==> Batches(n) == 0
    ensures 1 <= n <= BATCH ==> Batches(n) == 1
    ensures Batches(BATCH + n) == 1 + Batches(n)
  {
  }

  /** One quiet step uses up exactly one step, and one write if it is a Write. */
  predicate Progress(s: State, s': State) {
    && Draining(s')
    && StepsLeft(s) > 0
    && StepsLeft(s') == StepsLeft(s) - 1
    && |s'.outcomes| + WritesLeft(s') == |s.outcomes| + WritesLeft(s)
    && (AllOk(s.outcomes) ==> AllOk(s'.outcomes))
    && s'.accepted == s.accepted
  }

  predicate Quiescent(s: State) { s.pc == Collecting && s.block && s.queue == [] }

  lemma QuietRead(s: State)
    requires Draining(s) && s.pc == Collecting && s.queue != []
    ensures Progress(s, Take(s))
  {
    hide AllOk;
    BatchesBounds(|s.queue| - 1);
    assert s.queue[0].Data?;
  }

  lemma QuietMiss(s: State)
    requires Draining(s) && s.pc == Collecting && !s.block && s.queue == []
    ensures Progress(s, Step(s, ReadMiss))
  {
    hide AllOk, Apply, Take;
    BatchesBounds(s.count);
  }

  lemma QuietWrite(s: State)
    requires Draining(s) && s.pc == Writing
    ensures Progress(s, Commit(s, true))
  {
    hide AllOk, Apply, Take;
    AllOkAppend(s.outcomes, true);
  }

  lemma QuietAck(s: State)
    requires Draining(s) && s.pc.Acking?
    ensures s.pc.next < |s.entriesToSync| ==> Progress(s, Step(s, Fulfil))
    ensures s.pc.next == |s.entriesToSync| ==> Progress(s, Step(s, Finish))
  {
    hide AllOk, Apply, Take;
  }

  lemma QuietStep(s: State)
    requires Draining(s)
    ensures if Quiescent(s) then TickStep(s, QUIET) == s else Progress(s, TickStep(s, QUIET))
  {
    hide Progress, Take, Commit, AllOk;
    assert Around(s, QUIET) == s;
    match s.pc
    case Collecting =>
      if s.queue != [] { QuietRead(s); } else if !s.block { QuietMiss(s); }
    case Writing => QuietWrite(s);
    case Acking(_) => QuietAck(s);
  }

  function Quiet(n: nat): (ticks: seq<Tick>)
    ensures |ticks| == n
  {
    seq(n, _ => QUIET)
  }

  lemma {:induction false} QuietRun(s: State, n: nat)
    requires Draining(s) && n <= StepsLeft(s)
    ensures var s' := RunTicks(s, Quiet(n));
      && Draining(s')
      && StepsLeft(s') == StepsLeft(s) - n
      && |s'.outcomes| + WritesLeft(s') == |s.outcomes| + WritesLeft(s)
      && (AllOk(s.outcomes) ==> AllOk(s'.outcomes))
      && s'.accepted == s.accepted
  {
    hide TickStep, AllOk, Draining, WritesLeft;
    if n > 0 {
      QuietRun(s, n - 1);
      QuietStep(RunTicks(s, Quiet(n - 1)));
      assert Quiet(n)[..n - 1] == Quiet(n - 1);
    }
  }

  /** From an empty batch with n data entries queued and nothing more arriving, the journal
      blocks again after exactly this many steps: every entry enqueued is acknowledged, and
      exactly ceil(n / 1001) Writes were made. */
  lemma DrainIsExact(s: State)
    requires Reachable(s) && s.pc == Collecting && s.count == 0 && OnlyData(s.queue)
    ensures var n := |s.queue|;
      var steps := if s.block && n == 0 then 0 else 2 * n + 2 * Batches(n) + 1;
      var s' := RunTicks(s, Quiet(steps));
      && Quiescent(s')
      && s'.accepted == s.accepted && s'.acked == Range(0, |s.accepted|)
      && |s'.outcomes| == |s.outcomes| + Batches(n)
      && (AllOk(s.outcomes) ==> s'.db == Replay(s.accepted))
    ensures Batches(|s.queue|) * 1001 >= |s.queue| > (Batches(|s.queue|) - 1) * 1001
         || Batches(|s.queue|) == |s.queue| == 0
  {
    hide TickStep, RunTicks, AllOk, Replay, Inv;
    ReachableInv(s);
    var steps := StepsLeft(s);
    assert Draining(s) by { InvLoops(s); }
    QuietRun(s, steps);
    var s' := RunTicks(s, Quiet(steps));
    TicksAreRuns(s, Quiet(steps));
    LeadsKeepsInv(s, s');
    NothingIsLeft(s');
    BatchesCover(|s.queue|);
  }

  lemma InvLoops(s: State)
    requires Inv(s)
    ensures LoopsAgree(s)
  {
  }

  lemma BatchesCover(n: nat)
    ensures (Batches(n) - 1) * BATCH < n <= Batches(n) * BATCH || Batches(n) == n == 0
  {
  }

  lemma NothingIsLeft(s: State)
    requires Inv(s) && Draining(s) && StepsLeft(s) == 0
    ensures Quiescent(s) && WritesLeft(s) == 0 && s.acked == Range(0, |s.accepted|)
    ensures AllOk(s.outcomes) ==> s.db == Replay(s.accepted)
  {
    hide AllOk, Replay;
    SelectRange(s.accepted, [], 0, |s.accepted|);
    assert s.accepted[..|s.accepted|] == s.accepted;
  }
}
