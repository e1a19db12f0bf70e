/** What the destructor loses, foretold from the state in which it enqueues its sentinel. */
module JournalShutdown {
  import opened Bytes
  import opened JournalModel
  import opened JournalTheorems
  import opened JournalThread
  import opened JournalDrain

  /** The sentinel is queued behind nothing but data, and the thread has not met it yet. */
  predicate Stopping(s: State) {
    && LoopsAgree(s) && s.pc != Exited
    && s.queue != [] && s.queue[|s.queue| - 1].Stop? && OnlyData(s.queue[..|s.queue| - 1])
  }

  /** Entries that will have been collected since the last batch was closed by its size when
      the sentinel is met, if every read finds what is there; all full batches are written. */
  function InHand(s: State): nat {
    (if s.pc == Collecting then s.count else 0) + |s.queue|
  }

  function FullBatches(n: nat): nat { n / BATCH }

  function LeftOver(n: nat): nat { n % BATCH }

  /** From a read of the queue's n data entries with c in hand, to the sentinel: n + 1 reads,
      and a write, 1001 acknowledgements and a clearing for each full batch. */
  function StepsFrom(c: nat, n: nat): nat { n + 1 + FullBatches(c + n) * (BATCH + 2) }

  function StepsToExit(s: State): (n: nat)
    requires Stopping(s)
    ensures n > 0
  {
    var n := |s.queue| - 1;
    match s.pc
    case Collecting => StepsFrom(s.count, n)
    case Writing => |s.entriesToSync| + 2 + StepsFrom(0, n)
    case Acking(next) => |s.entriesToSync| - next + 1 + StepsFrom(0, n)
  }

  /** Lost if nothing else happens: the sentinel counts in InHand. */
  function ToBeLost(s: State): nat
    requires s.queue != []
  {
    LeftOver(InHand(s) - 1)
  }

  lemma OneBatchLess(n: nat)
    ensures n < BATCH ==> FullBatches(n) == 0 && LeftOver(n) == n
    ensures n >= BATCH ==> FullBatches(n) == FullBatches(n - BATCH) + 1 && LeftOver(n) == LeftOver(n - BATCH)
  {
  }

  predicate Nearer(s: State, s': State)
    requires Stopping(s)
  {
    && Stopping(s') && s'.accepted == s.accepted
    && StepsToExit(s') == StepsToExit(s) - 1
    && ToBeLost(s') == ToBeLost(s)
  }

  lemma OneReadLess(c: nat, n: nat)
    requires c <= LAST_COUNT && n > 0
    ensures c < LAST_COUNT ==> StepsFrom(c + 1, n - 1) == StepsFrom(c, n) - 1
    ensures c == LAST_COUNT ==>
      StepsFrom(c, n) == 1 + BATCH + 2 + StepsFrom(0, n - 1) && LeftOver(c + n) == LeftOver(n - 1)
  {
    OneBatchLess(c + n);
  }

  lemma OnlyDataLeft(queue: seq<Item>)
    requires |queue| > 1 && OnlyData(queue[..|queue| - 1])
    ensures queue[0].Data? && OnlyData(queue[1..][..|queue| - 2])
  {
    assert queue[0] == queue[..|queue| - 1][0];
    assert queue[1..][..|queue| - 2] == queue[..|queue| - 1][1..];
  }

  lemma StopRead(s: State)
    requires Stopping(s) && s.pc == Collecting
    ensures |s.queue| > 1 ==> Nearer(s, Take(s))
    ensures |s.queue| == 1 ==> Take(s) == s.(queue := [], block := false, pc := Exited) && StepsToExit(s) == 1
  {
    if |s.queue| > 1 {
      hide StepsFrom, LeftOver, OnlyData;
      OnlyDataLeft(s.queue);
      OneReadLess(s.count, |s.queue| - 1);
    } else {
      OneBatchLess(s.count);
    }
  }

  lemma StopElsewhere(s: State)
    requires Stopping(s)
    ensures s.pc == Writing ==> Nearer(s, Commit(s, true))
    ensures s.pc.Acking? && s.pc.next < |s.entriesToSync| ==> Nearer(s, Step(s, Fulfil))
    ensures s.pc.Acking? && s.pc.next == |s.entriesToSync| ==> Nearer(s, Step(s, Finish))
  {
    hide Apply, Take, OnlyData;
  }

  lemma StopStep(s: State)
    requires Stopping(s)
    ensures var s' := TickStep(s, QUIET);
      if StepsToExit(s) > 1 then Nearer(s, s')
      else
        && StepsToExit(s) == 1 && s.pc == Collecting && s.count == ToBeLost(s)
        && s' == s.(queue := [], block := false, pc := Exited)
  {
    hide Nearer, Take, Commit;
    assert Around(s, QUIET) == s;
    if s.pc == Collecting {
      StopRead(s);
      OneBatchLess(InHand(s) - 1);
    } else {
      StopElsewhere(s);
    }
  }

  lemma {:induction false} StopRun(s: State, n: nat)
    requires Stopping(s) && n < StepsToExit(s)
    ensures var s' := RunTicks(s, Quiet(n));
      Stopping(s') && s'.accepted == s.accepted && StepsToExit(s') == StepsToExit(s) - n && ToBeLost(s') == ToBeLost(s)
  {
    hide TickStep, Stopping, ToBeLost, StepsToExit;
    if n > 0 {
      StopRun(s, n - 1);
      StopStep(RunTicks(s, Quiet(n - 1)));
      assert Quiet(n)[..n - 1] == Quiet(n - 1);
    }
  }

  /** Run quietly to the end. */
  lemma StopsWith(s: State)
    requires Inv(s) && Stopping(s)
    ensures var s' := RunTicks(s, Quiet(StepsToExit(s)));
      && s'.pc == Exited && s'.accepted == s.accepted && s'.queue == [] && Inv(s')
      && |s'.entriesToSync| == ToBeLost(s)
  {
    hide TickStep, Inv, ToBeLost;
    var n := StepsToExit(s);
    StopRun(s, n - 1);
    var last := RunTicks(s, Quiet(n - 1));
    StopStep(last);
    assert Quiet(n)[..n - 1] == Quiet(n - 1);
    TicksKeepInv(s, Quiet(n));
  }

  lemma ExitCounts(s: State)
    requires Inv(s) && s.pc == Exited && s.queue == []
    ensures |s.acked| + |s.entriesToSync| == |s.accepted|
    ensures s.acked == Range(0, |s.acked|) && s.writeBatch == s.accepted[|s.acked|..]
  {
  }

  lemma StopIsQueued(s: State)
    requires Inv(s) && OnlyData(s.queue) && s.pc != Exited && Enabled(s, EnqueueStop)
    ensures var s' := Step(s, EnqueueStop);
      Stopping(s') && Inv(s') && s'.accepted == s.accepted && ToBeLost(s') == LeftOver(InHand(s))
  {
    hide Placed, Stored, Settled;
    StepKeepsInv(s, EnqueueStop);
    var q := Step(s, EnqueueStop).queue;
    assert q[..|q| - 1] == s.queue;
  }

  /** The destructor enqueues its sentinel in state s. If producers are quiet from then on and
      reads fail only on an empty queue, exactly the last InHand(s) % 1001 entries are lost: what
      is left of those collected or queued once full batches are taken off. Everything else is
      acknowledged. So nothing is lost if and only if that remainder is zero. */
  lemma ShutdownLossIsForetold(s: State)
    requires Reachable(s) && OnlyData(s.queue) && s.pc != Exited && Enabled(s, EnqueueStop)
    ensures Stopping(Step(s, EnqueueStop))
    ensures var stopping := Step(s, EnqueueStop);
      var s' := RunTicks(stopping, Quiet(StepsToExit(stopping)));
      && s'.pc == Exited && s'.accepted == s.accepted && s'.queue == []
      && |s'.acked| == |s.accepted| - InHand(s) % 1001 && s'.acked == Range(0, |s'.acked|)
      && s'.writeBatch == s.accepted[|s'.acked|..]
      && (|s'.acked| == |s'.accepted| <==> InHand(s) % 1001 == 0)
  {
    hide Inv, Step, Enabled, StepsToExit, InHand, Stopping;
    ReachableInv(s);
    StopIsQueued(s);
    var stopping := Step(s, EnqueueStop);
    StopsWith(stopping);
    ExitCounts(RunTicks(stopping, Quiet(StepsToExit(stopping))));
  }

  // ---------------------------------------------------------------- spurious misses

  /** Producers are quiet. */
  predicate NoArrivals(ticks: seq<Tick>) {
    forall i :: 0 <= i < |ticks| ==> ticks[i].arrivals == []
  }

  /** Whatever the schedule, producers included, the thread exits having acknowledged all that
      had been accepted when it was told to stop. */
  ghost predicate LosesNothing(stopping: State) {
    forall ticks: seq<Tick> | RunTicks(stopping, ticks).pc == Exited ::
      |stopping.accepted| <= |RunTicks(stopping, ticks).acked|
  }

  /** No data queued, and none collected that is not being committed. */
  predicate NothingInHand(s: State) {
    s.queue == [] && (s.pc == Collecting ==> s.count == 0)
  }

  /** The sentinel is next, nothing is in hand, and n entries have been read. */
  predicate Clean(s: State, n: nat) {
    && s.taken == n
    && if s.pc == Exited then s.entriesToSync == []
       else s.queue != [] && s.queue[0].Stop? && LoopsAgree(s) && (s.pc == Collecting ==> s.count == 0)
  }

  lemma {:induction false} ArriveBehind(s: State, arrivals: seq<Option<Put>>)
    ensures s.queue <= Arrive(s, arrivals).queue && s.accepted <= Arrive(s, arrivals).accepted
  {
    if arrivals != [] {
      ArriveBehind(s, arrivals[..|arrivals| - 1]);
    }
  }

  lemma CleanStep(s: State, tick: Tick, n: nat)
    requires Clean(s, n)
    ensures Clean(TickStep(s, tick), n)
  {
    hide ThreadStep, Arrive;
    ArriveBehind(s, tick.arrivals);
    AroundFrame(s, tick);
    var mid := Around(s, tick);
    assert Clean(mid, n);
    CleanThread(mid, tick.miss, tick.ok, n);
  }

  lemma {:induction false} CleanRun(s: State, ticks: seq<Tick>, n: nat)
    requires Clean(s, n)
    ensures Clean(RunTicks(s, ticks), n)
  {
    hide Clean, TickStep;
    if ticks != [] {
      var k := |ticks| - 1;
      CleanRun(s, ticks[..k], n);
      CleanStep(RunTicks(s, ticks[..k]), ticks[k], n);
    }
  }

  lemma CleanThread(s: State, miss: bool, ok: bool, n: nat)
    requires Clean(s, n)
    ensures Clean(ThreadStep(s, miss, ok), n)
  {
    hide Take, Commit;
    match s.pc
    case Collecting => CleanRead(s, n);
    case Writing => CleanWrite(s, ok, n);
    case _ =>
  }

  lemma CleanRead(s: State, n: nat)
    requires Clean(s, n) && s.pc == Collecting
    ensures Clean(Take(s), n)
  {
  }

  lemma CleanWrite(s: State, ok: bool, n: nat)
    requires Clean(s, n) && s.pc == Writing
    ensures Clean(Commit(s, ok), n)
  {
    hide Apply;
  }

  lemma {:induction false} TickFirst(s: State, tick: Tick, rest: seq<Tick>)
    ensures RunTicks(s, [tick] + rest) == RunTicks(TickStep(s, tick), rest)
  {
    hide TickStep;
    if rest == [] {
      assert [tick] + rest == [tick] && [tick][..0] == [];
      assert RunTicks(s, []) == s;
    } else {
      var k := |rest| - 1;
      TickFirst(s, tick, rest[..k]);
      assert ([tick] + rest)[..k + 1] == [tick] + rest[..k];
    }
  }

  const MISS := Tick([], false, true, true)

  /** A miss closes the batch in hand, and shifts all that follow. */
  lemma MissShifts(s: State)
    requires Stopping(s) && s.pc == Collecting && s.count > 0
    ensures var s' := TickStep(s, MISS);
      Stopping(s') && s'.accepted == s.accepted && ToBeLost(s') == LeftOver(|s.queue| - 1)
  {
    hide OnlyData, Take;
    assert Around(s, MISS) == s;
  }

  lemma Shifted(c: nat, n: nat)
    requires 1 <= c < BATCH && LeftOver(c + n) == 0
    ensures LeftOver(n) == BATCH - c
  {
  }

  lemma {:induction false} LosingSchedule(s: State) returns (ticks: seq<Tick>)
    requires Inv(s) && Stopping(s) && InHand(s) > 1
    ensures NoArrivals(ticks) && RunTicks(s, ticks).pc == Exited
    ensures |RunTicks(s, ticks).acked| < |s.accepted|
    decreases StepsToExit(s)
  {
    hide Inv, TickStep;
    if ToBeLost(s) != 0 {
      ticks := Quiet(StepsToExit(s));
      StopsWith(s);
      ExitCounts(RunTicks(s, ticks));
    } else if s.pc == Collecting && s.count > 0 {
      MissShifts(s);
      Shifted(s.count, |s.queue| - 1);
      var s' := TickStep(s, MISS);
      ticks := [MISS] + Quiet(StepsToExit(s'));
      TickKeepsInv(s, MISS);
      StopsWith(s');
      ExitCounts(RunTicks(s', Quiet(StepsToExit(s'))));
      TickFirst(s, MISS, Quiet(StepsToExit(s')));
    } else {
      StopStep(s);
      var s' := TickStep(s, QUIET);
      TickKeepsInv(s, QUIET);
      StillInHand(s);
      var rest := LosingSchedule(s');
      ticks := [QUIET] + rest;
      TickFirst(s, QUIET, rest);
    }
  }

  lemma TickKeepsInv(s: State, tick: Tick)
    requires Inv(s)
    ensures Inv(TickStep(s, tick))
  {
    hide Inv, TickStep;
    TicksKeepInv(s, [tick]);
    assert [tick][..0] == [];
    assert RunTicks(s, [tick]) == TickStep(RunTicks(s, []), tick);
  }

  lemma StillInHand(s: State)
    requires Stopping(s) && InHand(s) > 1 && (s.pc == Collecting ==> s.count == 0) && ToBeLost(s) == 0
    ensures StepsToExit(s) > 1 && InHand(TickStep(s, QUIET)) > 1
  {
    hide Apply, OnlyData;
    assert Around(s, QUIET) == s;
    OneBatchLess(InHand(s) - 1);
    assert s.pc == Collecting ==> s.queue[0] == s.queue[..|s.queue| - 1][0];
  }

  /** When the sentinel is enqueued with no data queued and no batch being collected, then under
      every schedule, puts behind the sentinel included, exactly the entries accepted by then are
      acknowledged: those that arrive later are lost, and no others. */
  lemma OnlyLaterEntriesAreLost(s: State, ticks: seq<Tick>)
    requires Reachable(s) && NothingInHand(s) && s.pc != Exited && Enabled(s, EnqueueStop)
    requires RunTicks(Step(s, EnqueueStop), ticks).pc == Exited
    ensures var s' := RunTicks(Step(s, EnqueueStop), ticks);
      && s'.acked == Range(0, |s.accepted|) && s.accepted <= s'.accepted
      && forall id: nat :: Lost(s', id) <==> |s.accepted| <= id < |s'.accepted|
  {
    hide TickStep, RunTicks, Stored;
    ReachableInv(s);
    var stopping := Step(s, EnqueueStop);
    assert s.taken == |s.accepted|;
    CleanRun(stopping, ticks, s.taken);
    StepKeepsInv(s, EnqueueStop);
    TicksKeepInv(stopping, ticks);
    AcceptedGrows(stopping, ticks);
  }

  lemma {:induction false} AcceptedGrows(s: State, ticks: seq<Tick>)
    ensures s.accepted <= RunTicks(s, ticks).accepted
  {
    hide ThreadStep, Arrive;
    if ticks != [] {
      var k := |ticks| - 1;
      AcceptedGrows(s, ticks[..k]);
      var s' := RunTicks(s, ticks[..k]);
      ArriveBehind(s', ticks[k].arrivals);
      ThreadAccepts(Around(s', ticks[k]), ticks[k].miss, ticks[k].ok);
    }
  }

  lemma ThreadAccepts(s: State, miss: bool, ok: bool)
    ensures ThreadStep(s, miss, ok).accepted == s.accepted
  {
    hide Step, Enabled;
    var next := ThreadLabel(s, miss, ok);
    if next.Some? {
      ProducersFrame(s, next.value);
    }
  }

  /** No schedule, producers included, loses an entry accepted before the sentinel, if and only if
      by then no data is queued and no batch is being collected. */
  lemma ShutdownIsSafeIff(s: State)
    requires Reachable(s) && OnlyData(s.queue) && s.pc != Exited && Enabled(s, EnqueueStop)
    ensures LosesNothing(Step(s, EnqueueStop)) <==> NothingInHand(s)
  {
    hide Inv, Step, Enabled, TickStep, RunTicks, Reachable, Stopping, InHand, NothingInHand;
    ReachableInv(s);
    StopIsQueued(s);
    SentinelInHand(s);
    var stopping := Step(s, EnqueueStop);
    if NothingInHand(s) {
      forall ticks: seq<Tick> | RunTicks(stopping, ticks).pc == Exited
        ensures |stopping.accepted| <= |RunTicks(stopping, ticks).acked|
      {
        OnlyLaterEntriesAreLost(s, ticks);
      }
    } else {
      var ticks := LosingSchedule(stopping);
      assert !(|stopping.accepted| <= |RunTicks(stopping, ticks).acked|);
    }
  }

  lemma SentinelInHand(s: State)
    requires Enabled(s, EnqueueStop)
    ensures NothingInHand(s) || InHand(Step(s, EnqueueStop)) > 1
  {
  }

  /** A run that loses an entry: enqueued, collected, and dropped with its batch. */
  lemma AnEntryIsLost(put: Put)
    ensures var labels := [Enqueue(put), EnqueueStop, ReadHit, ReadHit, Break(0)];
      IsRun(Init(10000, true), labels)
      && var s := Exec(Init(10000, true), labels);
        s.pc == Exited && s.accepted == s.writeBatch == [put] && s.acked == [] && put.key !in s.db && s.broken == {0}
  {
    hide IsRun, Exec, Enabled, Step;
    var s0 := Init(10000, true);
    var s1 := s0.(accepted := [put], queue := [Data(0, put)]);
    var s2 := s1.(queue := [Data(0, put), Stop]);
    var s3 := s2.(queue := [Stop], entriesToSync := [0], writeBatch := [put], taken := 1, count := 1);
    var s4 := s3.(queue := [], pc := Exited);
    var s5 := s4.(broken := {0});
    OnePutEnters(s0, s1, put);
    LossSteps(s1, s2, s3, s4, s5, put);
    assert [Break(0)] + [] == [Break(0)];
    assert [Enqueue(put)] + [EnqueueStop, ReadHit, ReadHit, Break(0)]
      == [Enqueue(put), EnqueueStop, ReadHit, ReadHit, Break(0)];
    assert [EnqueueStop] + [ReadHit, ReadHit, Break(0)] == [EnqueueStop, ReadHit, ReadHit, Break(0)];
    assert [ReadHit] + [ReadHit, Break(0)] == [ReadHit, ReadHit, Break(0)];
    assert [ReadHit] + [Break(0)] == [ReadHit, Break(0)];
    EmptyRun(s5);
    RunCons(s4, Break(0), [], s5, s5);
    RunCons(s3, ReadHit, [Break(0)], s4, s5);
    RunCons(s2, ReadHit, [ReadHit, Break(0)], s3, s5);
    RunCons(s1, EnqueueStop, [ReadHit, ReadHit, Break(0)], s2, s5);
    RunCons(s0, Enqueue(put), [EnqueueStop, ReadHit, ReadHit, Break(0)], s1, s5);
  }

  lemma LossSteps(s1: State, s2: State, s3: State, s4: State, s5: State, put: Put)
    requires s1 == Init(10000, true).(accepted := [put], queue := [Data(0, put)])
    requires s2 == s1.(queue := [Data(0, put), Stop])
    requires s3 == s2.(queue := [Stop], entriesToSync := [0], writeBatch := [put], taken := 1, count := 1)
    requires s4 == s3.(queue := [], pc := Exited) && s5 == s4.(broken := {0})
    ensures Enabled(s1, EnqueueStop) && Step(s1, EnqueueStop) == s2
    ensures Enabled(s2, ReadHit) && Step(s2, ReadHit) == s3
    ensures Enabled(s3, ReadHit) && Step(s3, ReadHit) == s4
    ensures Enabled(s4, Break(0)) && Step(s4, Break(0)) == s5
  {
  }
}
