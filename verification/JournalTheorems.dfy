/** What the journal guarantees in every reachable state and over every run. */
module JournalTheorems {
  import opened Bytes
  import opened JournalModel

  // ---------------------------------------------------------------- crash consistency

  /** The database, and what a crash leaves of it, are the one-at-a-time replays of prefixes
      of the enqueue order, and the acknowledged entries lie in the database's prefix; with
      fsync they lie in the crash's too. */
  predicate CrashConsistent(s: State) {
    && s.durable <= |s.persisted| <= |s.accepted|
    && s.db == Replay(s.accepted[..|s.persisted|])
    && s.disk == Replay(s.accepted[..s.durable])
    && s.acked == Range(0, |s.acked|)
    && |s.acked| <= |s.persisted|
    && (s.fsync ==> |s.acked| <= s.durable)
  }

  lemma CrashConsistency(s: State)
    requires Reachable(s) && AllOk(s.outcomes)
    ensures CrashConsistent(s)
  {
    ReachableInv(s);
    SelectRange(s.accepted, [], 0, Written(s));
    assert s.persisted[..s.durable] == Range(0, s.durable);
    SelectRange(s.accepted, [], 0, s.durable);
  }

  /** Every promise is fulfilled at most once and in enqueue order, whatever Write returns. */
  lemma AcksFollowEnqueueOrder(s: State)
    requires Reachable(s)
    ensures s.acked == Range(0, |s.acked|) && |s.acked| <= |s.accepted|
  {
    ReachableInv(s);
  }

  /** The journal thread never blocks while it holds an unfulfilled promise or an unwritten
      put, and it never leaves the inner loop with nothing collected. */
  lemma NeverWaitsOnHeldPromises(s: State)
    requires Reachable(s)
    ensures s.pc == Collecting && s.block ==>
      s.entriesToSync == [] && s.writeBatch == [] && s.acked == Range(0, s.taken)
    ensures s.pc == Writing ==> 1 <= |s.entriesToSync| == |s.writeBatch| <= 1001
    ensures !Enabled(s, Skip)
  {
    ReachableInv(s);
  }

  // ---------------------------------------------------------------- the ignored status

  /** Every acknowledged entry has been applied by the database. */
  predicate AckedArePersisted(s: State) {
    forall i :: 0 <= i < |s.acked| ==> s.acked[i] in s.persisted
  }

  /** The outcomes of the Writes of which at least one promise has been fulfilled. */
  function AckedOutcomes(s: State): seq<bool> {
    if s.pc == Acking(0) && s.outcomes != [] then s.outcomes[..|s.outcomes| - 1] else s.outcomes
  }

  predicate FaultsLeaveGaps(s: State) {
    && (s.pc.Acking? ==> s.outcomes != [])
    && (AllOk(AckedOutcomes(s)) ==> forall id: nat :: id < BatchStart(s) ==> id in s.persisted)
    && (s.pc.Acking? && !AllOk(s.outcomes) && AllOk(AckedOutcomes(s)) ==>
      s.pc == Acking(0) && BatchStart(s) !in s.persisted)
    && (!AllOk(AckedOutcomes(s)) ==> exists id: nat :: id < |s.acked| && id !in s.persisted)
  }

  lemma StepGaps(s: State, l: Label)
    requires Inv(s) && FaultsLeaveGaps(s) && Enabled(s, l)
    ensures FaultsLeaveGaps(Step(s, l))
  {
    hide Replay, Select, Holds, AllOk;
    var s' := Step(s, l);
    if l.Write? {
      AllOkAppend(s.outcomes, l.ok);
      assert s'.outcomes[..|s'.outcomes| - 1] == s.outcomes;
      assert AckedOutcomes(s') == s.outcomes;
      if !AllOk(s.outcomes) {
        var id: nat :| id < |s.acked| && id !in s.persisted;
        assert id !in s'.persisted;
      }
      if !l.ok {
        assert BatchStart(s) !in s.persisted;
      }
    } else {
      GapsElsewhere(s, l);
    }
  }

  lemma GapsElsewhere(s: State, l: Label)
    requires Inv(s) && FaultsLeaveGaps(s) && Enabled(s, l) && !l.Write?
    ensures FaultsLeaveGaps(Step(s, l))
  {
    if l.Fulfil? {
      FulfilKeepsGaps(s);
    } else if l.Finish? {
      FinishKeepsGaps(s);
    } else {
      OtherStepKeepsGaps(s, l);
    }
  }

  lemma FulfilKeepsGaps(s: State)
    requires Inv(s) && FaultsLeaveGaps(s) && Enabled(s, Fulfil)
    ensures FaultsLeaveGaps(Step(s, Fulfil))
  {
    hide Replay, Select, Holds, AllOk, Stored;
    var s' := Step(s, Fulfil);
    assert AckedOutcomes(s') == s.outcomes;
    if s.pc.next == 0 && !AllOk(s.outcomes) && AllOk(AckedOutcomes(s)) {
      assert BatchStart(s) < |s'.acked|;
    }
    assert AllOk(s.outcomes) ==> AllOk(AckedOutcomes(s)) by { InitOk(s.outcomes); }
  }

  lemma InitOk(outcomes: seq<bool>)
    ensures AllOk(outcomes) && outcomes != [] ==> AllOk(outcomes[..|outcomes| - 1])
  {
  }

  lemma FinishKeepsGaps(s: State)
    requires Inv(s) && FaultsLeaveGaps(s) && Enabled(s, Finish)
    ensures FaultsLeaveGaps(Step(s, Finish))
  {
    hide Replay, Select, Holds, AllOk;
    assert AckedOutcomes(s) == s.outcomes;
    if AllOk(s.outcomes) {
      forall id: nat | id < s.taken
        ensures id in s.persisted
      {
        assert s.persisted[id] == id;
      }
    }
  }

  lemma OtherStepKeepsGaps(s: State, l: Label)
    requires Inv(s) && FaultsLeaveGaps(s) && Enabled(s, l) && !l.Write? && !l.Fulfil? && !l.Finish?
    ensures FaultsLeaveGaps(Step(s, l))
  {
    hide Replay, Select, Holds, AllOk, Stored;
    var s' := Step(s, l);
    assert s'.persisted == s.persisted && s'.acked == s.acked && AckedOutcomes(s') == AckedOutcomes(s);
    assert BatchStart(s') == BatchStart(s);
  }

  lemma {:induction false} RunGaps(s: State, labels: seq<Label>)
    requires Inv(s) && FaultsLeaveGaps(s) && IsRun(s, labels)
    ensures FaultsLeaveGaps(Exec(s, labels))
    decreases labels
  {
    hide Inv, FaultsLeaveGaps, Step, Enabled;
    if labels != [] {
      StepKeepsInv(s, labels[0]);
      StepGaps(s, labels[0]);
      RunGaps(Step(s, labels[0]), labels[1..]);
    }
  }

  lemma ReachableGaps(s: State)
    requires Reachable(s)
    ensures FaultsLeaveGaps(s)
  {
    hide Inv, Step;
    var capacity: nat, fsync: bool, labels: seq<Label> :|
      IsRun(Init(capacity, fsync), labels) && Exec(Init(capacity, fsync), labels) == s;
    InitInv(capacity, fsync);
    RunGaps(Init(capacity, fsync), labels);
  }

  /** The status of Write is ignored, so "acknowledged implies persisted" holds exactly in the
      states where every Write that has been acknowledged from succeeded. */
  lemma AckedArePersistedIff(s: State)
    requires Reachable(s)
    ensures AckedArePersisted(s) <==> AllOk(AckedOutcomes(s))
  {
    ReachableInv(s);
    ReachableGaps(s);
    if AllOk(AckedOutcomes(s)) {
      forall i | 0 <= i < |s.acked|
        ensures s.acked[i] in s.persisted
      {
        if AllOk(s.outcomes) {
          assert s.persisted[i] == i;
        }
      }
    } else {
      var id: nat :| id < |s.acked| && id !in s.persisted;
      assert s.acked[id] == id;
    }
  }

  function OnePut(put: Put, ok: bool): seq<Label> { [Enqueue(put), ReadHit, ReadMiss, Write(ok), Fulfil] }

  lemma RunCons(s: State, l: Label, rest: seq<Label>, s': State, end: State)
    requires Enabled(s, l) && s' == Step(s, l) && IsRun(s', rest) && Exec(s', rest) == end
    ensures IsRun(s, [l] + rest) && Exec(s, [l] + rest) == end
  {
    hide Enabled, Step;
    assert ([l] + rest)[1..] == rest;
  }

  function OnePutEnd(s0: State, put: Put, ok: bool): State {
    var batch := s0.(accepted := [put], queue := [], entriesToSync := [0], writeBatch := [put], taken := 1, count := 1,
                     block := true, pc := Writing);
    Commit(batch, ok).(acked := [0], pc := Acking(1))
  }

  lemma OnePutRun(s0: State, put: Put, ok: bool)
    requires s0 == Init(s0.capacity, s0.fsync) && s0.capacity > 0
    ensures IsRun(s0, OnePut(put, ok)) && Exec(s0, OnePut(put, ok)) == OnePutEnd(s0, put, ok)
  {
    hide IsRun, Exec, Enabled, Step, Commit;
    var s1 := s0.(accepted := [put], queue := [Data(0, put)]);
    var s2 := s1.(queue := [], entriesToSync := [0], writeBatch := [put], taken := 1, count := 1);
    var s3 := s2.(block := true, pc := Writing);
    var s4 := Commit(s3, ok);
    var s5 := s4.(acked := [0], pc := Acking(1));
    OnePutEnters(s0, s1, put);
    OnePutIsTaken(s1, s2, put);
    OnePutIsClosed(s2, s3);
    OnePutIsAcked(s3, s4, s5, ok);
    EmptyRun(s5);
    RunCons(s4, Fulfil, [], s5, s5);
    assert [Fulfil] + [] == [Fulfil];
    RunCons(s3, Write(ok), [Fulfil], s4, s5);
    assert [Write(ok)] + [Fulfil] == [Write(ok), Fulfil];
    RunCons(s2, ReadMiss, [Write(ok), Fulfil], s3, s5);
    assert [ReadMiss] + [Write(ok), Fulfil] == [ReadMiss, Write(ok), Fulfil];
    RunCons(s1, ReadHit, [ReadMiss, Write(ok), Fulfil], s2, s5);
    assert [ReadHit] + [ReadMiss, Write(ok), Fulfil] == [ReadHit, ReadMiss, Write(ok), Fulfil];
    RunCons(s0, Enqueue(put), [ReadHit, ReadMiss, Write(ok), Fulfil], s1, s5);
    assert [Enqueue(put)] + [ReadHit, ReadMiss, Write(ok), Fulfil] == OnePut(put, ok);
  }

  lemma EmptyRun(s: State)
    ensures IsRun(s, []) && Exec(s, []) == s
  {
  }

  lemma OnePutEnters(s: State, s': State, put: Put)
    requires s == Init(s.capacity, s.fsync) && s.capacity > 0
    requires s' == s.(accepted := [put], queue := [Data(0, put)])
    ensures Enabled(s, Enqueue(put)) && Step(s, Enqueue(put)) == s'
  {
    assert [] + [put] == [put] && [] + [Data(0, put)] == [Data(0, put)];
  }

  lemma OnePutIsTaken(s: State, s': State, put: Put)
    requires s.queue == [Data(0, put)] && s.entriesToSync == [] && s.writeBatch == []
    requires s.taken == 0 && s.count == 0 && s.pc == Collecting && !s.block
    requires s' == s.(queue := [], entriesToSync := [0], writeBatch := [put], taken := 1, count := 1)
    ensures Enabled(s, ReadHit) && Step(s, ReadHit) == s'
  {
    assert s.queue[1..] == [];
  }

  lemma OnePutIsClosed(s: State, s': State)
    requires s.pc == Collecting && !s.block && s.count == 1 && s' == s.(block := true, pc := Writing)
    ensures Enabled(s, ReadMiss) && Step(s, ReadMiss) == s'
  {
  }

  lemma OnePutIsAcked(s: State, s': State, s'': State, ok: bool)
    requires s.pc == Writing && s.entriesToSync == [0] && s.acked == []
    requires s' == Commit(s, ok) && s'' == s'.(acked := [0], pc := Acking(1))
    ensures Enabled(s, Write(ok)) && Step(s, Write(ok)) == s'
    ensures Enabled(s', Fulfil) && Step(s', Fulfil) == s''
  {
    hide Apply;
  }

  /** One put, one failed Write, one acknowledgement: the entry is nowhere. */
  lemma AckWithoutPersistence(put: Put)
    ensures IsRun(Init(10000, true), OnePut(put, false))
    ensures var s := Exec(Init(10000, true), OnePut(put, false));
      s.acked == [0] && s.persisted == [] && put.key !in s.db
  {
    OnePutRun(Init(10000, true), put, false);
  }

  /** Every acknowledged entry has reached the disk. */
  predicate AckedAreDurable(s: State)
    requires s.durable <= |s.persisted|
  {
    forall i :: 0 <= i < |s.acked| ==> s.acked[i] in s.persisted[..s.durable]
  }

  /** With fsync, a crash loses no acknowledged entry exactly in the states where every Write
      acknowledged from succeeded. */
  lemma AckedSurviveACrashIff(s: State)
    requires Reachable(s) && s.fsync
    ensures s.durable <= |s.persisted|
    ensures AckedAreDurable(s) <==> AllOk(AckedOutcomes(s))
  {
    ReachableInv(s);
    AckedArePersistedIff(s);
    assert s.persisted[..s.durable] == s.persisted;
  }

  /** In every run, acknowledged entries survive a crash as long as the Writes they were
      acknowledged from succeeded. */
  ghost predicate AcksAreDurable(capacity: nat, fsync: bool) {
    forall labels: seq<Label> | IsRun(Init(capacity, fsync), labels) ::
      var s := Exec(Init(capacity, fsync), labels);
      s.durable <= |s.persisted| && (AllOk(AckedOutcomes(s)) ==> AckedAreDurable(s))
  }

  lemma AcksAreDurableIffFsync(capacity: nat, fsync: bool)
    requires capacity > 0
    ensures AcksAreDurable(capacity, fsync) <==> fsync
  {
    var s0 := Init(capacity, fsync);
    if fsync {
      forall labels: seq<Label> | IsRun(s0, labels)
        ensures var s := Exec(s0, labels);
          s.durable <= |s.persisted| && (AllOk(AckedOutcomes(s)) ==> AckedAreDurable(s))
      {
        ConfigIsFixed(s0, labels);
        AckedSurviveACrashIff(Exec(s0, labels));
      }
    } else {
      var put := Put([], []);
      OnePutRun(s0, put, true);
      var s := Exec(s0, OnePut(put, true));
      assert s.acked[0] == 0 && AllOk(AckedOutcomes(s)) && s.persisted[..s.durable] == [];
    }
  }

  lemma StepConfig(s: State, l: Label)
    requires Enabled(s, l)
    ensures Step(s, l).fsync == s.fsync && Step(s, l).capacity == s.capacity
  {
  }

  lemma {:induction false} ConfigIsFixed(s: State, labels: seq<Label>)
    requires IsRun(s, labels)
    ensures Exec(s, labels).fsync == s.fsync && Exec(s, labels).capacity == s.capacity
    decreases labels
  {
    hide Step, Enabled;
    if labels != [] {
      StepConfig(s, labels[0]);
      ConfigIsFixed(Step(s, labels[0]), labels[1..]);
    }
  }

  // ---------------------------------------------------------------- one at a time

  /** A store that applies one put at a time and acknowledges only what it has applied. */
  datatype Simple = Simple(accepted: seq<Put>, applied: nat, db: Db, acked: nat)
  datatype SimpleLabel = Accept(put: Put) | ApplyNext | Acknowledge

  predicate SimpleEnabled(a: Simple, l: SimpleLabel) {
    match l
    case Accept(_) => true
    case ApplyNext => a.applied < |a.accepted|
    case Acknowledge => a.acked < a.applied
  }

  function SimpleStep(a: Simple, l: SimpleLabel): Simple
    requires SimpleEnabled(a, l)
  {
    match l
    case Accept(put) => a.(accepted := a.accepted + [put])
    case ApplyNext => a.(applied := a.applied + 1, db := a.db[a.accepted[a.applied].key := a.accepted[a.applied].value])
    case Acknowledge => a.(acked := a.acked + 1)
  }

  predicate SimpleRun(a: Simple, labels: seq<SimpleLabel>)
    decreases labels
  {
    labels == [] || (SimpleEnabled(a, labels[0]) && SimpleRun(SimpleStep(a, labels[0]), labels[1..]))
  }

  function SimpleExec(a: Simple, labels: seq<SimpleLabel>): Simple
    requires SimpleRun(a, labels)
    decreases labels
  {
    if labels == [] then a else SimpleExec(SimpleStep(a, labels[0]), labels[1..])
  }

  lemma {:induction false} SimpleConcat(a: Simple, x: seq<SimpleLabel>, y: seq<SimpleLabel>)
    requires SimpleRun(a, x) && SimpleRun(SimpleExec(a, x), y)
    ensures SimpleRun(a, x + y) && SimpleExec(a, x + y) == SimpleExec(SimpleExec(a, x), y)
    decreases x
  {
    if x == [] {
      assert x + y == y;
    } else {
      SimpleConcat(SimpleStep(a, x[0]), x[1..], y);
      assert (x + y)[1..] == x[1..] + y;
    }
  }

  function Abstract(s: State): Simple {
    Simple(s.accepted, |s.persisted|, s.db, |s.acked|)
  }

  function Applies(n: nat): (labels: seq<SimpleLabel>)
    ensures |labels| == n
  {
    if n == 0 then [] else [ApplyNext] + Applies(n - 1)
  }

  /** The simple steps one journal step stands for. */
  function SimpleLabels(s: State, l: Label): seq<SimpleLabel> {
    match l
    case Enqueue(put) => [Accept(put)]
    case Write(_) => Applies(|s.writeBatch|)
    case Fulfil => [Acknowledge]
    case _ => []
  }

  lemma {:induction false} ApplyOneByOne(a: Simple, n: nat)
    requires a.applied + n <= |a.accepted|
    ensures SimpleRun(a, Applies(n))
    ensures SimpleExec(a, Applies(n))
         == a.(applied := a.applied + n, db := Apply(a.db, a.accepted[a.applied..a.applied + n]))
    decreases n
  {
    if n > 0 {
      var a' := SimpleStep(a, ApplyNext);
      ApplyOneByOne(a', n - 1);
      assert Applies(n)[1..] == Applies(n - 1);
      var batch := a.accepted[a.applied..a.applied + n];
      assert batch == [batch[0]] + a'.accepted[a'.applied..a'.applied + (n - 1)];
      ApplyConcat(a.db, [batch[0]], batch[1..]);
      assert [batch[0]][..0] == [];
    }
  }

  lemma StepRefines(s: State, l: Label)
    requires Inv(s) && Enabled(s, l) && AllOk(s.outcomes) && AllOk(Step(s, l).outcomes)
    ensures SimpleRun(Abstract(s), SimpleLabels(s, l))
    ensures SimpleExec(Abstract(s), SimpleLabels(s, l)) == Abstract(Step(s, l))
  {
    hide Inv, Step, SimpleStep, SimpleEnabled, SimpleLabels, Abstract;
    if l.Write? {
      WriteRefines(s, l);
    } else {
      OtherStepRefines(s, l);
      OneLabel(Abstract(s), SimpleLabels(s, l));
    }
  }

  lemma WriteRefines(s: State, l: Label)
    requires Inv(s) && Enabled(s, l) && l.Write? && AllOk(s.outcomes) && AllOk(Step(s, l).outcomes)
    ensures SimpleRun(Abstract(s), SimpleLabels(s, l))
    ensures SimpleExec(Abstract(s), SimpleLabels(s, l)) == Abstract(Step(s, l))
  {
    hide Replay, Select, Holds, Apply, AllOk, Settled;
    AllOkAppend(s.outcomes, l.ok);
    ApplyOneByOne(Abstract(s), |s.writeBatch|);
  }

  lemma OtherStepRefines(s: State, l: Label)
    requires Inv(s) && Enabled(s, l) && AllOk(s.outcomes) && !l.Write?
    ensures |SimpleLabels(s, l)| <= 1
    ensures SimpleLabels(s, l) == [] ==> Abstract(Step(s, l)) == Abstract(s)
    ensures SimpleLabels(s, l) != [] ==>
      SimpleEnabled(Abstract(s), SimpleLabels(s, l)[0])
        && Abstract(Step(s, l)) == SimpleStep(Abstract(s), SimpleLabels(s, l)[0])
  {
    hide Replay, Select, Holds, Apply;
  }

  lemma OneLabel(a: Simple, labels: seq<SimpleLabel>)
    requires |labels| <= 1 && (labels != [] ==> SimpleEnabled(a, labels[0]))
    ensures SimpleRun(a, labels)
    ensures SimpleExec(a, labels) == if labels == [] then a else SimpleStep(a, labels[0])
  {
    assert labels != [] ==> labels[1..] == [];
  }

  function SimpleTrace(s: State, labels: seq<Label>): seq<SimpleLabel>
    requires IsRun(s, labels)
    decreases labels
  {
    if labels == [] then []
    else SimpleLabels(s, labels[0]) + SimpleTrace(Step(s, labels[0]), labels[1..])
  }

  lemma {:induction false} OutcomesGrow(s: State, labels: seq<Label>)
    requires IsRun(s, labels)
    ensures s.outcomes <= Exec(s, labels).outcomes
    decreases labels
  {
    if labels != [] {
      OutcomesGrow(Step(s, labels[0]), labels[1..]);
      assert s.outcomes <= Step(s, labels[0]).outcomes;
    }
  }

  /** Group commit refines the simple store: every run without a failed Write is, step for
      step, a run of the simple store ending in the same history, database and number of
      acknowledgements. */
  lemma {:induction false} GroupCommitRefinesSimpleStore(s: State, labels: seq<Label>)
    requires Inv(s) && IsRun(s, labels) && AllOk(Exec(s, labels).outcomes)
    ensures SimpleRun(Abstract(s), SimpleTrace(s, labels))
    ensures SimpleExec(Abstract(s), SimpleTrace(s, labels)) == Abstract(Exec(s, labels))
    decreases labels
  {
    hide Inv, Step, Enabled, Abstract, SimpleLabels, SimpleStep;
    if labels != [] {
      var s' := Step(s, labels[0]);
      OutcomesGrow(s, labels);
      OutcomesGrow(s', labels[1..]);
      StepKeepsInv(s, labels[0]);
      StepRefines(s, labels[0]);
      GroupCommitRefinesSimpleStore(s', labels[1..]);
      SimpleConcat(Abstract(s), SimpleLabels(s, labels[0]), SimpleTrace(s', labels[1..]));
    }
  }

  // ---------------------------------------------------------------- shutdown

  function DataOf(queue: seq<Item>): seq<Put> {
    if queue == [] then []
    else (match queue[0] case Stop => [] case Data(_, put) => [put]) + DataOf(queue[1..])
  }

  lemma {:induction false} HoldsData(queue: seq<Item>, accepted: seq<Put>, from: nat)
    requires Holds(queue, accepted, from)
    ensures from <= |accepted| && DataOf(queue) == accepted[from..]
    decreases queue
  {
    if queue != [] && queue[0].Stop? {
      HoldsData(queue[1..], accepted, from);
      assert [] + DataOf(queue[1..]) == DataOf(queue[1..]);
    } else if queue != [] {
      HoldsData(queue[1..], accepted, from + 1);
    }
  }

  /** When the journal thread has read the sentinel, the entries enqueued but never
      acknowledged are exactly the batch it was collecting, at most 1000 of them, and the
      data behind the sentinel; if no Write failed the database holds the others and only
      them. */
  lemma ShutdownLossIsExact(s: State)
    requires Reachable(s) && s.pc == Exited
    ensures s.acked == Range(0, |s.acked|) && |s.acked| <= |s.accepted|
    ensures s.accepted == s.accepted[..|s.acked|] + s.writeBatch + DataOf(s.queue)
    ensures |s.writeBatch| == |s.entriesToSync| <= 1000
    ensures AllOk(s.outcomes) ==> s.persisted == s.acked && s.db == Replay(s.accepted[..|s.acked|])
    ensures forall id: nat :: Lost(s, id) <==> s.taken - |s.writeBatch| <= id < s.taken + |DataOf(s.queue)|
  {
    ReachableInv(s);
    HoldsData(s.queue, s.accepted, s.taken);
    assert s.accepted == s.accepted[..|s.acked|] + s.accepted[|s.acked|..s.taken] + s.accepted[s.taken..];
    SelectRange(s.accepted, [], 0, |s.acked|);
  }

  /** After that nothing more is written or acknowledged, whatever producers still enqueue. */
  lemma {:induction false} ExitIsFinal(s: State, labels: seq<Label>)
    requires s.pc == Exited && IsRun(s, labels)
    ensures var s' := Exec(s, labels);
      s'.pc == Exited && s'.acked == s.acked && s'.db == s.db && s'.writeBatch == s.writeBatch
        && s.accepted <= s'.accepted
      && s.broken <= s'.broken && (s.closed ==> s'.accepted == s.accepted)
    decreases labels
  {
    if labels != [] {
      ExitIsFinal(Step(s, labels[0]), labels[1..]);
      assert s.accepted <= Step(s, labels[0]).accepted;
    }
  }

  /** No future is settled twice, none is broken before the thread exits or without being lost,
      and when the destructor is done every one is settled: fulfilled if its entry was
      acknowledged, broken if it was lost. */
  lemma EveryFutureSettlesOnce(s: State)
    requires Reachable(s)
    ensures forall id :: id in s.broken ==> s.pc == Exited && Lost(s, id) && id !in s.acked
    ensures s.closed && (forall id: nat :: !Enabled(s, Break(id))) ==> forall id: nat :: id in s.broken <==> Lost(s, id)
  {
    hide Stored;
    ReachableInv(s);
    if s.closed && forall id: nat :: !Enabled(s, Break(id)) {
      HeldIsLost(s);
      forall id: nat | Lost(s, id)
        ensures id in s.broken
      {
        assert !Enabled(s, Break(id));
      }
    }
  }
}
