/** The group-commit journal as a labelled transition system: many producers, one journal
    thread, one step per access to shared state. */
module JournalModel {
  import opened Bytes

  datatype Put = Put(key: seq<byte>, value: seq<byte>)

  type Db = map<seq<byte>, seq<byte>>

  /** RocksDB applies the puts of a batch in order, all or nothing. */
  function Apply(db: Db, puts: seq<Put>): Db {
    if puts == [] then db
    else
      var k := |puts| - 1;
      Apply(db, puts[..k])[puts[k].key := puts[k].value]
  }

  function Replay(puts: seq<Put>): Db { Apply(map[], puts) }

  lemma {:induction false} ApplyConcat(db: Db, a: seq<Put>, b: seq<Put>)
    ensures Apply(db, a + b) == Apply(Apply(db, a), b)
  {
    if b == [] {
      assert a + b == a;
    } else {
      var k := |b| - 1;
      ApplyConcat(db, a, b[..k]);
      assert (a + b)[..|a| + k] == a + b[..k];
    }
  }

  // ---------------------------------------------------------------- state

  /** A queued entry carries its promise, named by its place in the enqueue order; the
      sentinel carries none. */
  datatype Item = Data(id: nat, put: Put) | Stop

  datatype Pc = Collecting | Writing | Acking(next: nat) | Exited

  /** After 1000 has been counted past, the batch is closed. */
  const LAST_COUNT := 1000

  datatype State = State(
    capacity: nat,             // of the bounded queue
    fsync: bool,
    accepted: seq<Put>,        // history: every put ever enqueued
    queue: seq<Item>,
    pc: Pc,
    block: bool,               // blockForNextEntry
    count: nat,                // toSyncCount
    entriesToSync: seq<nat>,
    writeBatch: seq<Put>,
    db: Db,
    disk: Db,                  // what a crash would leave
    acked: seq<nat>,           // promises fulfilled, in order
    taken: nat,                // history: entries read off the queue
    outcomes: seq<bool>,       // history: the status of each Write, which the source ignores
    persisted: seq<nat>,       // history: entries the database has applied, in order
    durable: nat,              // history: how many of those have reached the disk
    broken: set<nat>,          // promises destroyed unfulfilled: their futures hold an exception
    closed: bool)              // the queue is being destroyed

  function Init(capacity: nat, fsync: bool): State {
    State(capacity, fsync, [], [], Collecting, false, 0, [], [], map[], map[], [], 0, [], [], 0, {}, false)
  }

  datatype Label =
    | Enqueue(put: Put)     // a producer's blockingWrite goes through
    | EnqueueStop           // the destructor's
    | ReadMiss              // the non-blocking read fails, on an empty queue or spuriously
    | ReadHit
    | BlockingRead          // returns only once there is an entry
    | Skip                  // nothing was collected: start over
    | Write(ok: bool)
    | Fulfil                // one promise
    | Finish                // clear the batch
    | Flush                 // the write-ahead log reaches the disk in the background
    | Break(id: nat)        // an unfulfilled promise is destroyed with what holds it
    | Close                 // the thread is joined, and the queue's destruction begins

  /** First the thread's own vector goes, then the queue, each in an order of its own. */
  predicate Enabled(s: State, l: Label) {
    match l
    case Enqueue(_) => !s.closed && |s.queue| < s.capacity
    case EnqueueStop => !s.closed && |s.queue| < s.capacity
    case ReadMiss => s.pc == Collecting && !s.block
    case ReadHit => s.pc == Collecting && !s.block && s.queue != []
    case BlockingRead => s.pc == Collecting && s.block && s.queue != []
    case Skip => s.pc == Writing && s.entriesToSync == []
    case Write(_) => s.pc == Writing && s.entriesToSync != []
    case Fulfil => s.pc.Acking? && s.pc.next < |s.entriesToSync|
    case Finish => s.pc.Acking? && s.pc.next == |s.entriesToSync|
    case Flush => true
    case Break(id) =>
      s.pc == Exited && id !in s.broken && (id in s.entriesToSync || (s.closed && id in QueuedIds(s.queue)))
    case Close => s.pc == Exited && !s.closed && forall i :: 0 <= i < |s.entriesToSync| ==>
      s.entriesToSync[i] in s.broken
  }

  /** Enqueued but not acknowledged. */
  predicate Lost(s: State, id: nat) { |s.acked| <= id < |s.accepted| }

  /** What the thread does with the entry it has read. */
  function Take(s: State): State
    requires s.queue != []
  {
    var s' := s.(queue := s.queue[1..], block := false);
    match s.queue[0]
    case Stop => s'.(pc := Exited)
    case Data(id, put) =>
      s'.(entriesToSync := s.entriesToSync + [id], writeBatch := s.writeBatch + [put], taken := s.taken + 1,
          pc := if s.count == LAST_COUNT then Writing else Collecting, count := s.count + 1)
  }

  function Commit(s: State, ok: bool): State {
    var s' := s.(outcomes := s.outcomes + [ok], pc := Acking(0));
    if !ok then s'
    else
      var db := Apply(s.db, s.writeBatch);
      var persisted := s.persisted + s.entriesToSync;
      if s.fsync then s'.(db := db, persisted := persisted, disk := db, durable := |persisted|)
      else s'.(db := db, persisted := persisted)
  }

  function Step(s: State, l: Label): State
    requires Enabled(s, l)
  {
    match l
    case Enqueue(put) => s.(queue := s.queue + [Data(|s.accepted|, put)], accepted := s.accepted + [put])
    case EnqueueStop => s.(queue := s.queue + [Stop])
    case ReadMiss => s.(block := true, pc := if s.count == 0 then Collecting else Writing)
    case ReadHit => Take(s)
    case BlockingRead => Take(s)
    case Skip => s.(pc := Collecting, count := 0)
    case Write(ok) => Commit(s, ok)
    case Fulfil => s.(acked := s.acked + [s.entriesToSync[s.pc.next]], pc := Acking(s.pc.next + 1))
    case Finish => s.(entriesToSync := [], writeBatch := [], pc := Collecting, count := 0)
    case Flush => s.(disk := s.db, durable := |s.persisted|)
    case Break(id) => s.(broken := s.broken + {id})
    case Close => s.(closed := true)
  }

  predicate IsRun(s: State, labels: seq<Label>)
    decreases labels
  {
    labels == [] || (Enabled(s, labels[0]) && IsRun(Step(s, labels[0]), labels[1..]))
  }

  function Exec(s: State, labels: seq<Label>): State
    requires IsRun(s, labels)
    decreases labels
  {
    if labels == [] then s else Exec(Step(s, labels[0]), labels[1..])
  }

  lemma {:induction false} RunConcat(s: State, a: seq<Label>, b: seq<Label>)
    requires IsRun(s, a) && IsRun(Exec(s, a), b)
    ensures IsRun(s, a + b) && Exec(s, a + b) == Exec(Exec(s, a), b)
    decreases a
  {
    hide Step, Enabled;
    if a == [] {
      assert a + b == b;
    } else {
      RunConcat(Step(s, a[0]), a[1..], b);
      assert (a + b)[1..] == a[1..] + b;
    }
  }

  // ---------------------------------------------------------------- invariant

  predicate AllOk(outcomes: seq<bool>) {
    forall i :: 0 <= i < |outcomes| ==> outcomes[i]
  }

  /** The queue holds, besides sentinels, exactly accepted[from..], in order. */
  predicate Holds(queue: seq<Item>, accepted: seq<Put>, from: nat) {
    if queue == [] then from == |accepted|
    else match queue[0]
      case Stop => Holds(queue[1..], accepted, from)
      case Data(id, put) =>
        from < |accepted| && id == from && put == accepted[from] && Holds(queue[1..], accepted, from + 1)
  }

  lemma {:induction false} HoldsAppend(queue: seq<Item>, accepted: seq<Put>, from: nat, put: Put)
    requires Holds(queue, accepted, from)
    ensures Holds(queue + [Data(|accepted|, put)], accepted + [put], from)
    ensures Holds(queue + [Stop], accepted, from)
    ensures from <= |accepted|
    decreases queue
  {
    if queue == [] {
      assert queue + [Stop] == [Stop] && queue + [Data(|accepted|, put)] == [Data(|accepted|, put)];
    } else {
      HoldsAppend(queue[1..], accepted, if queue[0].Stop? then from else from + 1, put);
      assert (queue + [Stop])[1..] == queue[1..] + [Stop];
      assert (queue + [Data(|accepted|, put)])[1..] == queue[1..] + [Data(|accepted|, put)];
    }
  }

  function QueuedIds(queue: seq<Item>): set<nat> { set i | 0 <= i < |queue| && queue[i].Data? :: queue[i].id }

  lemma {:induction false} QueueIds(queue: seq<Item>, accepted: seq<Put>, from: nat)
    requires Holds(queue, accepted, from)
    ensures from <= |accepted|
    ensures forall i :: 0 <= i < |queue| && queue[i].Data? ==> from <= queue[i].id < |accepted|
    decreases queue
  {
    if queue != [] {
      QueueIds(queue[1..], accepted, if queue[0].Stop? then from else from + 1);
      forall i | 0 < i < |queue| && queue[i].Data?
        ensures from <= queue[i].id < |accepted|
      {
        assert queue[1..][i - 1] == queue[i];
      }
    }
  }

  lemma {:induction false} QueueIsOrdered(queue: seq<Item>, accepted: seq<Put>, from: nat, i: nat)
    requires Holds(queue, accepted, from) && i < |queue| && queue[i].Data?
    ensures queue[i].id !in QueuedIds(queue[..i])
    decreases queue
  {
    if i > 0 {
      var next := if queue[0].Stop? then from else from + 1;
      QueueIsOrdered(queue[1..], accepted, next, i - 1);
      QueueIds(queue[1..], accepted, next);
      assert queue[1..][i - 1] == queue[i];
      forall j | 0 <= j < i && queue[j].Data?
        ensures queue[j].id != queue[i].id
      {
        assert j > 0 ==> queue[1..][..i - 1][j - 1] == queue[j];
      }
    }
  }

  lemma {:induction false} QueueFinds(queue: seq<Item>, accepted: seq<Put>, from: nat, id: nat) returns (i: nat)
    requires Holds(queue, accepted, from) && from <= id < |accepted|
    ensures i < |queue| && queue[i].Data? && queue[i].id == id
    decreases queue
  {
    if queue[0].Data? && id == from {
      i := 0;
    } else {
      i := QueueFinds(queue[1..], accepted, if queue[0].Stop? then from else from + 1, id);
      i := i + 1;
    }
  }

  /** The first entry of the batch being collected or committed. */
  function BatchStart(s: State): int { s.taken - |s.entriesToSync| }

  /** How many entries have been handed to Write. */
  function Written(s: State): int {
    if s.pc.Acking? then s.taken else BatchStart(s)
  }

  function Select(accepted: seq<Put>, ids: seq<nat>): (puts: seq<Put>)
    requires forall i :: 0 <= i < |ids| ==> ids[i] < |accepted|
    ensures |puts| == |ids|
  {
    seq(|ids|, i requires 0 <= i < |ids| => accepted[ids[i]])
  }

  /** Flag, counter, collected promises and batch agree at every point of the two loops. */
  predicate LoopsAgree(s: State) {
    match s.pc
    case Collecting => s.count == |s.entriesToSync| <= LAST_COUNT && (s.block ==> s.count == 0)
    case Writing => s.count == |s.entriesToSync| && 1 <= |s.entriesToSync| <= LAST_COUNT + 1
    case Acking(next) => next <= |s.entriesToSync| && 1 <= |s.entriesToSync| <= LAST_COUNT + 1
    case Exited => |s.entriesToSync| <= LAST_COUNT
  }

  /** Every entry is in exactly one place: acknowledged, collected, or queued. */
  predicate Placed(s: State) {
    && Holds(s.queue, s.accepted, s.taken)
    && |s.entriesToSync| <= s.taken <= |s.accepted|
    && s.entriesToSync == Range(BatchStart(s), s.taken)
    && s.writeBatch == s.accepted[BatchStart(s)..s.taken]
    && s.acked == Range(0, BatchStart(s) + if s.pc.Acking? then s.pc.next else 0)
  }

  /** The database is the replay of the puts it has applied, the disk of those that were
      synced; all of them have been handed to Write, and if no Write failed they are all
      that have. */
  predicate Stored(s: State) {
    && 0 <= Written(s) <= |s.accepted|
    && (forall i :: 0 <= i < |s.persisted| ==> s.persisted[i] < Written(s))
    && s.durable <= |s.persisted|
    && s.db == Replay(Select(s.accepted, s.persisted))
    && s.disk == Replay(Select(s.accepted, s.persisted[..s.durable]))
    && (s.fsync ==> s.durable == |s.persisted|)
    && (AllOk(s.outcomes) ==> s.persisted == Range(0, Written(s)))
  }

  /** Only what is lost when the thread has exited is broken, the collected before the queued. */
  predicate Settled(s: State) {
    && (s.closed || s.broken != {} ==> s.pc == Exited)
    && (forall id :: id in s.broken ==> Lost(s, id) && (id >= s.taken ==> s.closed))
    && (s.closed ==> forall i :: 0 <= i < |s.entriesToSync| ==> s.entriesToSync[i] in s.broken)
  }

  predicate Inv(s: State) { LoopsAgree(s) && Placed(s) && Stored(s) && Settled(s) }

  lemma StepLoops(s: State, l: Label)
    requires LoopsAgree(s) && Enabled(s, l)
    ensures LoopsAgree(Step(s, l))
  {
  }

  /** Once the thread has exited, what is lost is what it or the queue still holds. */
  lemma HeldIsLost(s: State)
    requires Placed(s) && s.pc == Exited
    ensures forall id: nat :: Lost(s, id) <==> id in s.entriesToSync || id in QueuedIds(s.queue)
    ensures forall id: nat :: id in s.entriesToSync ==> id < s.taken
    ensures forall id: nat :: id in QueuedIds(s.queue) ==> id >= s.taken
  {
    QueueIds(s.queue, s.accepted, s.taken);
    forall id: nat | Lost(s, id)
      ensures id in s.entriesToSync || id in QueuedIds(s.queue)
    {
      if id < s.taken {
        assert s.entriesToSync[id - BatchStart(s)] == id;
      } else {
        var i := QueueFinds(s.queue, s.accepted, s.taken, id);
      }
    }
  }

  lemma StepSettled(s: State, l: Label)
    requires Placed(s) && Settled(s) && Enabled(s, l)
    ensures Settled(Step(s, l))
  {
    hide Placed;
    var s' := Step(s, l);
    if s.pc != Exited {
      assert s'.broken == {};
    } else {
      HeldIsLost(s);
      assert s'.acked == s.acked && s'.taken == s.taken && s'.entriesToSync == s.entriesToSync;
      assert |s.accepted| <= |s'.accepted|;
    }
  }

  lemma StepPlaced(s: State, l: Label)
    requires LoopsAgree(s) && Placed(s) && Enabled(s, l)
    ensures Placed(Step(s, l))
  {
    hide Holds;
    var s' := Step(s, l);
    match l
    case Enqueue(put) => HoldsAppend(s.queue, s.accepted, s.taken, put);
    case EnqueueStop => HoldsAppend(s.queue, s.accepted, s.taken, Put([], []));
    case ReadHit => TakePlaced(s);
    case BlockingRead => TakePlaced(s);
    case Fulfil => assert s'.acked == Range(0, BatchStart(s) + s.pc.next + 1);
    case _ =>
  }

  lemma TakePlaced(s: State)
    requires LoopsAgree(s) && Placed(s) && s.pc == Collecting && s.queue != []
    ensures Placed(Take(s))
  {
    if s.queue[0].Data? {
      HoldsAppend(s.queue[1..], s.accepted, s.taken + 1, Put([], []));
      assert Take(s).entriesToSync == Range(BatchStart(s), s.taken + 1);
      assert s.accepted[BatchStart(s)..s.taken + 1] == s.accepted[BatchStart(s)..s.taken] + [s.accepted[s.taken]];
    }
  }

  lemma SelectIsStable(accepted: seq<Put>, put: Put, ids: seq<nat>)
    requires forall i :: 0 <= i < |ids| ==> ids[i] < |accepted|
    ensures Select(accepted + [put], ids) == Select(accepted, ids)
  {
  }

  lemma SelectRange(accepted: seq<Put>, ids: seq<nat>, lo: nat, hi: nat)
    requires lo <= hi <= |accepted| && forall i :: 0 <= i < |ids| ==> ids[i] < |accepted|
    ensures Select(accepted, ids + Range(lo, hi)) == Select(accepted, ids) + accepted[lo..hi]
    ensures Select(accepted, Range(0, hi)) == accepted[..hi]
  {
  }

  /** What Stored speaks of. */
  predicate SameStore(s: State, s': State) {
    && s'.accepted == s.accepted && s'.persisted == s.persisted && s'.durable == s.durable && s'.fsync == s.fsync
    && s'.db == s.db && s'.disk == s.disk && s'.outcomes == s.outcomes && Written(s') == Written(s)
  }

  lemma StoredElsewhere(s: State, s': State)
    requires Stored(s) && SameStore(s, s')
    ensures Stored(s')
  {
  }

  /** Other steps hand nothing to Write and flush nothing. */
  lemma OtherStepStores(s: State, l: Label)
    requires LoopsAgree(s) && Enabled(s, l) && !l.Enqueue? && !l.Write? && !l.Flush?
    ensures SameStore(s, Step(s, l))
  {
  }

  lemma EnqueueStored(s: State, put: Put)
    requires Stored(s) && Enabled(s, Enqueue(put))
    ensures Stored(Step(s, Enqueue(put)))
  {
    hide Replay, Select, AllOk, Range;
    SelectIsStable(s.accepted, put, s.persisted);
    SelectIsStable(s.accepted, put, s.persisted[..s.durable]);
  }

  lemma FlushStored(s: State)
    requires Stored(s)
    ensures Stored(Step(s, Flush))
  {
    hide Replay, Select, AllOk, Range;
    assert s.persisted[..|s.persisted|] == s.persisted;
  }

  lemma StepStored(s: State, l: Label)
    requires Inv(s) && Enabled(s, l)
    ensures Stored(Step(s, l))
  {
    hide Placed, Stored, Settled, Commit, Take, SameStore;
    if l.Enqueue? {
      EnqueueStored(s, l.put);
    } else if l.Write? {
      CommitStored(s, l.ok);
    } else if l.Flush? {
      FlushStored(s);
    } else {
      OtherStepStores(s, l);
      StoredElsewhere(s, Step(s, l));
    }
  }

  lemma AllOkAppend(outcomes: seq<bool>, ok: bool)
    ensures AllOk(outcomes + [ok]) <==> AllOk(outcomes) && ok
  {
    assert (outcomes + [ok])[|outcomes|] == ok;
    assert forall i :: 0 <= i < |outcomes| ==> outcomes[i] == (outcomes + [ok])[i];
  }

  lemma CommitStored(s: State, ok: bool)
    requires Inv(s) && Enabled(s, Write(ok))
    ensures Stored(Commit(s, ok))
  {
    hide Replay, Select, Holds, AllOk;
    AllOkAppend(s.outcomes, ok);
    if ok {
      CommitApplies(s);
    }
  }

  lemma CommitApplies(s: State)
    requires Placed(s) && Stored(s) && s.pc == Writing
    ensures var s' := Commit(s, true);
      && (forall i :: 0 <= i < |s'.persisted| ==> s'.persisted[i] < s.taken)
      && s'.db == Replay(Select(s.accepted, s'.persisted))
      && s'.disk == Replay(Select(s.accepted, s'.persisted[..s'.durable]))
      && (s.persisted == Range(0, BatchStart(s)) ==> s'.persisted == Range(0, s.taken))
  {
    hide Select, Holds, AllOk;
    var s' := Commit(s, true);
    SelectRange(s.accepted, s.persisted, BatchStart(s), s.taken);
    ApplyConcat(map[], Select(s.accepted, s.persisted), s.writeBatch);
    assert s'.persisted[..|s'.persisted|] == s'.persisted;
    assert s'.persisted[..s.durable] == s.persisted[..s.durable];
  }

  lemma StepKeepsInv(s: State, l: Label)
    requires Inv(s) && Enabled(s, l)
    ensures Inv(Step(s, l))
  {
    hide Step, Enabled, LoopsAgree, Placed, Stored, Settled;
    StepLoops(s, l);
    StepSettled(s, l);
    StepPlaced(s, l);
    StepStored(s, l);
  }

  lemma {:induction false} RunKeepsInv(s: State, labels: seq<Label>)
    requires Inv(s) && IsRun(s, labels)
    ensures Inv(Exec(s, labels))
    decreases labels
  {
    if labels != [] {
      StepKeepsInv(s, labels[0]);
      RunKeepsInv(Step(s, labels[0]), labels[1..]);
    }
  }

  lemma InitInv(capacity: nat, fsync: bool)
    ensures Inv(Init(capacity, fsync))
  {
    var s := Init(capacity, fsync);
    assert Select(s.accepted, []) == [] && s.persisted[..0] == [];
  }

  /** A state some interleaving of producers and the journal thread leads to. */
  ghost predicate Reachable(s: State) {
    exists capacity: nat, fsync: bool, labels: seq<Label> ::
      IsRun(Init(capacity, fsync), labels) && Exec(Init(capacity, fsync), labels) == s
  }

  lemma ReachableInv(s: State)
    requires Reachable(s)
    ensures Inv(s)
  {
    hide Inv, Init, Step;
    var capacity: nat, fsync: bool, labels: seq<Label> :|
      IsRun(Init(capacity, fsync), labels) && Exec(Init(capacity, fsync), labels) == s;
    InitInv(capacity, fsync);
    RunKeepsInv(Init(capacity, fsync), labels);
  }
}
