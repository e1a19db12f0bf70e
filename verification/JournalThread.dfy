/** The journal thread as code: the two nested loops of runJournal, with whatever producers
    do between any two of its steps given as input. */
module JournalThread {
  import opened Bytes
  import opened JournalModel
  import StorageKey

  /** Around one step of the thread: what producers offer before it (None is the sentinel),
      whether the write-ahead log is flushed then, whether a non-blocking read fails
      spuriously, and what Write returns. */
  datatype Tick = Tick(arrivals: seq<Option<Put>>, flush: bool, miss: bool, ok: bool)

  function ArrivalLabel(arrival: Option<Put>): Label {
    match arrival case None => EnqueueStop case Some(put) => Enqueue(put)
  }

  /** Offers find room in arrival order; a producer that finds none is still waiting. */
  function Arrive(s: State, arrivals: seq<Option<Put>>): State {
    if arrivals == [] then s
    else
      var k := |arrivals| - 1;
      var s' := Arrive(s, arrivals[..k]);
      if Enabled(s', ArrivalLabel(arrivals[k])) then Step(s', ArrivalLabel(arrivals[k])) else s'
  }

  /** What happens around the thread before its step. */
  function Around(s: State, tick: Tick): State {
    var s' := Arrive(s, tick.arrivals);
    if tick.flush then Step(s', Flush) else s'
  }

  /** The thread's next step, if it is not blocked on an empty queue. After its return, what
      is left to do is destroying the promises in its vector. */
  function ThreadLabel(s: State, miss: bool, ok: bool): (next: Option<Label>)
    ensures next.Some? ==> Enabled(s, next.value)
  {
    match s.pc
    case Collecting =>
      if s.block then if s.queue == [] then None else Some(BlockingRead)
      else if miss || s.queue == [] then Some(ReadMiss) else Some(ReadHit)
    case Writing => if s.entriesToSync == [] then Some(Skip) else Some(Write(ok))
    case Acking(next) =>
      if next < |s.entriesToSync| then Some(Fulfil)
      else if next == |s.entriesToSync| then Some(Finish) else None
    case Exited =>
      var n := |s.broken|;
      if n < |s.entriesToSync| && Enabled(s, Break(s.entriesToSync[n])) then Some(Break(s.entriesToSync[n])) else None
  }

  function ThreadStep(s: State, miss: bool, ok: bool): State {
    match ThreadLabel(s, miss, ok) case None => s case Some(l) => Step(s, l)
  }

  function TickStep(s: State, tick: Tick): State {
    ThreadStep(Around(s, tick), tick.miss, tick.ok)
  }

  function RunTicks(s: State, ticks: seq<Tick>): State {
    if ticks == [] then s
    else
      var k := |ticks| - 1;
      TickStep(RunTicks(s, ticks[..k]), ticks[k])
  }

  lemma NoTicks(s: State, ticks: seq<Tick>)
    requires ticks == []
    ensures RunTicks(s, ticks) == s
  {
  }

  lemma ArrivalFrame(s: State, arrival: Option<Put>)
    requires Enabled(s, ArrivalLabel(arrival))
    ensures var s' := Step(s, ArrivalLabel(arrival));
      s' == s.(queue := s'.queue, accepted := s'.accepted)
  {
  }

  /** Producers touch only the queue. */
  lemma {:induction false} ArriveFrame(s: State, arrivals: seq<Option<Put>>)
    ensures var s' := Arrive(s, arrivals);
      s' == s.(queue := s'.queue, accepted := s'.accepted)
  {
    hide Step, Enabled;
    if arrivals != [] {
      var k := |arrivals| - 1;
      ArriveFrame(s, arrivals[..k]);
      var s' := Arrive(s, arrivals[..k]);
      if Enabled(s', ArrivalLabel(arrivals[k])) {
        ArrivalFrame(s', arrivals[k]);
      }
    }
  }

  function Puts(arrivals: seq<Option<Put>>): seq<Put> {
    if arrivals == [] then []
    else
      var k := |arrivals| - 1;
      Puts(arrivals[..k]) + PutIn(arrivals[k])
  }

  function PutIn(arrival: Option<Put>): seq<Put> {
    match arrival case None => [] case Some(put) => [put]
  }

  /** An item as offered. */
  predicate Holds(item: Item, arrival: Option<Put>) {
    match arrival case None => item.Stop? case Some(put) => item.Data? && item.put == put
  }

  /** As many of the offers as there is room for are queued, the first ones, in order; once the
      queue is gone, none. */
  lemma {:induction false} ArrivalsTakeTheRoom(s: State, arrivals: seq<Option<Put>>)
    requires |s.queue| <= s.capacity
    ensures var s', room := Arrive(s, arrivals), if s.closed then 0 else s.capacity - |s.queue|;
      var n := if |arrivals| <= room then |arrivals| else room;
      && |s'.queue| == |s.queue| + n && s.queue <= s'.queue && s'.accepted == s.accepted + Puts(arrivals[..n])
      && forall i :: 0 <= i < n ==> Holds(s'.queue[|s.queue| + i], arrivals[i])
  {
    hide Step, Enabled, Holds, PutIn;
    if arrivals != [] {
      var k := |arrivals| - 1;
      ArrivalsTakeTheRoom(s, arrivals[..k]);
      ArriveFrame(s, arrivals[..k]);
      ArrivalQueues(Arrive(s, arrivals[..k]), arrivals[k]);
      var room := if s.closed then 0 else s.capacity - |s.queue|;
      if k < room {
        assert arrivals[..k][..k] == arrivals[..k] && arrivals[..k + 1] == arrivals;
      } else {
        assert arrivals[..k][..room] == arrivals[..room];
      }
    }
  }

  lemma ArrivalQueues(s: State, arrival: Option<Put>)
    ensures Enabled(s, ArrivalLabel(arrival)) <==> !s.closed && |s.queue| < s.capacity
    ensures Enabled(s, ArrivalLabel(arrival)) ==>
      var s' := Step(s, ArrivalLabel(arrival));
      && |s'.queue| == |s.queue| + 1 && s'.queue == s.queue + [s'.queue[|s.queue|]]
      && Holds(s'.queue[|s.queue|], arrival) && s'.accepted == s.accepted + PutIn(arrival)
  {
  }

  /** A flush brings the disk up to the database as it is; without one it stays. */
  lemma FlushSyncs(s: State, tick: Tick)
    ensures Around(s, tick).db == s.db && Around(s, tick).disk == if tick.flush then s.db else s.disk
  {
    ArriveFrame(s, tick.arrivals);
  }

  lemma AroundFrame(s: State, tick: Tick)
    ensures var s' := Around(s, tick);
      s' == s.(queue := s'.queue, accepted := s'.accepted, disk := s'.disk, durable := s'.durable)
  {
    ArriveFrame(s, tick.arrivals);
  }

  lemma OneMore(s: State, ticks: seq<Tick>, k: nat)
    requires k < |ticks|
    ensures RunTicks(s, ticks[..k + 1]) == TickStep(RunTicks(s, ticks[..k]), ticks[k])
  {
    assert ticks[..k + 1][..k] == ticks[..k];
  }

  lemma TickIs(s: State, tick: Tick)
    ensures TickStep(s, tick) == ThreadStep(Around(s, tick), tick.miss, tick.ok)
  {
  }

  /** s' can be reached from s in the transition system. */
  ghost predicate Leads(s: State, s': State) {
    exists labels :: IsRun(s, labels) && Exec(s, labels) == s'
  }

  lemma LeadsStep(s: State, s': State, l: Label)
    requires Leads(s, s') && Enabled(s', l)
    ensures Leads(s, Step(s', l))
  {
    hide Step, Enabled;
    var labels :| IsRun(s, labels) && Exec(s, labels) == s';
    var one := [l];
    assert one[1..] == [] && IsRun(Step(s', l), one[1..]);
    assert IsRun(s', one) && Exec(s', one) == Step(s', l);
    RunConcat(s, labels, one);
  }

  lemma {:induction false} ArriveLeads(s: State, s': State, arrivals: seq<Option<Put>>)
    requires Leads(s, s')
    ensures Leads(s, Arrive(s', arrivals))
  {
    hide Step, Leads, Enabled;
    if arrivals != [] {
      var k := |arrivals| - 1;
      ArriveLeads(s, s', arrivals[..k]);
      var mid := Arrive(s', arrivals[..k]);
      if Enabled(mid, ArrivalLabel(arrivals[k])) {
        LeadsStep(s, mid, ArrivalLabel(arrivals[k]));
      }
    }
  }

  lemma AroundLeads(s: State, s': State, tick: Tick)
    requires Leads(s, s')
    ensures Leads(s, Around(s', tick))
  {
    hide Step, Leads;
    ArriveLeads(s, s', tick.arrivals);
    if tick.flush {
      LeadsStep(s, Arrive(s', tick.arrivals), Flush);
    }
  }

  /** Whatever the schedule, the code runs the transition system. */
  lemma {:induction false} TicksAreRuns(s: State, ticks: seq<Tick>)
    ensures Leads(s, RunTicks(s, ticks))
  {
    hide Step, Around, ThreadLabel, Leads;
    if ticks == [] {
      NowhereLeads(s);
    } else {
      var k := |ticks| - 1;
      TicksAreRuns(s, ticks[..k]);
      AroundLeads(s, RunTicks(s, ticks[..k]), ticks[k]);
      var mid := Around(RunTicks(s, ticks[..k]), ticks[k]);
      var next := ThreadLabel(mid, ticks[k].miss, ticks[k].ok);
      if next.Some? {
        LeadsStep(s, mid, next.value);
      }
    }
  }

  lemma NowhereLeads(s: State)
    ensures Leads(s, s)
  {
    assert IsRun(s, []) && Exec(s, []) == s;
  }

  /** Everything the theorems say of reachable states holds of what the code leaves. */
  lemma TicksReach(capacity: nat, fsync: bool, ticks: seq<Tick>)
    ensures Reachable(RunTicks(Init(capacity, fsync), ticks))
  {
    hide Init, Step;
    TicksAreRuns(Init(capacity, fsync), ticks);
  }

  lemma TicksKeepInv(s: State, ticks: seq<Tick>)
    requires Inv(s)
    ensures Inv(RunTicks(s, ticks))
  {
    hide Inv, Step, RunTicks;
    TicksAreRuns(s, ticks);
    LeadsKeepsInv(s, RunTicks(s, ticks));
  }

  lemma LeadsKeepsInv(s: State, s': State)
    requires Inv(s) && Leads(s, s')
    ensures Inv(s')
  {
    hide Inv, Step;
    var labels :| IsRun(s, labels) && Exec(s, labels) == s';
    RunKeepsInv(s, labels);
  }

  /** The effect of each kind of step on what the thread and its clients see. */
  predicate Sees(s: State, s': State) {
    s'.capacity == s.capacity && s'.fsync == s.fsync && s'.accepted == s.accepted && s'.closed == s.closed
  }

  predicate SameDb(s: State, s': State) {
    s'.db == s.db && s'.disk == s.disk
  }

  predicate SamePromises(s: State, s': State) {
    s'.acked == s.acked && s'.broken == s.broken
  }

  predicate SameThread(s: State, s': State) {
    s'.pc == s.pc && s'.block == s.block && s'.count == s.count
    && s'.entriesToSync == s.entriesToSync && s'.writeBatch == s.writeBatch && s'.taken == s.taken
  }

  predicate SameBatch(s: State, s': State) {
    s'.count == s.count && s'.entriesToSync == s.entriesToSync && s'.writeBatch == s.writeBatch
  }

  lemma BlockedEffect(s: State, miss: bool, ok: bool)
    requires s.pc == Collecting && s.block && s.queue == []
    ensures ThreadStep(s, miss, ok) == s
  {
  }

  lemma MissEffect(s: State, miss: bool, ok: bool)
    requires s.pc == Collecting && !s.block && (miss || s.queue == [])
    ensures var s' := ThreadStep(s, miss, ok);
      Sees(s, s') && SameDb(s, s') && SamePromises(s, s') && s'.queue == s.queue
      && s'.pc == (if s.count == 0 then Collecting else Writing) && s'.block && s'.count == s.count
      && s'.entriesToSync == s.entriesToSync && s'.writeBatch == s.writeBatch
  {
  }

  lemma ReadEffect(s: State, miss: bool, ok: bool)
    requires s.pc == Collecting && s.queue != [] && (s.block || !miss)
    ensures var s' := ThreadStep(s, miss, ok);
      Sees(s, s') && SameDb(s, s') && SamePromises(s, s') && s'.queue == s.queue[1..] && !s'.block
      && match s.queue[0]
         case Stop => s'.pc == Exited && s'.entriesToSync == s.entriesToSync
         case Data(id, put) =>
           s'.pc == (if s.count == LAST_COUNT then Writing else Collecting) && s'.count == s.count + 1
           && s'.entriesToSync == s.entriesToSync + [id] && s'.writeBatch == s.writeBatch + [put]
  {
  }

  lemma CommitEffect(s: State, miss: bool, ok: bool)
    requires s.pc == Writing
    ensures var s' := ThreadStep(s, miss, ok);
      Sees(s, s') && SamePromises(s, s') && s'.queue == s.queue && s'.block == s.block
      && s'.entriesToSync == s.entriesToSync && s'.writeBatch == s.writeBatch
      && if s.entriesToSync == [] then s'.pc == Collecting && s'.count == 0 && SameDb(s, s')
         else s'.pc == Acking(0) && s'.db == (if ok then Apply(s.db, s.writeBatch) else s.db)
              && s'.disk == (if ok && s.fsync then s'.db else s.disk)
  {
  }

  lemma AckEffect(s: State, miss: bool, ok: bool)
    requires s.pc.Acking? && s.pc.next <= |s.entriesToSync|
    ensures var s' := ThreadStep(s, miss, ok);
      Sees(s, s') && SameDb(s, s') && s'.queue == s.queue && s'.block == s.block && s'.broken == s.broken
      && if s.pc.next < |s.entriesToSync| then
           s'.pc == Acking(s.pc.next + 1) && s'.acked == s.acked + [s.entriesToSync[s.pc.next]]
           && s'.entriesToSync == s.entriesToSync && s'.writeBatch == s.writeBatch
         else
           s'.pc == Collecting && s'.count == 0 && s'.acked == s.acked && s'.entriesToSync == [] && s'.writeBatch == []
  {
  }

  function IdSet(ids: seq<nat>): set<nat> { set id | id in ids }

  lemma {:induction false} IdSetSize(ids: seq<nat>)
    requires forall i, j :: 0 <= i < j < |ids| ==> ids[i] != ids[j]
    ensures |IdSet(ids)| == |ids|
  {
    if ids != [] {
      var k := |ids| - 1;
      IdSetSize(ids[..k]);
      assert IdSet(ids) == IdSet(ids[..k]) + {ids[k]};
    }
  }

  /** The first n collected promises are broken, and nothing else. */
  predicate Unwound(s: State, n: nat)
  {
    s.pc == Exited && !s.closed && n <= |s.entriesToSync| && s.broken == IdSet(s.entriesToSync[..n])
  }

  /** The thread has exited, and its vector is gone. */
  predicate Gone(s: State) {
    s.pc == Exited && forall i :: 0 <= i < |s.entriesToSync| ==> s.entriesToSync[i] in s.broken
  }

  lemma CollectedAre(s: State)
    requires Inv(s)
    ensures forall i :: 0 <= i < |s.entriesToSync| ==> s.entriesToSync[i] == BatchStart(s) + i
    ensures s.pc == Exited ==> forall i :: 0 <= i < |s.entriesToSync| ==>
      Lost(s, s.entriesToSync[i]) && s.entriesToSync[i] < s.taken
  {
  }

  lemma UnwindEffect(s: State, n: nat, miss: bool, ok: bool)
    requires Inv(s) && Unwound(s, n) && n < |s.entriesToSync|
    ensures var s' := ThreadStep(s, miss, ok);
      Sees(s, s') && SameDb(s, s') && SameThread(s, s') && s'.acked == s.acked && s'.queue == s.queue
      && s'.broken == s.broken + {s.entriesToSync[n]} && Unwound(s', n + 1)
  {
    hide Inv, BatchStart, Lost;
    CollectedAre(s);
    var ids := s.entriesToSync;
    IdSetSize(ids[..n]);
    assert ids[..n + 1] == ids[..n] + [ids[n]];
    assert ids[n] !in IdSet(ids[..n]);
  }

  lemma EmptyAtStart(s: State)
    requires Inv(s)
    ensures s.pc == Collecting && s.count == 0 ==> s.entriesToSync == []
    ensures s.entriesToSync == [] ==> s.writeBatch == []
  {
  }

  lemma NotYetBroken(s: State)
    requires Inv(s) && s.pc != Exited
    ensures s.broken == {} && !s.closed
  {
  }

  /** The part of the state that is shared between threads. */
  datatype Shared = Shared(queue: seq<Item>, db: Db, disk: Db, fulfilled: seq<nat>, broken: set<nat>, closed: bool)

  function SharedOf(s: State): Shared { Shared(s.queue, s.db, s.disk, s.acked, s.broken, s.closed) }

  /** The queue is being destroyed, up to its i-th item. */
  function Destroyed(s: State, i: nat): State
    requires i <= |s.queue|
  {
    s.(closed := true, broken := s.broken + QueuedIds(s.queue[..i]))
  }

  lemma ProducersFrame(s: State, l: Label)
    requires Enabled(s, l) && !l.Enqueue?
    ensures var s' := Step(s, l);
      s'.capacity == s.capacity && s'.fsync == s.fsync && s'.accepted == s.accepted
  {
    hide Apply;
  }

  lemma CloseEffect(s: State)
    requires Inv(s) && Gone(s) && !s.closed
    ensures Inv(Destroyed(s, 0)) && Leads(s, Destroyed(s, 0))
  {
    hide Inv, Leads;
    NowhereLeads(s);
    StepKeepsInv(s, Close);
    LeadsStep(s, s, Close);
    assert Destroyed(s, 0) == Step(s, Close);
  }

  lemma QueuedIdsNext(queue: seq<Item>, i: nat)
    requires i < |queue|
    ensures QueuedIds(queue[..i + 1]) == QueuedIds(queue[..i]) + if queue[i].Data? then {queue[i].id} else {}
  {
    assert queue[..i + 1] == queue[..i] + [queue[i]];
  }

  lemma StopEffect(s: State, i: nat)
    requires i < |s.queue| && s.queue[i].Stop?
    ensures Destroyed(s, i + 1) == Destroyed(s, i)
  {
    QueuedIdsNext(s.queue, i);
  }

  lemma BreakEffect(s: State, i: nat)
    requires i < |s.queue| && s.queue[i].Data? && Gone(s) && !s.closed
    requires Inv(s) && Inv(Destroyed(s, i)) && Leads(s, Destroyed(s, i))
    ensures Destroyed(s, i + 1) == Destroyed(s, i).(broken := Destroyed(s, i).broken + {s.queue[i].id})
    ensures Inv(Destroyed(s, i + 1)) && Leads(s, Destroyed(s, i + 1))
  {
    hide Leads, Stored;
    var d, id := Destroyed(s, i), s.queue[i].id;
    QueuedIdsNext(s.queue, i);
    QueueIds(s.queue, s.accepted, s.taken);
    QueueIsOrdered(s.queue, s.accepted, s.taken, i);
    hide Inv;
    assert Enabled(d, Break(id));
    StepKeepsInv(d, Break(id));
    LeadsStep(s, d, Break(id));
    assert Destroyed(s, i + 1) == Step(d, Break(id));
  }

  lemma AllLostAreBroken(s: State)
    requires Inv(s) && Gone(s) && !s.closed
    ensures forall id :: id in Destroyed(s, |s.queue|).broken <==> Lost(s, id)
  {
    hide Stored;
    var d := Destroyed(s, |s.queue|);
    assert s.queue[..|s.queue|] == s.queue;
    QueueIds(s.queue, s.accepted, s.taken);
    forall id: nat | Lost(s, id)
      ensures id in d.broken
    {
      if id < s.taken {
        assert s.entriesToSync[id - BatchStart(s)] == id;
      } else {
        var i := QueueFinds(s.queue, s.accepted, s.taken, id);
      }
    }
  }

  class Storage {
    const capacity: nat
    const fsyncWal: bool
    var journalQueue: seq<Item>
    var promises: nat        // created so far; each is named by its number
    var db: Db
    var disk: Db             // what of it a crash would leave
    var fulfilled: seq<nat>
    var broken: set<nat>
    var closed: bool
    ghost var s: State       // the state of the transition system this object is in

    ghost predicate Valid()
      reads this
    {
      Inv(s) && s.capacity == capacity && s.fsync == fsyncWal && s.queue == journalQueue && s.closed == closed
      && |s.accepted| == promises && s.db == db && s.disk == disk && s.acked == fulfilled && s.broken == broken
    }

    constructor (fsync: bool)
      ensures Valid() && s == Init(10000, fsync)
    {
      capacity, fsyncWal := 10000, fsync;
      journalQueue, promises, db, disk, fulfilled, broken, closed := [], 0, map[], map[], [], {}, false;
      s := Init(10000, fsync);
      new;
      InitInv(10000, fsync);
    }

    /** Returns once the bounded queue has room, which is the precondition. */
    method Put(ledgerId: int64, entryId: int64, data: seq<byte>) returns (promise: nat)
      requires Valid() && |journalQueue| < capacity && !closed
      modifies this
      ensures Valid() && s == Step(old(s), Enqueue(JournalModel.Put(StorageKey.Key(ledgerId, entryId), data)))
      ensures promise == |old(s).accepted| && s.accepted[promise].key == StorageKey.Key(ledgerId, entryId)
    {
      hide Inv;
      var put := JournalModel.Put(StorageKey.Key(ledgerId, entryId), data);
      promise := promises;
      journalQueue, promises := journalQueue + [Data(promise, put)], promises + 1;
      StepKeepsInv(s, Enqueue(put));
      s := Step(s, Enqueue(put));
    }

    method Accept(arrival: Option<JournalModel.Put>)
      requires Valid() && |journalQueue| < capacity && !closed
      modifies this`journalQueue, this`promises, this`s
      ensures Valid() && s == Step(old(s), ArrivalLabel(arrival))
    {
      hide Inv;
      StepKeepsInv(s, ArrivalLabel(arrival));
      s := Step(s, ArrivalLabel(arrival));
      match arrival
      case None =>
        journalQueue := journalQueue + [Stop];
      case Some(put) =>
        journalQueue, promises := journalQueue + [Data(promises, put)], promises + 1;
    }

    /** What goes on around the thread: producers, and the flushing of the log. */
    method Interfere(tick: Tick)
      requires Valid()
      modifies this`journalQueue, this`promises, this`disk, this`s
      ensures Valid() && s == Around(old(s), tick)
    {
      hide Step, Inv;
      for i := 0 to |tick.arrivals|
        invariant Valid() && s == Arrive(old(s), tick.arrivals[..i])
      {
        assert tick.arrivals[..i + 1][..i] == tick.arrivals[..i];
        if |journalQueue| < capacity && !closed {
          Accept(tick.arrivals[i]);
        }
      }
      assert tick.arrivals[..|tick.arrivals|] == tick.arrivals;
      if tick.flush {
        FlushLog();
      }
    }

    method FlushLog()
      requires Valid()
      modifies this`disk, this`s
      ensures Valid() && s == Step(old(s), Flush)
    {
      hide Inv;
      StepKeepsInv(s, Flush);
      disk := db;
      s := Step(s, Flush);
    }

    /** DB::Write: all of the batch or, if it fails, nothing; synced to disk on demand. */
    method Write(sync: bool, writeBatch: seq<JournalModel.Put>, ok: bool)
      modifies this`db, this`disk
      ensures db == if ok then Apply(old(db), writeBatch) else old(db)
      ensures disk == if ok && sync then db else old(disk)
    {
      if ok {
        db := Apply(db, writeBatch);
        if sync {
          disk := db;
        }
      }
    }

    /** The journal thread, from its start, for as many steps as env describes or until it has
        exited and its vector is gone; t is how many it made. */
    method RunJournal(env: seq<Tick>) returns (t: nat)
      requires Valid() && s.pc == Collecting && !s.block && s.count == 0
      modifies this
      ensures t <= |env| && (t == |env| || Gone(s))
      ensures Valid() && s == RunTicks(old(s), env[..t])
    {
      hide Around, Apply, RunTicks, ThreadStep, Inv, Gone;
      var syncOptions := fsyncWal;
      var entriesToSync: seq<nat> := [];
      var writeBatch: seq<JournalModel.Put> := [];
      var blockForNextEntry := false;
      t := 0;
      assert s.entriesToSync == [] && s.writeBatch == [] by { EmptyAtStart(s); }
      assert s == RunTicks(old(s), env[..0]) by { NoTicks(s, env[..0]); }
      while t < |env|
        invariant t <= |env| && Valid() && s == RunTicks(old(s), env[..t])
        invariant t < |env| ==> s.pc == Collecting && s.block == blockForNextEntry && s.count == 0
        invariant t < |env| ==> s.entriesToSync == entriesToSync == [] && s.writeBatch == writeBatch == []
        decreases |env| - t
      {
        // Take entries until there are none or enough.
        var toSyncCount := 0;
        ghost var top := t;
        while t < |env|
          invariant top <= t <= |env| && Valid() && s == RunTicks(old(s), env[..t])
          invariant s.pc == Collecting && s.block == blockForNextEntry && s.count == toSyncCount
          invariant s.entriesToSync == entriesToSync && s.writeBatch == writeBatch && |writeBatch| == |entriesToSync|
        {
          var read := Read(old(s), env, t, blockForNextEntry);
          t := t + 1;
          if read == None {
            if blockForNextEntry {
              continue; // still blocked
            }
            blockForNextEntry := true;
            if toSyncCount == 0 {
              continue;
            } else {
              break;
            }
          }
          blockForNextEntry := false;
          var entry := read.value;
          if entry.Stop? {
            t := Unwind(old(s), env, t, entriesToSync);
            return;
          }
          entriesToSync := entriesToSync + [entry.id];
          writeBatch := writeBatch + [entry.put];
          toSyncCount := toSyncCount + 1;
          if toSyncCount - 1 == LAST_COUNT {
            break;
          }
        }
        if t == |env| {
          return;
        }
        t := SyncBatch(old(s), env, t, syncOptions, entriesToSync, writeBatch);
        entriesToSync, writeBatch := [], [];
      }
    }

    /** One attempt to read the queue; a blocking one finds nothing only while it is blocked. */
    method Read(ghost start: State, env: seq<Tick>, t: nat, blocking: bool) returns (read: Option<Item>)
      requires Valid() && t < |env| && s == RunTicks(start, env[..t]) && Inv(start)
      requires s.pc == Collecting && s.block == blocking
      modifies this
      ensures Valid() && s == RunTicks(start, env[..t + 1]) && broken == {} && !closed
      ensures match read
        case None =>
          s.pc == (if blocking || s.count == 0 then Collecting else Writing) && s.block
          && SameBatch(old(s), s)
        case Some(Stop) => s.pc == Exited && s.entriesToSync == old(s).entriesToSync
        case Some(Data(id, put)) =>
          s.pc == (if old(s).count == LAST_COUNT then Writing else Collecting) && !s.block
            && s.count == old(s).count + 1
          && s.entriesToSync == old(s).entriesToSync + [id] && s.writeBatch == old(s).writeBatch + [put]
    {
      hide Around, RunTicks, ThreadStep, Inv;
      ghost var mid := Tock(start, env, t);
      NotYetBroken(mid);
      if journalQueue == [] || (!blocking && env[t].miss) {
        if blocking {
          BlockedEffect(mid, env[t].miss, env[t].ok);
        } else {
          MissEffect(mid, env[t].miss, env[t].ok);
        }
        return None;
      }
      ReadEffect(mid, env[t].miss, env[t].ok);
      read := Some(journalQueue[0]);
      journalQueue := journalQueue[1..];
    }

    /** The batch is closed: write it, whatever Write says, and fulfil its promises in order. */
    method SyncBatch(ghost start: State, env: seq<Tick>, t0: nat, sync: bool, entriesToSync: seq<nat>,
                     writeBatch: seq<JournalModel.Put>)
      returns (t: nat)
      requires Valid() && t0 < |env| && s == RunTicks(start, env[..t0]) && Inv(start) && sync == fsyncWal
      requires s.pc == Writing && s.entriesToSync == entriesToSync && s.writeBatch == writeBatch
      modifies this
      ensures t0 < t <= |env| && Valid() && s == RunTicks(start, env[..t])
      ensures t < |env| ==>
        s.pc == Collecting && s.count == 0 && s.block == old(s.block) && s.entriesToSync == [] && s.writeBatch == []
    {
      hide Around, Apply, RunTicks, ThreadStep, Inv;
      t := t0 + 1;
      ghost var mid := Tock(start, env, t0);
      CommitEffect(mid, env[t0].miss, env[t0].ok);
      if entriesToSync == [] {
        EmptyAtStart(s);
        return;
      }
      Write(sync, writeBatch, env[t0].ok);
      t := FulfilAll(start, env, t, entriesToSync);
      if t < |env| {
        t := ClearBatch(start, env, t);
      }
    }

    method ClearBatch(ghost start: State, env: seq<Tick>, t0: nat) returns (t: nat)
      requires Valid() && t0 < |env| && s == RunTicks(start, env[..t0]) && Inv(start)
      requires s.pc == Acking(|s.entriesToSync|)
      modifies this
      ensures t == t0 + 1 && Valid() && s == RunTicks(start, env[..t])
      ensures s.pc == Collecting && s.count == 0 && s.block == old(s.block) && s.entriesToSync == []
        && s.writeBatch == []
    {
      hide Around, RunTicks, ThreadStep, Inv;
      ghost var mid := Tock(start, env, t0);
      AckEffect(mid, env[t0].miss, env[t0].ok);
      t := t0 + 1;
    }

    method FulfilAll(ghost start: State, env: seq<Tick>, t0: nat, entriesToSync: seq<nat>) returns (t: nat)
      requires Valid() && t0 <= |env| && s == RunTicks(start, env[..t0]) && Inv(start)
      requires s.pc == Acking(0) && s.entriesToSync == entriesToSync
      modifies this
      ensures t0 <= t <= |env| && Valid() && s == RunTicks(start, env[..t])
      ensures t < |env| ==>
        s.pc == Acking(|entriesToSync|) && s.block == old(s.block) && s.entriesToSync == entriesToSync
    {
      hide Around, RunTicks, ThreadStep, Inv;
      t := t0;
      for next := 0 to |entriesToSync|
        invariant t0 <= t <= |env| && Valid() && s == RunTicks(start, env[..t])
        invariant s.pc == Acking(next) && s.block == old(s.block) && s.entriesToSync == entriesToSync
      {
        if t == |env| {
          return;
        }
        ghost var mid := Tock(start, env, t);
        AckEffect(mid, env[t].miss, env[t].ok);
        fulfilled := fulfilled + [entriesToSync[next]];
        t := t + 1;
      }
    }

    /** The thread returns: its vector goes, and every promise in it. */
    method Unwind(ghost start: State, env: seq<Tick>, t0: nat, entriesToSync: seq<nat>) returns (t: nat)
      requires Valid() && t0 <= |env| && s == RunTicks(start, env[..t0]) && Inv(start)
      requires s.pc == Exited && s.entriesToSync == entriesToSync && broken == {} && !closed
      modifies this
      ensures t0 <= t <= |env| && Valid() && s == RunTicks(start, env[..t]) && s.pc == Exited
      ensures t == |env| || Gone(s)
    {
      hide Around, RunTicks, ThreadStep, Inv;
      t := t0;
      for i := 0 to |entriesToSync|
        invariant t0 <= t <= |env| && Valid() && s == RunTicks(start, env[..t])
        invariant s.entriesToSync == entriesToSync && Unwound(s, i)
      {
        if t == |env| {
          return;
        }
        ghost var mid := Tock(start, env, t);
        UnwindEffect(mid, i, env[t].miss, env[t].ok);
        broken := broken + {entriesToSync[i]};
        t := t + 1;
      }
    }

    /** The destructor once the thread is joined: the queue goes, and every promise in it. Every
        future the storage has handed out is settled then. */
    method DestroyQueue()
      requires Valid() && Gone(s) && !closed
      modifies this
      ensures Valid() && Leads(old(s), s) && s.accepted == old(s).accepted && s.acked == old(s).acked
      ensures closed && forall id :: id in broken <==> Lost(s, id)
    {
      hide Inv, Leads, Enabled, Gone;
      NowhereLeads(s);
      CloseEffect(s);
      closed, s := true, Destroyed(s, 0);
      for i := 0 to |journalQueue|
        invariant Valid() && closed && Leads(old(s), s) && s == Destroyed(old(s), i)
        invariant journalQueue == old(journalQueue)
      {
        match journalQueue[i] {
          case Stop =>
            StopEffect(old(s), i);
          case Data(id, _) =>
            BreakEffect(old(s), i);
            broken := broken + {id};
        }
        s := Destroyed(old(s), i + 1);
      }
      AllLostAreBroken(old(s));
    }

    /** What the journal thread has done meanwhile, seen from another thread. */
    method Meanwhile(ghost l: Label, now: Shared)
      requires Valid() && Enabled(s, l) && !l.Enqueue? && now == SharedOf(Step(s, l))
      modifies this
      ensures Valid() && s == Step(old(s), l) && SharedOf(s) == now
    {
      hide Inv, Step, Enabled;
      StepKeepsInv(s, l);
      ProducersFrame(s, l);
      s := Step(s, l);
      journalQueue, db, disk, fulfilled, broken, closed := now.queue, now.db, now.disk, now.fulfilled, now.broken,
        now.closed;
    }

    /** What goes on around the thread, leaving the model in state mid, and then the thread's
        step in the model; the caller makes it in the code. */
    method Tock(ghost start: State, env: seq<Tick>, t: nat) returns (ghost mid: State)
      requires Valid() && t < |env| && s == RunTicks(start, env[..t]) && Inv(start)
      modifies this`journalQueue, this`promises, this`disk, this`s
      ensures SameThread(old(s), mid) && SamePromises(old(s), mid) && old(s).closed == mid.closed && old(s).db == mid.db
      ensures mid.queue == journalQueue && |mid.accepted| == promises && mid.disk == disk
      ensures mid.capacity == capacity && mid.fsync == fsyncWal && Inv(mid)
      ensures s == ThreadStep(mid, env[t].miss, env[t].ok) && Inv(s)
      ensures s == RunTicks(start, env[..t + 1])
    {
      hide Around, ThreadStep, Inv, RunTicks, TickStep;
      AroundFrame(s, env[t]);
      Interfere(env[t]);
      OneMore(start, env, t);
      mid := s;
      TickIs(RunTicks(start, env[..t]), env[t]);
      s := ThreadStep(s, env[t].miss, env[t].ok);
      TicksKeepInv(start, env[..t + 1]);
    }
  }
}
