/** ZooKeeper sessions and their listeners, as a labelled transition system. Each locked
    region of the client is one step; callbacks run outside the lock, one step each. */
module ZooKeeperModel {
  import opened Bytes

  /** A listener is named by its place in sessionListeners_, a client handle by the order of
      the zookeeper_init calls. */
  datatype State = State(
    fulfilled: bool,          // sessionPromise_.isFulfilled()
    retrieved: bool,          // getFuture() has been called on it
    zk: Option<nat>,          // zk_
    listeners: nat,           // how many are registered
    tasks: seq<seq<nat>>,     // per callback activation, the listeners it has yet to call
    delivered: seq<nat>,      // calls made, per listener
    base: seq<int>,           // history: sessions a listener is too late for
    sessions: nat,            // history: sessions established
    starts: nat,              // history: startSession calls made
    pendingStarts: nat,       // startSession calls about to be made
    calls: nat,               // history: calls decided on elsewhere than in an expired event
    expirations: nat,         // history
    alive: set<nat>,          // handles that have not expired
    threw: bool,              // getFuture() was called twice on one promise
    creates: nat,             // z-node creations issued by BookieRegistration
    pendingCreates: nat)      // and about to be issued

  /** BookieRegistration's listener: the first to register, from Bookie's constructor. */
  const BOOKIE := 0

  /** Nothing has happened yet. */
  const FRESH := State(false, false, None, 0, [], [], [], 0, 0, 0, 0, 0, {}, false, 0, 0)

  /** Bookie::start is about to call startSession. */
  const INIT := Step(FRESH, CallStart)

  datatype Label =
    | Register            // push_back, and the check of the promise, under the lock
    | Connected(h: nat)   // a connected event, up to the unlock
    | Expired(h: nat)     // an expired event, up to the unlock
    | OtherEvent(h: nat)
    | CallStart           // someone is about to call startSession
    | Start               // startSession
    | Deliver(task: nat)  // one call of a listener, outside the lock
    | Create              // zoo_acreate, on behalf of the bookie's listener

  predicate Enabled(s: State, l: Label) {
    match l
    case Start => s.pendingStarts > 0
    case Deliver(t) => t < |s.tasks| && s.tasks[t] != [] && s.tasks[t][0] < |s.delivered|
    case Create => s.pendingCreates > 0
    case _ => true
  }

  function Step(s: State, l: Label): State
    requires Enabled(s, l)
  {
    match l
    case Register =>
      s.(listeners := s.listeners + 1,
         delivered := s.delivered + [0],
         base := s.base + [if s.fulfilled then s.sessions - 1 else s.sessions],
         tasks := if s.fulfilled then s.tasks + [[s.listeners]] else s.tasks)
    case Connected(h) =>
      if s.fulfilled then s.(zk := Some(h))
      else s.(zk := Some(h), fulfilled := true, sessions := s.sessions + 1,
              tasks := s.tasks + [Range(0, s.listeners)])
    case Expired(h) =>
      s.(fulfilled := false, retrieved := false, pendingStarts := s.pendingStarts + 1,
         expirations := s.expirations + 1, alive := s.alive - {h})
    case OtherEvent(_) => s
    case CallStart => s.(pendingStarts := s.pendingStarts + 1, calls := s.calls + 1)
    case Start =>
      s.(zk := Some(s.starts), alive := s.alive + {s.starts}, starts := s.starts + 1,
         pendingStarts := s.pendingStarts - 1, threw := s.threw || s.retrieved, retrieved := true)
    case Deliver(t) =>
      var l := s.tasks[t][0];
      s.(tasks := s.tasks[t := s.tasks[t][1..]], delivered := s.delivered[l := s.delivered[l] + 1],
         pendingCreates := if l == BOOKIE then s.pendingCreates + 1 else s.pendingCreates)
    case Create => s.(creates := s.creates + 1, pendingCreates := s.pendingCreates - 1)
  }

  predicate IsRun(s: State, labels: seq<Label>)
    decreases labels
  {
    labels == [] || (Enabled(s, labels[0]) && IsRun(Step(s, labels[0]), labels[1..]))
  }

  function Exec(s: State, labels: seq<Label>): State
    requires IsRun(s, labels)
    decreases labels
  {
    if labels == [] then s else Exec(Step(s, labels[0]), labels[1..])
  }

  // ---------------------------------------------------------------- exactly once

  function Count(task: seq<nat>, l: nat): nat {
    if task == [] then 0 else (if task[0] == l then 1 else 0) + Count(task[1..], l)
  }

  /** Calls of listener l that some activation has decided on but not yet made. */
  function InFlight(tasks: seq<seq<nat>>, l: nat): nat {
    if tasks == [] then 0 else Count(tasks[0], l) + InFlight(tasks[1..], l)
  }

  lemma {:induction false} InFlightAppend(tasks: seq<seq<nat>>, task: seq<nat>, l: nat)
    ensures InFlight(tasks + [task], l) == InFlight(tasks, l) + Count(task, l)
  {
    if tasks == [] {
      assert tasks + [task] == [task] && [task][1..] == [];
    } else {
      InFlightAppend(tasks[1..], task, l);
      assert (tasks + [task])[1..] == tasks[1..] + [task];
    }
  }

  lemma {:induction false} InFlightPop(tasks: seq<seq<nat>>, t: nat, l: nat)
    requires t < |tasks| && tasks[t] != []
    ensures InFlight(tasks[t := tasks[t][1..]], l) + (if tasks[t][0] == l then 1 else 0) == InFlight(tasks, l)
  {
    if t == 0 {
      assert tasks[0 := tasks[0][1..]][1..] == tasks[1..];
    } else {
      InFlightPop(tasks[1..], t - 1, l);
      assert tasks[t := tasks[t][1..]][1..] == tasks[1..][t - 1 := tasks[t][1..]];
    }
  }

  lemma {:induction false} CountRange(lo: nat, hi: nat, l: nat)
    requires lo <= hi
    ensures Count(Range(lo, hi), l) == if lo <= l < hi then 1 else 0
    decreases hi - lo
  {
    if lo < hi {
      CountRange(lo + 1, hi, l);
      assert Range(lo, hi)[1..] == Range(lo + 1, hi);
    }
  }

  predicate Known(s: State) {
    && |s.delivered| == |s.base| == s.listeners
    && (s.fulfilled ==> s.sessions > 0)
    && (forall t, k :: 0 <= t < |s.tasks| && 0 <= k < |s.tasks[t]| ==> s.tasks[t][k] < s.listeners)
    && s.starts + s.pendingStarts == s.calls + s.expirations
    && s.creates + s.pendingCreates == (if s.listeners > BOOKIE then s.delivered[BOOKIE] else 0)
  }

  /** Sessions established, less those over before l registered. */
  predicate NotifiedOnce(s: State, l: nat)
    requires l < |s.delivered| && l < |s.base|
  {
    s.delivered[l] + InFlight(s.tasks, l) + s.base[l] == s.sessions
  }

  predicate Inv(s: State) {
    Known(s) && forall l :: 0 <= l < s.listeners ==> NotifiedOnce(s, l)
  }

  lemma {:induction false} CountUnknown(task: seq<nat>, l: nat)
    requires forall k :: 0 <= k < |task| ==> task[k] < l
    ensures Count(task, l) == 0
  {
    if task != [] {
      CountUnknown(task[1..], l);
    }
  }

  lemma {:induction false} InFlightUnknown(tasks: seq<seq<nat>>, l: nat)
    requires forall t, k :: 0 <= t < |tasks| && 0 <= k < |tasks[t]| ==> tasks[t][k] < l
    ensures InFlight(tasks, l) == 0
  {
    if tasks != [] {
      CountUnknown(tasks[0], l);
      InFlightUnknown(tasks[1..], l);
    }
  }

  lemma StepKnown(s: State, l: Label)
    requires Known(s) && Enabled(s, l)
    ensures Known(Step(s, l))
  {
  }

  lemma StepNotifies(s: State, a: Label, l: nat)
    requires Inv(s) && Enabled(s, a) && l < Step(s, a).listeners
    ensures Known(Step(s, a)) && NotifiedOnce(Step(s, a), l)
  {
    StepKnown(s, a);
    assert l < s.listeners ==> NotifiedOnce(s, l);
    match a
    case Register =>
      InFlightUnknown(s.tasks, s.listeners);
      InFlightAppend(s.tasks, [s.listeners], l);
      CountOne(s.listeners, l);
    case Connected(_) =>
      InFlightAppend(s.tasks, Range(0, s.listeners), l);
      CountRange(0, s.listeners, l);
    case Deliver(t) => InFlightPop(s.tasks, t, l);
    case _ =>
  }

  lemma CountOne(x: nat, l: nat)
    ensures Count([x], l) == if x == l then 1 else 0
  {
    assert [x][1..] == [];
  }

  lemma StepKeepsInv(s: State, a: Label)
    requires Inv(s) && Enabled(s, a)
    ensures Inv(Step(s, a))
  {
    StepKnown(s, a);
    forall l | 0 <= l < Step(s, a).listeners
      ensures NotifiedOnce(Step(s, a), l)
    {
      StepNotifies(s, a, l);
    }
  }

  lemma {:induction false} RunKeepsInv(s: State, labels: seq<Label>)
    requires Inv(s) && IsRun(s, labels)
    ensures Inv(Exec(s, labels))
    decreases labels
  {
    hide Inv, Step, Enabled;
    if labels != [] {
      StepKeepsInv(s, labels[0]);
      RunKeepsInv(Step(s, labels[0]), labels[1..]);
    }
  }

  /** Sessions established over a run: connected events that found the promise unfulfilled. */
  function Established(s: State, labels: seq<Label>): nat
    requires IsRun(s, labels)
    decreases labels
  {
    if labels == [] then 0
    else (if labels[0].Connected? && !s.fulfilled then 1 else 0) + Established(Step(s, labels[0]), labels[1..])
  }

  lemma {:induction false} SessionsCount(s: State, labels: seq<Label>)
    requires IsRun(s, labels)
    ensures Exec(s, labels).sessions == s.sessions + Established(s, labels)
    decreases labels
  {
    if labels != [] {
      SessionsCount(Step(s, labels[0]), labels[1..]);
    }
  }

  lemma {:induction false} BaseIsFixed(s: State, labels: seq<Label>)
    requires IsRun(s, labels)
    ensures s.base <= Exec(s, labels).base
    decreases labels
  {
    if labels != [] {
      BaseIsFixed(Step(s, labels[0]), labels[1..]);
      assert s.base <= Step(s, labels[0]).base;
    }
  }

  /** Whatever happened before a listener registers and whatever is interleaved afterwards,
      the calls made to it plus those decided on are exactly the sessions established since,
      counting the one live at its registration. */
  lemma ExactlyOnceNotification(before: seq<Label>, after: seq<Label>)
    requires IsRun(INIT, before)
    requires IsRun(Step(Exec(INIT, before), Register), after)
    ensures var atRegistration := Exec(INIT, before);
      var registered := Step(atRegistration, Register);
      var end := Exec(registered, after);
      var l := atRegistration.listeners;
      l < |end.delivered|
      && end.delivered[l] + InFlight(end.tasks, l)
         == (if atRegistration.fulfilled then 1 else 0) + Established(registered, after)
  {
    hide Step, InFlight, Established;
    var s := Exec(INIT, before);
    InitInv();
    RunKeepsInv(INIT, before);
    Registration(s);
    var registered := Step(s, Register);
    RunKeepsInv(registered, after);
    SessionsCount(registered, after);
    BaseIsFixed(registered, after);
    var end := Exec(registered, after);
    assert end.base[s.listeners] == registered.base[s.listeners];
    assert NotifiedOnce(end, s.listeners);
  }

  lemma InitInv()
    ensures Inv(INIT)
  {
  }

  lemma Registration(s: State)
    requires Inv(s)
    ensures var r := Step(s, Register);
      Inv(r) && |r.base| == s.listeners + 1 && r.sessions == s.sessions
      && r.base[s.listeners] == s.sessions - (if s.fulfilled then 1 else 0)
  {
    StepKeepsInv(s, Register);
  }

  // ---------------------------------------------------------------- registration of the bookie

  /** In every run in which the bookie's listener registers first, as Bookie's constructor
      has it, its z-node creations issued, about to be issued or waiting on a callback are as
      many as the sessions established; and startSession calls made or about to be made are
      one for Bookie::start, one for each expiration, and one for each direct call besides. */
  lemma RegistrationFollowsSessions(labels: seq<Label>)
    requires IsRun(Step(INIT, Register), labels)
    ensures var s := Exec(Step(INIT, Register), labels);
      s.creates + s.pendingCreates + InFlight(s.tasks, BOOKIE) == Established(Step(INIT, Register), labels)
      && s.starts + s.pendingStarts == 1 + DirectCalls(labels) + Expirations(labels)
  {
    var r := Step(INIT, Register);
    Registration(INIT);
    InitInv();
    RunKeepsInv(r, labels);
    BaseIsFixed(r, labels);
    var s := Exec(r, labels);
    assert s.base[BOOKIE] == r.base[BOOKIE] == 0;
    assert NotifiedOnce(s, BOOKIE);
    CallsCount(r, labels);
    SessionsCount(r, labels);
  }

  function DirectCalls(labels: seq<Label>): nat {
    if labels == [] then 0 else (if labels[0] == CallStart then 1 else 0) + DirectCalls(labels[1..])
  }

  function Expirations(labels: seq<Label>): nat {
    if labels == [] then 0 else (if labels[0].Expired? then 1 else 0) + Expirations(labels[1..])
  }

  lemma {:induction false} CallsCount(s: State, labels: seq<Label>)
    requires IsRun(s, labels)
    ensures Exec(s, labels).calls == s.calls + DirectCalls(labels)
    ensures Exec(s, labels).expirations == s.expirations + Expirations(labels)
    decreases labels
  {
    if labels != [] {
      CallsCount(Step(s, labels[0]), labels[1..]);
    }
  }

  // ---------------------------------------------------------------- the client library's contract

  /** Events come only from a handle that has been created and has not expired; and nobody but
      Bookie::start calls startSession of their own accord. */
  predicate FromLiveHandle(s: State, l: Label) {
    match l
    case Connected(h) => h in s.alive
    case Expired(h) => h in s.alive
    case OtherEvent(h) => h in s.alive
    case CallStart => false
    case _ => true
  }

  predicate LibraryRun(s: State, labels: seq<Label>)
    decreases labels
  {
    labels == []
    || (Enabled(s, labels[0]) && FromLiveHandle(s, labels[0]) && LibraryRun(Step(s, labels[0]), labels[1..]))
  }

  /** At most one session attempt at a time: either a start is due and no handle is live, or
      the one live handle is the one in zk_ and its promise's future has been taken. */
  predicate OneSession(s: State) {
    !s.threw
    && if s.pendingStarts == 0 then
         s.starts > 0 && s.alive == {s.starts - 1} && s.zk == Some(s.starts - 1) && s.retrieved
       else
         s.pendingStarts == 1 && s.alive == {} && !s.fulfilled && !s.retrieved
  }

  lemma StepOneSession(s: State, l: Label)
    requires OneSession(s) && Enabled(s, l) && FromLiveHandle(s, l)
    ensures OneSession(Step(s, l))
  {
  }

  lemma {:induction false} LibraryRunKeepsOneSession(s: State, labels: seq<Label>)
    requires OneSession(s) && LibraryRun(s, labels)
    ensures IsRun(s, labels) && OneSession(Exec(s, labels))
    decreases labels
  {
    hide OneSession, Step, Enabled, FromLiveHandle;
    if labels != [] {
      StepOneSession(s, labels[0]);
      LibraryRunKeepsOneSession(Step(s, labels[0]), labels[1..]);
    }
  }

  /** Under the library's contract startSession never takes a future twice, and a z-node
      creation is always addressed to the only live handle, or to none. */
  lemma OneSessionAtATime(labels: seq<Label>)
    requires LibraryRun(INIT, labels)
    ensures IsRun(INIT, labels)
    ensures var s := Exec(INIT, labels);
      !s.threw && |s.alive| <= 1 && forall h :: h in s.alive ==> s.zk == Some(h)
  {
    LibraryRunKeepsOneSession(INIT, labels);
  }

  // ---------------------------------------------------------------- when startSession throws

  /** Some session is asked for while one is already being, or about to be, attempted: an
      expired event finds a start pending, or somebody calls startSession besides. */
  predicate Overlaps(s: State, labels: seq<Label>)
    requires IsRun(s, labels)
    decreases labels
  {
    labels != []
    && (labels[0] == CallStart || (labels[0].Expired? && s.pendingStarts > 0)
      || Overlaps(Step(s, labels[0]), labels[1..]))
  }

  /** Starts due, and the one whose future has been taken: 1 from INIT on, and growing with
      each overlap, until something throws. */
  function Attempts(s: State): nat { s.pendingStarts + if s.retrieved then 1 else 0 }

  predicate AttemptsTell(s: State, overlapped: bool) {
    if s.threw then overlapped else Attempts(s) >= 1 && (Attempts(s) >= 2 <==> overlapped)
  }

  lemma {:induction false} RunTells(s: State, labels: seq<Label>, overlapped: bool)
    requires IsRun(s, labels) && AttemptsTell(s, overlapped)
    ensures AttemptsTell(Exec(s, labels), overlapped || Overlaps(s, labels))
    decreases labels
  {
    if labels != [] {
      var now := labels[0] == CallStart || (labels[0].Expired? && s.pendingStarts > 0);
      StepTells(s, labels[0], overlapped);
      RunTells(Step(s, labels[0]), labels[1..], overlapped || now);
    }
  }

  lemma StepTells(s: State, l: Label, overlapped: bool)
    requires Enabled(s, l) && AttemptsTell(s, overlapped)
    ensures AttemptsTell(Step(s, l), overlapped || l == CallStart || (l.Expired? && s.pendingStarts > 0))
  {
  }

  function Starts(n: nat): (labels: seq<Label>)
    ensures |labels| == n
  {
    if n == 0 then [] else [Start] + Starts(n - 1)
  }

  lemma {:induction false} StartsRun(s: State)
    ensures IsRun(s, Starts(s.pendingStarts))
    ensures Exec(s, Starts(s.pendingStarts)).threw <==> s.threw || (s.pendingStarts > 0 && Attempts(s) >= 2)
    decreases s.pendingStarts
  {
    if s.pendingStarts > 0 {
      StartsRun(Step(s, Start));
      assert Starts(s.pendingStarts)[1..] == Starts(s.pendingStarts - 1);
    }
  }

  /** Exactly when a promise's future is asked for twice: in every run, once the starts that are
      due have been made, some startSession has thrown if and only if two attempts overlapped. */
  lemma ThrowsIffAttemptsOverlap(labels: seq<Label>)
    requires IsRun(INIT, labels)
    ensures var s := Exec(INIT, labels);
      IsRun(s, Starts(s.pendingStarts)) && (Exec(s, Starts(s.pendingStarts)).threw <==> Overlaps(INIT, labels))
  {
    hide Step, Enabled;
    assert AttemptsTell(INIT, false) by { InitTells(); }
    RunTells(INIT, labels, false);
    StartsRun(Exec(INIT, labels));
  }

  lemma InitTells()
    ensures AttemptsTell(INIT, false)
  {
  }

  /** Such runs: a second call while a session is being attempted, and two expirations before the
      restart, which the client library's contract rules out. */
  lemma OverlapsThrow()
    ensures var labels := [Start, CallStart, Start];
      IsRun(INIT, labels) && LibraryRun(INIT, [Start]) && Exec(INIT, labels).threw
    ensures var labels := [Start, Expired(0), Expired(0), Start, Start];
      IsRun(INIT, labels) && Exec(INIT, labels).threw
  {
  }
}
