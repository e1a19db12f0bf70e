/** The ZooKeeper client as code: locked regions over its fields, callbacks outside them. */
module ZooKeeperClient {
  import opened Bytes
  import opened ZooKeeperModel

  const CONNECTED_STATE := 3
  const EXPIRED_SESSION_STATE := -112

  function EventLabel(h: nat, state: int): Label {
    if state == CONNECTED_STATE then Connected(h)
    else if state == EXPIRED_SESSION_STATE then Expired(h)
    else OtherEvent(h)
  }

  // ---------------------------------------------------------------- raw events

  /** A session event with the state the library gives it, or a step of another kind. */
  datatype Happening = Event(h: nat, state: int) | Other(l: Label)

  predicate OfAnotherKind(l: Label) { !l.Connected? && !l.Expired? && !l.OtherEvent? }

  predicate RawEvents(hs: seq<Happening>) {
    forall i :: 0 <= i < |hs| && hs[i].Other? ==> OfAnotherKind(hs[i].l)
  }

  function LabelOf(x: Happening): Label {
    match x case Event(h, state) => EventLabel(h, state) case Other(l) => l
  }

  function LabelsOf(hs: seq<Happening>): (labels: seq<Label>)
    ensures |labels| == |hs|
  {
    if hs == [] then [] else [LabelOf(hs[0])] + LabelsOf(hs[1..])
  }

  /** Events of state 3, each the first one since the start or since one of state -112; `live`
      says that there has been one already. */
  function FirstConnections(hs: seq<Happening>, live: bool): nat {
    if hs == [] then 0
    else if hs[0].Event? && hs[0].state == 3 then (if live then 0 else 1) + FirstConnections(hs[1..], true)
    else if hs[0].Event? && hs[0].state == -112 then FirstConnections(hs[1..], false)
    else FirstConnections(hs[1..], live)
  }

  /** Whether the last event of state 3 or -112, if any, is of state 3. */
  function LiveAfter(hs: seq<Happening>, live: bool): bool {
    if hs == [] then live
    else if hs[0].Event? && hs[0].state == 3 then LiveAfter(hs[1..], true)
    else if hs[0].Event? && hs[0].state == -112 then LiveAfter(hs[1..], false)
    else LiveAfter(hs[1..], live)
  }

  lemma {:induction false} SessionsAreFirstConnections(s: State, hs: seq<Happening>)
    requires RawEvents(hs) && IsRun(s, LabelsOf(hs))
    ensures Established(s, LabelsOf(hs)) == FirstConnections(hs, s.fulfilled)
    ensures Exec(s, LabelsOf(hs)).fulfilled == LiveAfter(hs, s.fulfilled)
    decreases hs
  {
    hide Step, Enabled, EventLabel;
    if hs != [] {
      assert LabelsOf(hs)[1..] == LabelsOf(hs[1..]);
      OneHappening(s, hs[0]);
      SessionsAreFirstConnections(Step(s, LabelOf(hs[0])), hs[1..]);
    }
  }

  lemma OneHappening(s: State, x: Happening)
    requires (x.Other? ==> OfAnotherKind(x.l)) && Enabled(s, LabelOf(x))
    ensures LabelOf(x).Connected? <==> x.Event? && x.state == 3
    ensures var s' := Step(s, LabelOf(x));
      if x.Event? && x.state == 3 then s'.fulfilled
      else if x.Event? && x.state == -112 then !s'.fulfilled
      else s'.fulfilled == s.fulfilled
  {
  }

  /** Exactly-once notification for events as the library delivers them, those of other states
      included: a listener hears of each first connection since it registered, and of the session
      then live, and of nothing else. */
  lemma NotifiedOfFirstConnections(before: seq<Happening>, after: seq<Happening>)
    requires RawEvents(before) && IsRun(INIT, LabelsOf(before))
    requires RawEvents(after) && IsRun(Step(Exec(INIT, LabelsOf(before)), Register), LabelsOf(after))
    ensures var atRegistration := Exec(INIT, LabelsOf(before));
      var end := Exec(Step(atRegistration, Register), LabelsOf(after));
      var l, live := atRegistration.listeners, LiveAfter(before, false);
      && l < |end.delivered|
      && end.delivered[l] + InFlight(end.tasks, l) == (if live then 1 else 0) + FirstConnections(after, live)
  {
    hide InFlight;
    SessionsAreFirstConnections(INIT, before);
    ExactlyOnceNotification(LabelsOf(before), LabelsOf(after));
    SessionsAreFirstConnections(Step(Exec(INIT, LabelsOf(before)), Register), after);
  }

  /** What an activation still has to do once it has let go of the lock: call the listeners of
      its own list, or start a session. */
  datatype Duty = Calling(task: nat) | Starting

  /** A step other threads may make meanwhile. */
  predicate Theirs(s: State, l: Label, mine: Duty) {
    match mine
    case Calling(task) => l != Deliver(task)
    case Starting => l == Start ==> s.pendingStarts > 1
  }

  /** What other threads do while this one holds no lock. */
  function Others(s: State, labels: seq<Label>, mine: Duty): State {
    if labels == [] then s
    else
      var k := |labels| - 1;
      var s' := Others(s, labels[..k], mine);
      if Enabled(s', labels[k]) && Theirs(s', labels[k], mine) then Step(s', labels[k]) else s'
  }

  /** Calling one listener after another, other threads running before each call. */
  function CallAll(s: State, me: nat, env: seq<seq<Label>>): State {
    if env == [] then s
    else
      var k := |env| - 1;
      var s' := Others(CallAll(s, me, env[..k]), env[k], Calling(me));
      if Enabled(s', Deliver(me)) then Step(s', Deliver(me)) else s'
  }

  predicate WellFormed(s: State) {
    |s.delivered| == s.listeners
    && forall t, k :: 0 <= t < |s.tasks| && 0 <= k < |s.tasks[t]| ==> s.tasks[t][k] < s.listeners
  }

  /** The activation's duty is as it left it. */
  predicate DutyStands(s: State, s': State, mine: Duty) {
    match mine
    case Calling(task) => task < |s.tasks| ==> task < |s'.tasks| && s'.tasks[task] == s.tasks[task]
    case Starting => s.pendingStarts > 0 ==> s'.pendingStarts > 0
  }

  lemma StepFrame(s: State, l: Label, mine: Duty)
    requires WellFormed(s) && Enabled(s, l) && Theirs(s, l, mine)
    ensures WellFormed(Step(s, l)) && DutyStands(s, Step(s, l), mine) && s.listeners <= Step(s, l).listeners
  {
  }

  /** Others add listeners, activations and starts, and leave this activation's duty to it. */
  lemma {:induction false} OthersFrame(s: State, labels: seq<Label>, mine: Duty)
    requires WellFormed(s)
    ensures WellFormed(Others(s, labels, mine)) && DutyStands(s, Others(s, labels, mine), mine)
    ensures s.listeners <= Others(s, labels, mine).listeners
  {
    hide Step, Enabled, WellFormed;
    if labels != [] {
      var k := |labels| - 1;
      OthersFrame(s, labels[..k], mine);
      var s' := Others(s, labels[..k], mine);
      if Enabled(s', labels[k]) && Theirs(s', labels[k], mine) {
        StepFrame(s', labels[k], mine);
      }
    }
  }

  /** Once it has its list, an activation makes every call on it, in order, whatever other
      threads do between the unlock and the last call. */
  lemma {:induction false} EveryCallIsMade(s: State, me: nat, env: seq<seq<Label>>)
    requires WellFormed(s) && me < |s.tasks| && |env| <= |s.tasks[me]|
    ensures var s' := CallAll(s, me, env);
      WellFormed(s') && me < |s'.tasks| && s'.tasks[me] == s.tasks[me][|env|..]
    ensures env != [] ==>
      var s' := Others(CallAll(s, me, env[..|env| - 1]), env[|env| - 1], Calling(me));
      Enabled(s', Deliver(me)) && s'.tasks[me][0] == s.tasks[me][|env| - 1]
      && CallAll(s, me, env) == Step(s', Deliver(me))
  {
    if env != [] {
      var k := |env| - 1;
      EveryCallIsMade(s, me, env[..k]);
      var mid := CallAll(s, me, env[..k]);
      OthersFrame(mid, env[k], Calling(me));
      var s' := Others(mid, env[k], Calling(me));
      assert s'.tasks[me] == s.tasks[me][k..];
      assert s'.tasks[me][0] < s'.listeners;
    }
  }

  lemma NoCalls(s: State, me: nat, env: seq<seq<Label>>)
    requires env == []
    ensures CallAll(s, me, env) == s
  {
  }

  /** The fields a locked region can see. */
  datatype Fields = Fields(fulfilled: bool, retrieved: bool, zk: Option<nat>, handles: nat, listeners: seq<nat>)

  function FieldsOf(s: State): Fields {
    Fields(s.fulfilled, s.retrieved, s.zk, s.starts, Range(0, s.listeners))
  }

  /** A call of a listener touches none of them. */
  lemma DeliverFrame(s: State, task: nat)
    requires WellFormed(s) && Enabled(s, Deliver(task))
    ensures WellFormed(Step(s, Deliver(task))) && FieldsOf(Step(s, Deliver(task))) == FieldsOf(s)
  {
  }

  /** What other threads do in one gap between two steps of an activation, and the fields as
      they leave them. */
  datatype Gap = Gap(others: seq<Label>, seen: Fields)

  function Labels(gaps: seq<Gap>): (env: seq<seq<Label>>)
    ensures |env| == |gaps|
  {
    seq(|gaps|, i requires 0 <= i < |gaps| => gaps[i].others)
  }

  ghost predicate SeenBetweenCalls(s: State, me: nat, gaps: seq<Gap>) {
    forall i :: 0 <= i < |gaps| ==>
      gaps[i].seen == FieldsOf(Others(CallAll(s, me, Labels(gaps[..i])), gaps[i].others, Calling(me)))
  }

  lemma NextCall(s: State, me: nat, gaps: seq<Gap>, n: nat)
    requires WellFormed(s) && me < |s.tasks| && n < |gaps| && n < |s.tasks[me]|
    ensures var mid := Others(CallAll(s, me, Labels(gaps[..n])), gaps[n].others, Calling(me));
      && WellFormed(mid) && Enabled(mid, Deliver(me))
      && CallAll(s, me, Labels(gaps[..n + 1])) == Step(mid, Deliver(me))
  {
    hide Others, Step, Enabled;
    EveryCallIsMade(s, me, Labels(gaps[..n]));
    EveryCallIsMade(s, me, Labels(gaps[..n + 1]));
    assert Labels(gaps[..n + 1])[..n] == Labels(gaps[..n]);
    OthersFrame(CallAll(s, me, Labels(gaps[..n])), gaps[n].others, Calling(me));
  }

  /** A start is due from whoever calls startSession, if none is yet. */
  function Asked(s: State): (s': State)
    ensures Enabled(s', Start)
  {
    if s.pendingStarts > 0 then s else Step(s, CallStart)
  }

  class ZooKeeper {
    var fulfilled: bool
    var retrieved: bool
    var zk: Option<nat>
    var handles: nat                    // zookeeper_init calls so far
    var sessionListeners: seq<nat>      // each listener by the number it registered as
    ghost var s: State                  // the state of the transition system

    ghost predicate Valid()
      reads this
    {
      WellFormed(s) && FieldsOf(s) == Fields(fulfilled, retrieved, zk, handles, sessionListeners)
    }

    constructor ()
      ensures Valid() && s == FRESH
    {
      fulfilled, retrieved, zk, handles, sessionListeners := false, false, None, 0, [];
      s := FRESH;
    }

    /** Opens a handle and takes the promise's future, which throws if it is taken already. */
    method StartSession() returns (threw: bool)
      requires Valid()
      modifies this
      ensures Valid() && s == Step(Asked(old(s)), Start) && threw == old(retrieved)
      ensures zk == Some(old(handles)) && handles == old(handles) + 1 && retrieved
        && fulfilled == old(fulfilled) && sessionListeners == old(sessionListeners)
    {
      s := Step(Asked(s), Start);
      zk, handles := Some(handles), handles + 1;
      threw := retrieved;
      retrieved := true;
    }

    /** The locked part of handleSessionEvent: the listeners to call. */
    method LockedEvent(h: nat, state: int) returns (toNotify: seq<nat>)
      requires Valid()
      modifies this
      ensures Valid() && s == Step(old(s), EventLabel(h, state))
      ensures toNotify == if state == 3 && !old(fulfilled) then old(sessionListeners) else []
      ensures toNotify != [] ==> s.tasks == old(s).tasks + [toNotify]
      ensures state == 3 ==> zk == Some(h) && fulfilled && retrieved == old(retrieved)
      ensures state == -112 ==> zk == old(zk) && !fulfilled && !retrieved && s.pendingStarts > 0
      ensures state != 3 && state != -112 ==>
        zk == old(zk) && fulfilled == old(fulfilled) && retrieved == old(retrieved) && s == old(s)
      ensures handles == old(handles) && sessionListeners == old(sessionListeners)
    {
      toNotify := [];
      s := Step(s, EventLabel(h, state));
      if state == CONNECTED_STATE {
        zk := Some(h);
        if !fulfilled {
          fulfilled := true;
          toNotify := sessionListeners;
        }
      } else if state == EXPIRED_SESSION_STATE {
        fulfilled, retrieved := false, false;
      }
    }

    /** No lock is held: other threads run, and leave the fields as the gap says. */
    method Unlocked(gap: Gap, ghost mine: Duty)
      requires Valid() && gap.seen == FieldsOf(Others(s, gap.others, mine))
      modifies this
      ensures Valid() && s == Others(old(s), gap.others, mine)
    {
      hide Others;
      OthersFrame(s, gap.others, mine);
      s := Others(s, gap.others, mine);
      fulfilled, retrieved, zk, handles := gap.seen.fulfilled, gap.seen.retrieved, gap.seen.zk, gap.seen.handles;
      sessionListeners := gap.seen.listeners;
    }

    /** One event, other threads running in every gap between its steps: the listeners called,
        in order; and after an expiry the restart, which throws exactly if another start got in
        between. */
    method HandleSessionEvent(h: nat, state: int, gaps: seq<Gap>) returns (called: seq<nat>, threw: bool)
      requires Valid() && |gaps| > s.listeners
      requires state == EXPIRED_SESSION_STATE ==>
        gaps[0].seen == FieldsOf(Others(Step(s, EventLabel(h, state)), gaps[0].others, Starting))
      requires state != EXPIRED_SESSION_STATE ==> SeenBetweenCalls(Step(s, EventLabel(h, state)), |s.tasks|, gaps)
      modifies this
      ensures Valid()
      ensures called == if state == 3 && !old(fulfilled) then old(sessionListeners) else []
      ensures state != 3 && state != -112 ==> s == old(s) && !threw
      ensures var event := Step(old(s), EventLabel(h, state));
        if state == EXPIRED_SESSION_STATE then
          var restart := Others(event, gaps[0].others, Starting);
          restart.pendingStarts > 0 && s == Step(restart, Start) && threw == restart.retrieved
        else
          s == CallAll(event, |old(s).tasks|, Labels(gaps[..|called|])) && !threw
    {
      hide CallAll, Others, Labels, Step;
      called, threw := [], false;
      var toNotify := LockedEvent(h, state);
      if state == EXPIRED_SESSION_STATE {
        OthersFrame(s, gaps[0].others, Starting);
        Unlocked(gaps[0], Starting);
        threw := StartSession();
        return;
      }
      ghost var event, me := s, |old(s).tasks|;
      NoCalls(s, me, Labels(gaps[..0]));
      while |called| < |toNotify|
        invariant Valid() && called <= toNotify && !threw
        invariant s == CallAll(event, me, Labels(gaps[..|called|]))
        decreases |toNotify| - |called|
      {
        var n := |called|;
        Unlocked(gaps[n], Calling(me));
        NextCall(event, me, gaps, n);
        DeliverFrame(s, me);
        s := Step(s, Deliver(me));
        called := called + [toNotify[n]];
      }
    }

    /** A z-node creation has been handed to the library. */
    ghost method Created()
      requires Valid() && s.pendingCreates > 0
      modifies this`s
      ensures Valid() && s == Step(old(s), Create)
    {
      s := Step(s, Create);
    }

    /** Registers a listener; `now` says that it is called at once, because a session is live,
        though not before other threads have had the lock. */
    method RegisterSessionListener(gap: Gap) returns (id: nat, now: bool)
      requires Valid()
      requires s.fulfilled ==> gap.seen == FieldsOf(Others(Step(s, Register), gap.others, Calling(|s.tasks|)))
      modifies this
      ensures Valid() && id == |old(sessionListeners)| && now == old(fulfilled)
      ensures old(sessionListeners) + [id] <= sessionListeners
      ensures !now ==> sessionListeners == old(sessionListeners) + [id]
      ensures !now ==>
        zk == old(zk) && handles == old(handles) && fulfilled == old(fulfilled) && retrieved == old(retrieved)
      ensures var registered, me := Step(old(s), Register), |old(s).tasks|;
        s == if now then CallAll(registered, me, [gap.others]) else registered
      ensures now ==> Called(Step(old(s), Register), |old(s).tasks|, gap.others, id)
    {
      hide CallAll, Others;
      id, now := |sessionListeners|, fulfilled;
      sessionListeners := sessionListeners + [id];
      s := Step(s, Register);
      if now {
        OneCall(s, |old(s).tasks|, gap.others);
        Unlocked(gap, Calling(|old(s).tasks|));
        DeliverFrame(s, |old(s).tasks|);
        s := Step(s, Deliver(|old(s).tasks|));
      }
    }
  }

  /** The call made is listener l's, whatever others do before it. */
  predicate Called(s: State, me: nat, others: seq<Label>, l: nat) {
    var mid := Others(s, others, Calling(me));
    Enabled(mid, Deliver(me)) && mid.tasks[me] == [l]
  }

  lemma OneCall(s: State, me: nat, others: seq<Label>)
    requires WellFormed(s) && me < |s.tasks| && |s.tasks[me]| == 1
    ensures var mid := Others(s, others, Calling(me));
      WellFormed(mid) && Enabled(mid, Deliver(me)) && mid.tasks[me] == s.tasks[me]
      && CallAll(s, me, [others]) == Step(mid, Deliver(me))
  {
    hide Others;
    EveryCallIsMade(s, me, [others]);
    OthersFrame(s, others, Calling(me));
    assert [others][..0] == [];
  }

  /** What registerBookie asks of ZooKeeper, on whichever handle zk_ holds by then. */
  datatype CreateRequest = CreateRequest(path: string, value: string, ephemeral: bool, handle: Option<nat>)

  class BookieRegistration {
    const client: ZooKeeper
    const registrationPath: string

    /** Registers the listener; if a session is live already it is called at once. */
    constructor (zk: ZooKeeper, host: string, port: string, gap: Gap)
      requires zk.Valid()
      requires zk.s.fulfilled ==> gap.seen == FieldsOf(Others(Step(zk.s, Register), gap.others, Calling(|zk.s.tasks|)))
      modifies zk
      ensures zk.Valid() && client == zk
      ensures registrationPath == "/ledgers/available/" + host + ":" + port
      ensures var registered, me := Step(old(zk.s), Register), |old(zk.s).tasks|;
        zk.s == if old(zk.s).fulfilled then CallAll(registered, me, [gap.others]) else registered
    {
      var id, now := zk.RegisterSessionListener(gap);
      client := zk;
      registrationPath := "/ledgers/available/" + host + ":" + port;
    }

    /** What a call of the listener leads to. */
    method HandleNewZooKeeperSession() returns (request: CreateRequest)
      requires client.Valid() && client.s.pendingCreates > 0
      modifies client
      ensures client.Valid() && client.s == Step(old(client.s), Create)
      ensures request == CreateRequest(registrationPath, "", true, old(client.s).zk)
    {
      request := CreateRequest(registrationPath, "", true, client.zk);
      client.Created();
    }
  }
}
