/** If each event loop runs what is posted in the order of posting, responses come in request
    order. */
module SystemOrder {
  import opened Bytes
  import opened Protocol
  import opened Codec
  import opened Endpoints
  import opened System
  import opened SystemProofs
  import opened SystemTheorems
  import J = JournalModel

  /** The oldest posted continuation is the one that is run. */
  predicate InTurn(l: Label) { l.ServerResponds? ==> l.i == 0 }

  ghost predicate ReachableInTurn(s: State) {
    exists s0: State, labels: seq<Label> ::
      Initial(s0) && IsRun(s0, labels) && Exec(s0, labels) == s && forall i :: 0 <= i < |labels| ==> InTurn(labels[i])
  }

  /** What is posted with a value is posted in the place of its entry. */
  predicate InOrder(all: seq<Posted>) {
    forall i :: 0 <= i < |all| && all[i].ok ==> all[i].k.entryId == i
  }

  predicate Ordered(s: State) {
    forall c :: 0 <= c < |s.conns| ==> InOrder(All(s.conns[c]))
  }

  /** With no error posted, and entry e the next to be posted with a value, what has been
      posted are exactly the entries before it. */
  lemma AllEarlierArePosted(all: seq<Posted>, b: Book, acked: nat, broken: set<nat>, e: nat)
    requires b.Sound() && PostedRight(all, b, acked, broken) && InOrder(all)
    requires e < |b.promises| && e <= b.attached && b.promises[e] <= acked
    requires b.promises[e] == acked || b.attached == e
    requires forall i :: 0 <= i < |all| ==> all[i].ok && all[i].k.entryId != e
    ensures |all| == e
  {
    forall i | 0 <= i < |all|
      ensures all[i].k.entryId == i && i < e
    {
      assert Rightly(all[i], b, acked, broken);
    }
    if all != [] {
      assert all[|all| - 1].k.entryId == |all| - 1 < e;
    }
    if e > 0 {
      assert b.promises[e - 1] < b.promises[e];
      var i :| 0 <= i < |all| && all[i].k.entryId == e - 1 && all[i].ok;
    }
  }

  /** While promises of later entries may be broken, those of earlier ones are not. */
  lemma NoErrorBefore(all: seq<Posted>, b: Book, acked: nat, broken: set<nat>, e: nat)
    requires b.Sound() && PostedRight(all, b, acked, broken) && b.attached == e < |b.promises|
    requires b.promises[e] < acked && forall p: nat :: p in broken ==> p >= acked
    ensures forall i :: 0 <= i < |all| ==> all[i].ok && all[i].k.entryId != e
  {
    forall i | 0 <= i < |all|
      ensures all[i].ok && all[i].k.entryId != e
    {
      assert Rightly(all[i], b, acked, broken);
    }
  }

  lemma AttachKeepsOrder(k: Conn, c: nat, origins: seq<Origin>, j: J.State)
    requires ServerSide(k, c, origins, |j.acked|, j.broken) && InOrder(All(k)) && k.handler.handling.Some?
    requires forall p: nat :: p in j.acked <==> p < |j.acked|
    requires forall p: nat :: p in j.broken ==> p >= |j.acked|
    ensures InOrder(All(AttachOn(k, j)))
  {
    hide PostedRight, WaitingRight;
    var all, all', b := All(k), All(AttachOn(k, j)), BookOf(k);
    var k0 := k.handler.handling.value;
    match FateOf(j, k0.promise)
    case Pending => assert all' == all;
    case Broken => assert all' == all + [Posted(k0, false)];
    case Fulfilled =>
      NoErrorBefore(all, b, |j.acked|, j.broken, b.attached);
      AllEarlierArePosted(all, b, |j.acked|, j.broken, b.attached);
      assert all' == all + [Posted(k0, true)];
  }

  lemma SettleKeepsOrder(k: Conn, c: nat, origins: seq<Origin>, p: nat, ok: bool, acked: nat, broken: set<nat>)
    requires ServerSide(k, c, origins, acked, broken) && InOrder(All(k))
    requires ok ==> p == acked && broken == {}
    ensures InOrder(All(SettleOn(k, p, ok)))
  {
    hide PostedRight;
    var all, all', b, i := All(k), All(SettleOn(k, p, ok)), BookOf(k), Find(k.handler.waiting, p);
    if i == |k.handler.waiting| {
      assert all' == all;
    } else {
      var e := k.handler.waiting[i].entryId;
      assert Pends(e, b, acked, broken) && k.handler.waiting[i] == b.Of(e);
      assert all' == all + [Posted(k.handler.waiting[i], ok)];
      if ok {
        NothingButEarlier(all, b, acked, e);
        AllEarlierArePosted(all, b, acked, broken, e);
      }
    }
  }

  lemma NothingButEarlier(all: seq<Posted>, b: Book, acked: nat, e: nat)
    requires b.Sound() && PostedRight(all, b, acked, {}) && e < b.attached && b.promises[e] == acked
    ensures forall i :: 0 <= i < |all| ==> all[i].ok && all[i].k.entryId != e
  {
    forall i | 0 <= i < |all|
      ensures all[i].ok && all[i].k.entryId != e
    {
      assert Rightly(all[i], b, acked, {});
    }
  }

  lemma StepKeepsOrder(s: State, l: Label)
    requires Inv(s) && Ordered(s) && Enabled(s, l) && InTurn(l)
    ensures Ordered(Step(s, l))
  {
    hide Inv, InOrder, NextRequest, NextResponse, DropFrame, EncodeRequest, EncodeResponse, J.Step, J.Enabled,
      ServerSide;
    match l
    case ServerAttaches(c) =>
      ConnHolds(s, c);
      AckedIsCounted(s.journal) by { InvJournal(s); }
      AttachKeepsOrder(s.conns[c], c, s.origins, s.journal);
    case JournalSteps(jl) => JournalKeepsOrder(s, jl);
    case ServerResponds(c, i, slack) => assert All(RespondOn(s.conns[c], 0, slack)) == All(s.conns[c]);
    case ServerReads(c) => assert All(Step(s, l).conns[c]) == All(s.conns[c]);
    case _ =>
  }

  lemma JournalKeepsOrder(s: State, jl: J.Label)
    requires Inv(s) && Ordered(s) && Enabled(s, JournalSteps(jl))
    ensures Ordered(Step(s, JournalSteps(jl)))
  {
    hide Inv, InOrder, J.Step, J.Enabled, ServerSide;
    JournalSettles(s.journal, jl) by { InvJournal(s); }
    if Settles(s.journal, jl).Some? {
      var (p, ok) := Settles(s.journal, jl).value;
      forall c | 0 <= c < |s.conns|
        ensures InOrder(All(SettleOn(s.conns[c], p, ok)))
      {
        ConnHolds(s, c);
        SettleKeepsOrder(s.conns[c], c, s.origins, p, ok, |s.journal.acked|, s.journal.broken);
      }
    }
  }

  lemma {:induction false} RunKeepsOrder(s: State, labels: seq<Label>)
    requires Inv(s) && Ordered(s) && IsRun(s, labels) && forall i :: 0 <= i < |labels| ==> InTurn(labels[i])
    ensures Inv(Exec(s, labels)) && Ordered(Exec(s, labels))
    decreases labels
  {
    hide Inv, Ordered, Step, Enabled, InTurn;
    if labels != [] {
      StepKeepsInv(s, labels[0]);
      StepKeepsOrder(s, labels[0]);
      RunKeepsOrder(Step(s, labels[0]), labels[1..]);
    }
  }

  lemma ReachableOrder(s: State)
    requires ReachableInTurn(s)
    ensures Inv(s) && Ordered(s)
  {
    hide Inv, Initial, Step, InTurn;
    var s0: State, labels: seq<Label> :| Initial(s0) && IsRun(s0, labels) && Exec(s0, labels) == s
      && forall i :: 0 <= i < |labels| ==> InTurn(labels[i]);
    InitialInv(s0);
    assert Ordered(s0) by { StartsOrdered(s0); }
    RunKeepsOrder(s0, labels);
  }

  lemma StartsOrdered(s: State)
    requires Initial(s)
    ensures Ordered(s)
  {
  }

  /** Run in order, an entry answered OK is answered in its own place, and so are those before. */
  lemma RunInOrder(s: State, c: nat, i: nat)
    requires Inv(s) && Ordered(s) && c < |s.conns| && i < |s.conns[c].run| && s.conns[c].run[i].ok
    ensures s.conns[c].run[i].k.entryId == i
    ensures forall d :: 0 <= d < i ==> s.conns[c].run[d].ok
  {
    hide Inv, ClientSide, PostedRight, WaitingRight;
    ConnHolds(s, c);
    RunIs(s, c, i);
    var k := s.conns[c];
    var all := All(k);
    assert all[i] == k.run[i];
    forall d | 0 <= d < i
      ensures k.run[d].ok
    {
      assert k.promises[d] < k.promises[i];
      FulfilledInPlace(all, BookOf(k), |s.journal.acked|, s.journal.broken, d);
      assert all[d] == k.run[d];
    }
  }

  lemma FulfilledInPlace(all: seq<Posted>, b: Book, acked: nat, broken: set<nat>, d: nat)
    requires b.Sound() && PostedRight(all, b, acked, broken) && InOrder(all) && d < b.attached && b.promises[d] < acked
    ensures d < |all| && all[d].ok
  {
    assert PostedAs(all, d, true);
  }

  /** OK responses are written in request order and before any error; the client has read those of
      its first entries, and what it waits for are the entries after them. So the next response,
      if it is OK, is for the oldest pending entry. */
  lemma ResponsesComeInOrder(s: State, c: nat)
    requires ReachableInTurn(s) && c < |s.conns|
    ensures var k := s.conns[c];
      && (forall i :: 0 <= i < |k.answers| && k.answers[i].response.errorCode == ERROR_OK ==>
          k.answers[i].response.entryId == i)
      && (forall d, i :: 0 <= d < i < |k.answers| && k.answers[i].response.errorCode == ERROR_OK ==>
          k.answers[d].response.errorCode == ERROR_OK)
      && (forall e :: e in k.client.pending ==> k.completed <= e < |k.requests|)
      && (forall e :: k.completed <= e < |k.requests| ==> e in k.client.pending)
    ensures Enabled(s, ClientReads(c)) ==>
      var r := NextResponse(s.conns[c].toClient).value;
      r.errorCode == ERROR_OK ==> r.entryId == s.conns[c].completed
  {
    hide Inv, Ordered, ReachableInTurn, ServerSide, RequestBytes, ResponseBytes, NextResponse, Enabled;
    ReachableOrder(s);
    ConnHolds(s, c);
    var k := s.conns[c];
    forall i | 0 <= i < |k.answers| && k.answers[i].response.errorCode == ERROR_OK
      ensures k.run[i].ok && k.run[i].k.entryId == i && forall d :: 0 <= d < i ==> k.run[d].ok
    {
      AnswerTells(s, c, i);
      RunInOrder(s, c, i);
    }
    forall i | 0 <= i < k.completed
      ensures k.run[i].k.entryId == i
    {
      RunInOrder(s, c, i);
    }
    forall e: int
      ensures Has(k.run[..k.completed], e) <==> 0 <= e < k.completed
    {
      assert 0 <= e < k.completed ==> k.run[..k.completed][e].k.entryId == e;
    }
    if Enabled(s, ClientReads(c)) {
      assert NextResponse(k.toClient).Some? by { CanRead(s, c); }
      NextAnswer(k, c, s.origins, |s.journal.acked|, s.journal.broken);
    }
  }

  lemma CanRead(s: State, c: nat)
    requires Enabled(s, ClientReads(c))
    ensures NextResponse(s.conns[c].toClient).Some?
  {
  }
}
