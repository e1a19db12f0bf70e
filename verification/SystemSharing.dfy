/** Client processes that use the same ledger id write to the same keys: exactly when what is
    answered OK is still what the client sent. */
module SystemSharing {
  import opened Bytes
  import opened Protocol
  import opened Codec
  import opened Endpoints
  import opened System
  import opened SystemProofs
  import opened SystemTheorems
  import opened SystemWitness
  import J = JournalModel
  import StorageKey

  /** Connection c's entry e, in the database, is what its client sent. */
  predicate IsStored(s: State, c: nat, e: int64)
    requires c < |s.conns|
  {
    var key := StorageKey.Key(s.conns[c].client.ledgerId, e);
    key in s.journal.db && s.journal.db[key] == s.conns[c].client.payload
  }

  /** The i-th answer on connection c is OK. */
  predicate IsOk(s: State, c: int, i: int) {
    0 <= c < |s.conns| && 0 <= i < |s.conns[c].answers| && s.conns[c].answers[i].response.errorCode == ERROR_OK
  }

  /** Everything answered OK on any connection is. */
  ghost predicate AnsweredAreStored(s: State) {
    forall c, i :: IsOk(s, c, i) ==> IsStored(s, c, s.conns[c].answers[i].response.entryId)
  }

  /** In every run from s0 without a failed Write. */
  ghost predicate AlwaysStored(s0: State) {
    forall labels: seq<Label> | IsRun(s0, labels) && J.AllOk(Exec(s0, labels).journal.outcomes) ::
      AnsweredAreStored(Exec(s0, labels))
  }

  predicate LedgersAgree(s: State) {
    forall c :: 0 <= c < |s.conns| ==> LedgerAgrees(s, c)
  }

  /** Who writes what to which ledger is fixed. */
  predicate SameClients(s: State, s': State) {
    && |s'.conns| == |s.conns|
    && forall c :: 0 <= c < |s.conns| ==>
        && s'.conns[c].client.ledgerId == s.conns[c].client.ledgerId
        && s'.conns[c].client.payload == s.conns[c].client.payload
  }

  lemma StepSameClients(s: State, l: Label)
    requires Enabled(s, l)
    ensures SameClients(s, Step(s, l))
  {
    hide J.Step, J.Enabled, NextRequest, NextResponse, DropFrame, EncodeRequest, EncodeResponse, OnSettled;
  }

  lemma {:induction false} RunSameClients(s: State, labels: seq<Label>)
    requires IsRun(s, labels)
    ensures SameClients(s, Exec(s, labels))
    decreases labels
  {
    hide Step, Enabled;
    if labels != [] {
      StepSameClients(s, labels[0]);
      RunSameClients(Step(s, labels[0]), labels[1..]);
    }
  }

  lemma AgreementSuffices(s0: State, labels: seq<Label>)
    requires Initial(s0) && LedgersAgree(s0) && IsRun(s0, labels) && J.AllOk(Exec(s0, labels).journal.outcomes)
    ensures AnsweredAreStored(Exec(s0, labels))
  {
    hide Step, Enabled, Initial;
    var s := Exec(s0, labels);
    RunSameClients(s0, labels);
    forall c, i | IsOk(s, c, i)
      ensures IsStored(s, c, s.conns[c].answers[i].response.entryId)
    {
      assert LedgerAgrees(s0, c) && LedgerAgrees(s, c);
      AnsweredEntriesAreStored(s, c, i);
    }
  }

  // ---------------------------------------------------------------- a run that overwrites

  ghost predicate Leads(s0: State, s: State) {
    exists labels :: IsRun(s0, labels) && Exec(s0, labels) == s
  }

  lemma LeadsOn(s0: State, s: State, l: Label) returns (s': State)
    requires Leads(s0, s) && Inv(s) && Enabled(s, l)
    ensures s' == Step(s, l) && Leads(s0, s') && Inv(s')
  {
    hide Step, Enabled, Inv;
    var labels :| IsRun(s0, labels) && Exec(s0, labels) == s;
    s' := Step(s, l);
    OneStep(s, l);
    RunConcat(s0, labels, [l]);
    StepKeepsInv(s, l);
  }

  function FirstPut(k: Conn): J.Put { J.Put(StorageKey.Key(k.client.ledgerId, 0), k.client.payload) }

  /** The thread is collecting these puts, and nothing is queued. */
  predicate Collects(j: J.State, puts: seq<J.Put>) {
    && j.pc == J.Collecting && !j.block && !j.closed && j.queue == [] && j.capacity > 0
    && j.count == |puts| < J.LAST_COUNT
    && j.accepted == puts && j.writeBatch == puts && j.taken == |puts| && j.entriesToSync == Range(0, |puts|)
    && j.acked == [] && j.broken == {} && j.outcomes == [] && j.db == map[]
  }

  /** Connection c's first request is generated, sent, read and collected. */
  lemma FirstIsCollected(s0: State, s: State, c: nat, key: MasterKey, puts: seq<J.Put>) returns (s': State)
    requires Leads(s0, s) && Inv(s) && c < |s.conns| && Runs(s, c) && IsNew(s.conns[c])
    requires Collects(s.journal, puts) && |puts| <= 1
    ensures Leads(s0, s') && Inv(s') && SameClients(s, s') && s'.processes == s.processes
    ensures forall d :: 0 <= d < |s.conns| && d != c ==> s'.conns[d] == s.conns[d]
    ensures s'.conns[c].owner == s.conns[c].owner && s'.conns[c].promises == [|puts|]
    ensures s'.conns[c].handler
         == Handler(Some(Continuation(|puts|, s.conns[c].client.ledgerId, 0)), [], []) && s'.conns[c].run == []
    ensures Collects(s'.journal, puts + [FirstPut(s.conns[c])])
  {
    hide Inv, Leads, NextRequest, DropFrame, EncodeRequest, PayloadFits, StorageKey.Key;
    var s1 := LeadsOn(s0, s, ClientGenerates(c));
    SmallPayload(s1, c);
    var s2 := LeadsOn(s0, s1, ClientSends(c, key));
    NextIsFirst(s2, c);
    var s3 := LeadsOn(s0, s2, ServerReads(c));
    assert s3.journal.queue == [J.Data(|puts|, FirstPut(s.conns[c]))];
    s' := LeadsOn(s0, s3, JournalSteps(J.ReadHit));
    assert s'.journal.queue == [];
    assert s'.journal.entriesToSync == Range(0, |puts| + 1);
  }

  lemma AnsweredThenOverwritten(s0: State, c: nat, d: nat) returns (s: State)
    requires Initial(s0) && s0.journal.capacity > 0 && c < |s0.conns| && d < |s0.conns|
    requires s0.conns[c].client.ledgerId == s0.conns[d].client.ledgerId
    requires s0.conns[c].client.payload != s0.conns[d].client.payload
    ensures Leads(s0, s) && J.AllOk(s.journal.outcomes) && !AnsweredAreStored(s)
  {
    hide Inv, Leads, IsNew, StorageKey.Key, J.Apply;
    var key: MasterKey := BE64(0) + BE64(0) + BE32(0);
    InitialInv(s0);
    NowhereLeads(s0);
    var s1 := FirstIsCollected(s0, s0, c, key, []);
    var s2 := LeadsOn(s0, s1, ServerAttaches(c));
    var s3 := FirstIsCollected(s0, s2, d, key, [FirstPut(s0.conns[c])]);
    assert s3.conns[c] == s2.conns[c];
    SameKey(s0.conns[c], s0.conns[d]);
    s := AnswerFirst(s0, s3, c, FirstPut(s0.conns[c]), FirstPut(s0.conns[d]));
  }

  lemma SameKey(a: Conn, b: Conn)
    requires a.client.ledgerId == b.client.ledgerId
    ensures FirstPut(a).key == FirstPut(b).key
  {
  }

  /** The batch with both is written, and the first promise fulfilled. */
  lemma FulfilFirst(s0: State, s3: State, c: nat, a: J.Put, b: J.Put) returns (s: State)
    requires Leads(s0, s3) && Inv(s3) && c < |s3.conns| && s3.conns[c].run == []
    requires s3.conns[c].handler == Handler(None, [Continuation(0, s3.conns[c].client.ledgerId, 0)], [])
    requires Collects(s3.journal, [a] + [b])
    ensures Leads(s0, s) && Inv(s) && c < |s.conns| && s.conns[c].run == [] && s.conns[c].client == s3.conns[c].client
    ensures s.conns[c].handler.posted == [Posted(Continuation(0, s.conns[c].client.ledgerId, 0), true)]
    ensures s.journal.outcomes == [true] && s.journal.db == J.Apply(map[], [a] + [b])
  {
    hide Inv, Leads, StorageKey.Key, J.Apply;
    var s4 := LeadsOn(s0, s3, JournalSteps(J.ReadMiss));
    var s5 := LeadsOn(s0, s4, JournalSteps(J.Write(true)));
    s := LeadsOn(s0, s5, JournalSteps(J.Fulfil));
    assert s.conns[c] == SettleOn(s5.conns[c], 0, true);
  }

  lemma AnswerFirst(s0: State, s3: State, c: nat, a: J.Put, b: J.Put) returns (s: State)
    requires Leads(s0, s3) && Inv(s3) && c < |s3.conns| && s3.conns[c].run == []
    requires s3.conns[c].handler == Handler(None, [Continuation(0, s3.conns[c].client.ledgerId, 0)], [])
    requires Collects(s3.journal, [a] + [b]) && a == FirstPut(s3.conns[c]) && a.key == b.key && a.value != b.value
    ensures Leads(s0, s) && J.AllOk(s.journal.outcomes) && !AnsweredAreStored(s)
  {
    hide Inv, Leads, StorageKey.Key, J.Apply, EncodeResponse, Collects;
    var s6 := FulfilFirst(s0, s3, c, a, b);
    s := LeadsOn(s0, s6, ServerResponds(c, 0, BE32(0)));
    Overwrites([a] + [b], a, b);
    assert |s6.conns[c].answers| == 0 by { NoAnswers(s6, c); }
    assert IsOk(s, c, 0) && !IsStored(s, c, 0);
  }

  lemma NoAnswers(s: State, c: nat)
    requires Inv(s) && c < |s.conns| && s.conns[c].run == []
    ensures s.conns[c].answers == []
  {
    hide Inv, ServerSide, Counted, RequestBytes, ResponseBytes;
    ConnHolds(s, c);
  }

  lemma NowhereLeads(s: State)
    ensures Leads(s, s)
  {
    assert IsRun(s, []) && Exec(s, []) == s;
  }

  lemma Overwrites(puts: seq<J.Put>, a: J.Put, b: J.Put)
    requires puts == [a] + [b] && a.key == b.key
    ensures a.key in J.Apply(map[], puts) && J.Apply(map[], puts)[a.key] == b.value
  {
    assert puts[..1] == [a];
  }

  /** What has been answered OK is in every run, short of failed Writes, what its client sent, if
      and only if connections that use the same ledger id send the same payload. */
  lemma AlwaysStoredIff(s0: State)
    requires Initial(s0) && s0.journal.capacity > 0
    ensures AlwaysStored(s0) <==> LedgersAgree(s0)
  {
    hide Initial, AnsweredAreStored, Step, Enabled, Leads;
    if LedgersAgree(s0) {
      forall labels: seq<Label> | IsRun(s0, labels) && J.AllOk(Exec(s0, labels).journal.outcomes)
        ensures AnsweredAreStored(Exec(s0, labels))
      {
        AgreementSuffices(s0, labels);
      }
    } else {
      var c, d :| 0 <= c < |s0.conns| && 0 <= d < |s0.conns|
        && s0.conns[d].client.ledgerId == s0.conns[c].client.ledgerId
        && s0.conns[d].client.payload != s0.conns[c].client.payload;
      var s := AnsweredThenOverwritten(s0, c, d);
      LeadsIs(s0, s);
    }
  }

  lemma LeadsIs(s0: State, s: State)
    requires Leads(s0, s)
    ensures exists labels :: IsRun(s0, labels) && Exec(s0, labels) == s
  {
  }
}
