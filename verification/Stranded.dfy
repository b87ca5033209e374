/**
  Two ways a record can be left for good: a historical record marked failed although its row was paid, and a
  real failure whose text hides it. Both states are reached by concrete runs, and what follows is that the
  record is never finished and every later one waits for ever.
*/
module Stranded {
  import opened Wrappers
  import opened Transactions
  import opened Chains
  import opened RelayLedger
  import opened Protocol
  import opened Invariants
  import opened Evolution
  import opened Theorems
  import opened SampleRun
  import opened FailedRecords

  // ---------------------------------------------------------------- left for good

  /** A confirmed row under a failed record, or a failure that does not count as proven. */
  ghost predicate Stuck(s: State, k: nat, i: nat) {
    && k < |s.records| && |s.owners| == |s.rows| && i < |s.rows| && s.owners[i] == k
    && ((s.records[k].status.WFailed? && s.rows[i].status.Confirmed?)
        || (s.rows[i].status.Failed? && !IsProvenOnChainFailure(s.rows[i])))
  }

  lemma StuckMeans(c: Config, s: State, k: nat, i: nat)
    requires OwnedOk(c, s.rows, s.owners, s.records) && Serial(s.records) && Stuck(s, k, i)
    requires HistoryOk(c, s.rows, s.owners, s.records, s.history, s.now)
    ensures !Finished(s.records[k]) && !Debited(s.records[k]) && k !in s.history.rejects
    ensures forall j :: k < j < |s.records| ==> s.records[j].txId.None?
  {
    assert !IsProvenTerminalFailure(s.rows[i]) && s.records[k].txId.Some?;
    assert k in s.history.rejects ==> RejectJustified(c, s.rows, s.owners, s.records[k], k, s.now);
    if s.rows[i].status.Failed? {
      UnprovenIsUnpaid(s.rows, s.owners, k, i);
    }
  }

  lemma UnprovenIsUnpaid(rows: seq<Row>, owners: seq<nat>, k: nat, i: nat)
    requires |owners| == |rows| && i < |rows| && owners[i] == k && rows[i].status.Failed?
    requires !IsProvenOnChainFailure(rows[i])
    ensures !IsPaid(rows, owners, k)
  {
  }

  lemma StuckStays(c: Config, a: State, b: State, k: nat, i: nat)
    requires Later(c, a, b) && Stuck(a, k, i) && |b.owners| == |b.rows|
    requires HistoryOk(c, b.rows, b.owners, b.records, b.history, b.now)
    ensures Stuck(b, k, i)
  {
    assert RecordEvolves(a.records[k], b.records[k]) && Evolves(a.rows[i], b.rows[i]);
    assert k in b.history.rejects ==> RejectJustified(c, b.rows, b.owners, b.records[k], k, b.now);
  }

  /**
    From then on, in every later state of the run, the record is neither finished nor rejected nor debited,
    and no later record ever gets a transaction.
  */
  lemma StuckForEver(c: Config, states: seq<State>, steps: seq<Step>, m: nat, n: nat, k: nat, i: nat)
    requires Run(c, states, steps) && m <= n < |states| && Stuck(states[m], k, i)
    ensures Stuck(states[n], k, i) && k < |states[n].records|
    ensures !Finished(states[n].records[k]) && !Debited(states[n].records[k]) && k !in states[n].history.rejects
    ensures forall j :: k < j < |states[n].records| ==> states[n].records[j].txId.None?
  {
    RunLater(c, states, steps, m, n);
    RunInv(c, states, steps, n);
    StuckStays(c, states[m], states[n], k, i);
    StuckMeans(c, states[n], k, i);
  }

  // ---------------------------------------------------------------- a failed record that was paid

  /** The run starts from a historical record that is in time and on a network the wallet can pay on. */
  ghost predicate CanTake(c: Config, s: State) {
    && Fresh(s) && OneHistorical(c, s) && c.batchSize >= 1
    && c.networks[s.records[0].request.network].sentLimit >= 1 && s.now <= s.records[0].createdAt + c.timeout
  }

  /** The process is up, and the record's authorisation is about to be checked. */
  function Checking(s: State): State
    requires |s.records| == 1
  {
    s.(up := true, proc := Authorize(0, s.records[0]))
  }

  lemma ReachTop(c: Config, s: State)
    requires CanTake(c, s)
    ensures Goes(c, s, s.(up := true, proc := Top(0, s.records[0], None)))
  {
    var r, t := s.records[0], s.(up := true);
    assert s.records == [r] && RecoverRows(s.rows) == s.rows;
    Here(c, s);
    Then(c, s, s, EnvMoves(BootUp(map[], false)), t);
    BatchOfOne(c, r);
    Then(c, s, t, ProcMoves(FetchBatch), t.(queue := [Ticket(0, r)]));
    assert [Ticket(0, r)][1..] == [];
    Then(c, s, t.(queue := [Ticket(0, r)]), ProcMoves(Begin), t.(proc := Entry(0, r)));
    Then(c, s, t.(proc := Entry(0, r)), ProcMoves(Enter), t.(proc := Top(0, r, None)));
  }

  lemma ReachChecking(c: Config, s: State)
    requires CanTake(c, s) && Goes(c, s, s.(up := true, proc := Top(0, s.records[0], None)))
    ensures Goes(c, s, Checking(s)) && Unsent(c, Checking(s))
  {
    assert s.rows == [s.rows[0]];
    SoleRow(s.rows[0]);
    Then(c, s, s.(up := true, proc := Top(0, s.records[0], None)), ProcMoves(TopOf(s.rows[0])), Checking(s));
  }

  /** Authorisation was refused while the row was on its way; by the time it was read it had been confirmed. */
  function FailedButPaid(c: Config, s: State): State
    requires CanTake(c, s)
  {
    var rec := s.records[0].(status := WFailed);
    Settled(c, Checking(s)).(records := [rec], proc := Finish(0, rec, Some(Held(0, PaidRow(Checking(s))))))
  }

  lemma ReachFailedButPaid(c: Config, s: State)
    requires CanTake(c, s) && !Cleared(c, s.records[0]) && Goes(c, s, Settled(c, Checking(s)))
    ensures Goes(c, s, FailedButPaid(c, s))
  {
    var b, rec, r := Settled(c, Checking(s)), s.records[0], PaidRow(Checking(s));
    var held := Some(Held(0, r));
    assert s.rows == [s.rows[0]] && s.records == [rec];
    SoleRowIsPaid(Checking(s));
    Then(c, s, b, ProcMoves(NotAuthorized(r)), b.(proc := Unauthorized(0, rec, held)));
    Then(c, s, b.(proc := Unauthorized(0, rec, held)), ProcMoves(Revoke("")), b.(proc := Revoking(0, rec, held)));
    ReachRevoked(c, s);
  }

  lemma ReachRevoked(c: Config, s: State)
    requires CanTake(c, s)
    requires Goes(c, s, Settled(c, Checking(s)).(proc := Revoking(0, s.records[0],
                                                                  Some(Held(0, PaidRow(Checking(s)))))))
    ensures Goes(c, s, FailedButPaid(c, s))
  {
    var b, rec, held := Settled(c, Checking(s)), s.records[0], Some(Held(0, PaidRow(Checking(s))));
    assert s.records == [rec];
    assert [rec][0 := rec.(status := WFailed)] == [rec.(status := WFailed)];
    Then(c, s, b.(proc := Revoking(0, rec, held)), ProcMoves(Revoked), FailedButPaid(c, s));
  }

  /**
    From every such database whose record is not cleared, a run reaches a state in which the record is failed,
    its row confirmed, its payout final and its account untouched.
  */
  lemma FailedRecordMayBePaid(c: Config, s: State)
    requires CanTake(c, s) && !Cleared(c, s.records[0])
    ensures var t := FailedButPaid(c, s);
            && Goes(c, s, t) && Stuck(t, 0, 0) && t.records[0].status.WFailed? && t.rows[0].status.Confirmed?
            && SentFor(t, 0, 0) && Succeeded(t.chain, t.chain.sends[0].payload) && t.ledger == s.ledger
  {
    ReachTop(c, s);
    ReachChecking(c, s);
    ReachSettled(c, s, Checking(s));
    ReachFailedButPaid(c, s);
  }

  /** Everything a run from `s` may reach keeps failed records lost. */
  ghost predicate FailedStaysLost(c: Config, s: State) {
    forall t, k :: Goes(c, s, t) && 0 <= k < |t.records| && t.records[k].status.WFailed? ==> LostIn(t, k)
  }

  ghost predicate LostIn(t: State, k: nat) {
    |t.owners| == |t.rows| && ChainLost(t.rows, t.owners, k)
  }

  lemma LegacyStays(c: Config, s: State, t: State)
    requires Init(c, s) && Goes(c, s, t)
    ensures Reachable(c, t) && t.history.legacy == s.history.legacy
  {
    var steps :| Exec(c, s, steps) == Some(t);
    var states := ExecRuns(c, s, steps);
    RunLater(c, states, steps, 0, |steps|);
  }

  /**
    Every failed record has lost its chain, in every run from a given database, exactly when that database holds
    no attached record without clearance.
  */
  lemma FailedLostExactly(c: Config, s: State)
    requires Init(c, s) && (s.records != [] ==> CanTake(c, s))
    ensures FailedStaysLost(c, s) <==> forall k :: 0 <= k < |s.records| && s.records[k].txId.Some? ==>
              Cleared(c, s.records[k])
  {
    if s.history.legacy == {} {
      ClearedKeepsLost(c, s);
    } else {
      UnclearedLosesOne(c, s);
    }
    LegacyIsUncleared(c, s);
  }

  lemma LegacyIsUncleared(c: Config, s: State)
    requires Init(c, s)
    ensures s.history.legacy == {} <==> forall k :: 0 <= k < |s.records| && s.records[k].txId.Some? ==>
              Cleared(c, s.records[k])
  {
  }

  lemma UnclearedLosesOne(c: Config, s: State)
    requires CanTake(c, s) && s.history.legacy != {}
    ensures !FailedStaysLost(c, s)
  {
    FailedRecordMayBePaid(c, s);
    assert !LostIn(FailedButPaid(c, s), 0);
  }

  lemma ClearedKeepsLost(c: Config, s: State)
    requires Init(c, s) && s.history.legacy == {}
    ensures FailedStaysLost(c, s)
  {
    forall t, k | Goes(c, s, t) && 0 <= k < |t.records| && t.records[k].status.WFailed? ensures LostIn(t, k) {
      LegacyStays(c, s, t);
      FailedMeansLost(c, t, k);
    }
  }

  // ---------------------------------------------------------------- a failure that is not proven

  /** The first row was reverted, and the node gave the receipt-timeout text as the reason. */
  function Unproven(c: Config, q: Record): State
    requires CanPay(c, q)
  {
    var b := Polling(c, q);
    Lost(Submitted(b).(chain := DeepChain(c, b, false)), 0, 1, TIMED_OUT)
  }

  /** For every request such a run exists: the payout was reverted for good, and its row is not a proven failure. */
  lemma TimeoutTextHidesFailure(c: Config, q: Record)
    requires CanPay(c, q)
    ensures var s := Unproven(c, q);
            && Reachable(c, s) && Stuck(s, 0, 0) && s.rows[0].statusMessage == Some(TIMED_OUT)
            && s.rows[0].signedRaw.Some? && Reverted(c, s.chain, s.rows[0].signedRaw.value)
  {
    var b := Polling(c, q);
    ReachUnsent(c, q);
    ReachSubmitted(c, Start(q), b);
    ReachBuried(c, Start(q), b, false);
    var s := Submitted(b).(chain := DeepChain(c, b, false));
    ReadsReceipt(c, Start(q), s, 0);
    FailsHeld(c, Start(q), s, 0, Receipt(false, 1), TIMED_OUT);
    GoesIsReachable(c, Start(q), Unproven(c, q));
    UnprovenFacts(c, q);
  }

  lemma UnprovenFacts(c: Config, q: Record)
    requires CanPay(c, q)
    ensures var s := Unproven(c, q);
            && Stuck(s, 0, 0) && s.rows[0].statusMessage == Some(TIMED_OUT)
            && s.rows[0].signedRaw.Some? && Reverted(c, s.chain, s.rows[0].signedRaw.value)
  {
  }
}
