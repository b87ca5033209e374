/** How two states of one run are related: what never changes, and in which direction the rest moves. */
module Evolution {
  import opened Wrappers
  import opened Transactions
  import opened Chains
  import opened RelayLedger
  import opened Protocol
  import opened Invariants
  import opened TableProofs
  import opened GateProofs
  import opened RecordProofs
  import opened ProcessorProofs
  import SenderProofs
  import EnvironmentProofs
  import LedgerHistory

  // ---------------------------------------------------------------- the relation

  predicate WithdrawReaches(a: WithdrawStatus, b: WithdrawStatus) {
    match a
    case WPending => true
    case WSuccess => b.WSuccess? || b.WFinished?
    case WFailed => b.WFailed? || b.WFinishedRejected?
    case WFinished => b.WFinished?
    case WFinishedRejected => b.WFinishedRejected?
  }

  /** A record keeps its request, its transaction and its fingerprint; its status moves forward. */
  ghost predicate RecordEvolves(a: Record, b: Record) {
    && SameRequest(a, b) && WithdrawReaches(a.status, b.status)
    && (a.txId.Some? ==> b.txId == a.txId)
    && (a.fingerprint.Some? ==> b.fingerprint == a.fingerprint)
  }

  ghost predicate RecordsEvolve(a: seq<Record>, b: seq<Record>) {
    |a| <= |b| && forall k :: 0 <= k < |a| ==> RecordEvolves(a[k], b[k])
  }

  /** The Relay has been told the outcome of record `k`. */
  ghost predicate Reported(history: History, k: nat) {
    k in history.rejects || exists h :: (k, h) in history.fulfills
  }

  /** Rows move forward, keep their owner, and a reported record gets no new one. */
  ghost predicate TableLater(a: State, b: State) {
    && RowsAdvance(a.rows, b.rows) && |a.owners| == |a.rows| && |b.owners| == |b.rows| && a.owners <= b.owners
    && (forall i :: |a.rows| <= i < |b.rows| ==> !Reported(a.history, b.owners[i]))
  }

  /** Submissions only accumulate and only for rows that were not settled; a final receipt stays. */
  ghost predicate ChainLater(c: Config, a: State, b: State) {
    && a.chain.sends <= b.chain.sends
    && (forall n :: |a.chain.sends| <= n < |b.chain.sends| && b.chain.sends[n].row < |a.rows|
          ==> !Terminal(a.rows[b.chain.sends[n].row]))
    && (forall key :: Final(c, a.chain, key) ==>
          Final(c, b.chain, key)
          && b.chain.receipts[key] == a.chain.receipts[key])
  }

  ghost predicate BooksLater(a: State, b: State) {
    && RecordsEvolve(a.records, b.records)
    && a.history.rejects <= b.history.rejects && a.history.fulfills <= b.history.fulfills
    && a.history.legacy == b.history.legacy
    && a.accepted <= b.accepted && a.opening == b.opening && a.now <= b.now
    && a.ledger.deposits <= b.ledger.deposits
    && LedgerHistory.GrantsEvolve(a.ledger.grants, b.ledger.grants)
  }

  ghost predicate Later(c: Config, a: State, b: State) {
    TableLater(a, b) && ChainLater(c, a, b) && BooksLater(a, b)
  }

  /** Only the environment accepts logs or changes grants. */
  ghost predicate SameGrants(a: State, b: State) {
    b.ledger.grants == a.ledger.grants && b.accepted == a.accepted
  }

  // ---------------------------------------------------------------- it is a preorder

  lemma RowsAdvanceTransitive(a: seq<Row>, b: seq<Row>, d: seq<Row>)
    requires RowsAdvance(a, b) && RowsAdvance(b, d)
    ensures RowsAdvance(a, d)
  {
    forall i | 0 <= i < |a| ensures Evolves(a[i], d[i]) {
      EvolvesTransitive(a[i], b[i], d[i]);
    }
  }

  lemma TableLaterTransitive(a: State, b: State, d: State)
    requires TableLater(a, b) && TableLater(b, d) && BooksLater(a, b)
    ensures TableLater(a, d)
  {
    RowsAdvanceTransitive(a.rows, b.rows, d.rows);
    forall i | |a.rows| <= i < |d.rows| ensures !Reported(a.history, d.owners[i]) {
      if i < |b.rows| {
        assert d.owners[i] == b.owners[i];
      } else {
        ReportedStays(a.history, b.history, d.owners[i]);
      }
    }
  }

  lemma ReportedStays(a: History, b: History, k: nat)
    requires a.rejects <= b.rejects && a.fulfills <= b.fulfills
    ensures Reported(a, k) ==> Reported(b, k)
  {
    if Reported(a, k) && k !in a.rejects {
      var h :| (k, h) in a.fulfills;
      assert (k, h) in b.fulfills;
    }
  }

  lemma ChainLaterTransitive(c: Config, a: State, b: State, d: State)
    requires TableLater(a, b) && ChainLater(c, a, b) && ChainLater(c, b, d)
    ensures ChainLater(c, a, d)
  {
    forall n | |a.chain.sends| <= n < |d.chain.sends| && d.chain.sends[n].row < |a.rows|
      ensures !Terminal(a.rows[d.chain.sends[n].row])
    {
      var i := d.chain.sends[n].row;
      assert Evolves(a.rows[i], b.rows[i]);
      if n < |b.chain.sends| {
        assert d.chain.sends[n] == b.chain.sends[n];
      }
    }
  }

  lemma BooksLaterTransitive(a: State, b: State, d: State)
    requires BooksLater(a, b) && BooksLater(b, d)
    ensures BooksLater(a, d)
  {
    forall k | 0 <= k < |a.records| ensures RecordEvolves(a.records[k], d.records[k]) {
      assert RecordEvolves(a.records[k], b.records[k]) && RecordEvolves(b.records[k], d.records[k]);
    }
  }

  lemma LaterTransitive(c: Config, a: State, b: State, d: State)
    requires Later(c, a, b) && Later(c, b, d)
    ensures Later(c, a, d)
  {
    TableLaterTransitive(a, b, d);
    ChainLaterTransitive(c, a, b, d);
    BooksLaterTransitive(a, b, d);
  }

  lemma LaterReflexive(c: Config, s: State)
    requires |s.owners| == |s.rows|
    ensures Later(c, s, s)
  {
    assert forall i :: 0 <= i < |s.rows| ==> Evolves(s.rows[i], s.rows[i]);
  }

  // ---------------------------------------------------------------- single updates

  /** Any conditional update moves a well-formed row forward, whatever block, text or payload it writes. */
  lemma CasEvolves(r: Row, r': Row, now: nat, block: nat, text: string, p: Payload)
    requires RowOk(r)
    requires || CasClaim(r) == Some(r') || CasRelease(r, text) == Some(r') || CasPrepare(r, p) == Some(r')
             || CasMarkSent(r, now) == Some(r') || CasRequestCancellation(r, now, text) == Some(r')
             || CasCancelRequested(r) == Some(r') || CasMarkConfirmed(r, block) == Some(r')
             || CasMarkFailedFromSent(r, block, text) == Some(r') || CasMarkReceiptDelayed(r) == Some(r')
             || RecoverRow(r) == r'
    ensures Evolves(r, r')
  {
  }

  lemma UpdateAdvances(rows: seq<Row>, id: nat, r: Row)
    requires id < |rows| && Evolves(rows[id], r)
    ensures RowsAdvance(rows, rows[id := r])
  {
  }

  // ---------------------------------------------------------------- sender steps

  /** One row moves forward; the rest of the database and the blockchain stay as they are. */
  ghost predicate OneRowMoves(s: State, s': State) {
    && s' == s.(rows := s'.rows, sender := s'.sender, cursors := s'.cursors)
    && RowsAdvance(s.rows, s'.rows) && |s'.rows| == |s.rows|
  }

  lemma ClaimMoves(s: State, s': State)
    requires AllRowsOk(s.rows) && SenderClaim(s) == Some(s')
    ensures OneRowMoves(s, s')
  {
    var id := s.sender.id;
    if s'.sender.Claimed? {
      CasEvolves(s.rows[id], s'.rows[id], 0, 0, "", Payload(0, s.rows[id].order, 0));
    }
  }

  lemma PrepareMoves(s: State, s': State)
    requires AllRowsOk(s.rows) && SenderPrepare(s) == Some(s')
    ensures OneRowMoves(s, s')
  {
    var id := s.sender.id;
    if s'.sender.Prepared? {
      CasEvolves(s.rows[id], s'.rows[id], 0, 0, "", s.sender.payload);
    }
  }

  lemma AcknowledgeMoves(s: State, s': State)
    requires AllRowsOk(s.rows) && SenderAcknowledge(s) == Some(s')
    ensures OneRowMoves(s, s')
  {
    var id := s.sender.id;
    if CasMarkSent(s.rows[id], s.now).Some? {
      CasEvolves(s.rows[id], s'.rows[id], s.now, 0, "", Payload(0, s.rows[id].order, 0));
    }
  }

  lemma ReleaseMoves(s: State, message: string, s': State)
    requires AllRowsOk(s.rows) && SenderRelease(s, message) == Some(s')
    ensures OneRowMoves(s, s')
  {
    var id := s.sender.id;
    if CasRelease(s.rows[id], message).Some? {
      CasEvolves(s.rows[id], s'.rows[id], 0, 0, message, Payload(0, s.rows[id].order, 0));
    }
  }

  lemma SenderMoves(c: Config, s: State, a: SenderStep, s': State)
    requires TableOk(s.rows) && CursorsOk(s.rows, s.cursors) && SenderOk(c, s.rows, s.chain.known, s.sender)
    requires SenderNext(c, s, a) == Some(s') && !a.Submit?
    ensures OneRowMoves(s, s')
  {
    match a
    case Claim => ClaimMoves(s, s');
    case Prepare => PrepareMoves(s, s');
    case Acknowledge => AcknowledgeMoves(s, s');
    case Release(message) => ReleaseMoves(s, message, s');
    case TakeNonce(_) =>
    case _ => SenderProofs.SenderMoveFacts(c, s, a);
  }

  lemma OneRowLater(c: Config, s: State, s': State)
    requires |s.owners| == |s.rows| && OneRowMoves(s, s')
    ensures Later(c, s, s') && s'.up == s.up && s'.chain == s.chain && SameGrants(s, s')
  {
  }

  /** Only a payload persisted on a `Broadcasting` row is ever submitted. */
  lemma SubmitSends(c: Config, s: State, reaches: bool, acknowledged: bool, s': State)
    requires SenderOk(c, s.rows, s.chain.known, s.sender) && SenderSubmit(s, reaches, acknowledged) == Some(s')
    ensures s' == s.(chain := s'.chain, sender := s'.sender)
    ensures s'.chain.receipts == s.chain.receipts && s'.chain.heads == s.chain.heads
    ensures var id := s.sender.id;
            && id < |s.rows| && s.rows[id].status.Broadcasting? && s.rows[id].signedRaw.Some?
            && s'.chain.sends == s.chain.sends + [Send(id, s.rows[id].signedRaw.value)]
  {
  }

  lemma SubmitLater(c: Config, s: State, reaches: bool, acknowledged: bool, s': State)
    requires |s.owners| == |s.rows| && SenderOk(c, s.rows, s.chain.known, s.sender)
    requires SenderSubmit(s, reaches, acknowledged) == Some(s')
    ensures Later(c, s, s') && s'.up == s.up && SameGrants(s, s')
  {
    SubmitSends(c, s, reaches, acknowledged, s');
    assert forall key :: Final(c, s.chain, key) ==> Final(c, s'.chain, key);
  }

  lemma SenderLater(c: Config, s: State, a: SenderStep, s': State)
    requires TableOk(s.rows) && CursorsOk(s.rows, s.cursors) && SenderOk(c, s.rows, s.chain.known, s.sender)
    requires |s.owners| == |s.rows| && SenderNext(c, s, a) == Some(s')
    ensures Later(c, s, s') && s'.up == s.up && SameGrants(s, s')
  {
    if a.Submit? {
      SubmitLater(c, s, a.reaches, a.acknowledged, s');
    } else {
      SenderMoves(c, s, a, s');
      OneRowLater(c, s, s');
    }
  }

  // ---------------------------------------------------------------- confirmer steps

  lemma JobTouches(c: Config, s: State, j: nat, a: JobStep, s': State)
    requires JobNext(c, s, j, a) == Some(s')
    ensures s' == s.(rows := s'.rows, owners := s'.owners, jobs := s'.jobs)
  {
  }

  /** One row is updated, or one sent row is updated and its retry appended for the same record. */
  lemma JobTableLater(c: Config, s: State, j: nat, a: JobStep, s': State)
    requires AllRowsOk(s.rows) && HistoryOk(c, s.rows, s.owners, s.records, s.history, s.now)
    requires JobNext(c, s, j, a) == Some(s')
    ensures TableLater(s, s')
  {
    match a
    case Confirm =>
      var id, block := s.jobs[j].id, s.jobs[j].receipt.value.block;
      if CasMarkConfirmed(s.rows[id], block).Some? {
        CasEvolves(s.rows[id], s'.rows[id], 0, block, "", Payload(0, s.rows[id].order, 0));
      }
    case Fail(message) =>
      JobFailTableLater(c, s, j, message, s');
    case Delay =>
      var id := s.jobs[j].id;
      if CasMarkReceiptDelayed(s.rows[id]).Some? {
        CasEvolves(s.rows[id], s'.rows[id], 0, 0, "", Payload(0, s.rows[id].order, 0));
      }
    case _ =>
  }

  lemma JobFailTableLater(c: Config, s: State, j: nat, message: string, s': State)
    requires AllRowsOk(s.rows) && HistoryOk(c, s.rows, s.owners, s.records, s.history, s.now)
    requires JobFail(c, s, j, message) == Some(s')
    ensures TableLater(s, s')
  {
    var id, block := s.jobs[j].id, s.jobs[j].receipt.value.block;
    if CasMarkFailedFromSent(s.rows[id], block, message).Some? {
      var r := CasMarkFailedFromSent(s.rows[id], block, message).value;
      CasEvolves(s.rows[id], r, 0, block, message, Payload(0, s.rows[id].order, 0));
      ReportedIsTerminal(c, s.rows, s.owners, s.records, s.history, s.now, id);
    }
  }

  /** Once its outcome has been reported, no row of a record can change any more. */
  lemma ReportedIsTerminal(c: Config, rows: seq<Row>, owners: seq<nat>, records: seq<Record>, history: History,
                           now: nat, id: nat)
    requires HistoryOk(c, rows, owners, records, history, now) && id < |rows|
    ensures Reported(history, owners[id]) ==> Terminal(rows[id])
  {
    var k := owners[id];
    if Reported(history, k) {
      if k in history.rejects {
        assert RejectJustified(c, rows, owners, records[k], k, now);
      } else {
        var h :| (k, h) in history.fulfills;
        var i: nat :| Paid(rows, owners, k, i) && rows[i].txHash == Some(h);
        assert i == id || IsProvenTerminalFailure(rows[id]);
      }
    }
  }

  lemma JobLater(c: Config, s: State, j: nat, a: JobStep, s': State)
    requires AllRowsOk(s.rows) && HistoryOk(c, s.rows, s.owners, s.records, s.history, s.now)
    requires JobNext(c, s, j, a) == Some(s')
    ensures Later(c, s, s') && s'.up == s.up && s'.chain == s.chain && SameGrants(s, s')
  {
    JobTouches(c, s, j, a, s');
    JobTableLater(c, s, j, a, s');
  }

  // ---------------------------------------------------------------- environment steps

  lemma BatchKeepsDeposits(deposits: seq<DepositRecord>, logs: seq<Log>)
    requires SaveDeposits(deposits, logs).Ok?
    ensures deposits <= SaveDeposits(deposits, logs).value
  {
  }

  lemma LogsBooksLater(c: Config, s: State, logs: seq<Log>, s': State)
    requires LedgerHistory.LedgerMatches(s.ledger, s.accepted) && SyncLogs(c, s, logs) == Some(s')
    ensures BooksLater(s, s')
  {
    if ApplyBatch(c.vestingSigner, s.now, s.ledger, logs).Ok? {
      LedgerHistory.BatchMatches(c.vestingSigner, s.now, s.ledger, s.accepted, logs);
      BatchKeepsDeposits(s.ledger.deposits, logs);
    }
  }

  lemma EnvBooksLater(c: Config, s: State, a: EnvStep, s': State)
    requires LedgerHistory.LedgerMatches(s.ledger, s.accepted)
    requires EnvNext(c, s, a) == Some(s')
    ensures BooksLater(s, s')
  {
    if a.Logs? {
      LogsBooksLater(c, s, a.logs, s');
    } else {
      LedgerHistory.DeprecateMatches(s.ledger, s.accepted);
      QuietBooksLater(c, s, a, s');
    }
  }

  lemma QuietBooksLater(c: Config, s: State, a: EnvStep, s': State)
    requires EnvNext(c, s, a) == Some(s') && !a.Logs?
    requires LedgerHistory.GrantsEvolve(s.ledger.grants, LedgerHistory.Deprecate(s.ledger.grants))
    ensures BooksLater(s, s')
  {
  }

  lemma EnvTableLater(c: Config, s: State, a: EnvStep, s': State)
    requires AllRowsOk(s.rows) && |s.owners| == |s.rows| && EnvNext(c, s, a) == Some(s')
    ensures TableLater(s, s') && s'.chain.sends == s.chain.sends
  {
    if a.BootUp? {
      forall i | 0 <= i < |s.rows| ensures Evolves(s.rows[i], s'.rows[i]) {
        CasEvolves(s.rows[i], s'.rows[i], 0, 0, "", Payload(0, s.rows[i].order, 0));
      }
    }
  }

  lemma EnvChainLater(c: Config, s: State, a: EnvStep, s': State)
    requires ChainOk(c, s.rows, s.chain) && JobsOk(c, s.rows, s.chain, s.jobs) && EnvNext(c, s, a) == Some(s')
    requires s'.chain.sends == s.chain.sends
    ensures ChainLater(c, s, s')
  {
    if a.MineTx? || a.GrowChain? || a.ReorgTx? {
      EnvironmentProofs.BlockchainFacts(c, s.rows, s, a, s');
      assert forall key :: Final(c, s.chain, key) ==> Final(c, s'.chain, key);
    } else {
      assert s'.chain == s.chain;
    }
  }

  lemma EnvLater(c: Config, s: State, a: EnvStep, s': State)
    requires AllRowsOk(s.rows) && |s.owners| == |s.rows| && LedgerHistory.LedgerMatches(s.ledger, s.accepted)
    requires ChainOk(c, s.rows, s.chain) && JobsOk(c, s.rows, s.chain, s.jobs)
    requires EnvNext(c, s, a) == Some(s')
    ensures Later(c, s, s')
  {
    EnvTableLater(c, s, a, s');
    EnvBooksLater(c, s, a, s');
    EnvChainLater(c, s, a, s');
  }

  // ---------------------------------------------------------------- processor steps

  /** The processor writes one record, forward, and at most balances besides. */
  ghost predicate OneRecordMoves(s: State, s': State) {
    && s' == s.(records := s'.records, ledger := s'.ledger, history := s'.history, proc := s'.proc, start := s'.start,
                queue := s'.queue)
    && s'.ledger == s.ledger.(accounts := s'.ledger.accounts)
    && s.history.rejects <= s'.history.rejects && s.history.fulfills <= s'.history.fulfills
    && s'.history.legacy == s.history.legacy && RecordsEvolve(s.records, s'.records)
  }

  lemma OneRecordLater(c: Config, s: State, s': State)
    requires |s.owners| == |s.rows| && OneRecordMoves(s, s')
    ensures Later(c, s, s') && s'.up == s.up && s'.chain == s.chain && SameGrants(s, s')
  {
  }

  lemma WriteEvolves(records: seq<Record>, k: nat, r: Record)
    requires k < |records| && RecordEvolves(records[k], r)
    ensures RecordsEvolve(records, records[k := r])
  {
  }

  lemma DecidedLater(c: Config, s: State, s': State)
    requires Working(c, s) && Decided(c, s, s')
    ensures Later(c, s, s') && s'.up == s.up && s'.chain == s.chain && SameGrants(s, s')
  {
    if Moved(c, s, s') || s' == ProcStop(s).value {
      OneRecordLater(c, s, s');
    } else if MarkedFailed(s, s') {
      MarkedFailedMoves(c, s, s');
      OneRecordLater(c, s, s');
    } else {
      var id: nat, r, reason :| RowCancelled(c, s, s', id, r, reason);
      CancelLater(c, s, s', id, r, reason);
    }
  }

  lemma MarkedFailedMoves(c: Config, s: State, s': State)
    requires Working(c, s) && MarkedFailed(s, s')
    ensures OneRecordMoves(s, s')
  {
    WriteEvolves(s.records, s.proc.k, s'.records[s.proc.k]);
  }

  lemma CancelLater(c: Config, s: State, s': State, id: nat, r: Row, reason: string)
    requires AllRowsOk(s.rows) && |s.owners| == |s.rows| && RowCancelled(c, s, s', id, r, reason)
    ensures Later(c, s, s') && s'.up == s.up && s'.chain == s.chain && SameGrants(s, s')
  {
    CasEvolves(s.rows[id], r, s.now, 0, reason, Payload(0, r.order, 0));
    UpdateAdvances(s.rows, id, r);
  }

  lemma AttachLater(c: Config, s: State, s': State)
    requires Working(c, s) && ProcAttach(c, s) == Some(s')
    ensures Later(c, s, s') && s'.up == s.up && s'.chain == s.chain && SameGrants(s, s')
  {
    UnattachedIsUnreported(c, s);
    assert forall i :: 0 <= i < |s.rows| ==> s'.rows[i] == s.rows[i];
    WriteEvolves(s.records, s.proc.k, s'.records[s.proc.k]);
  }

  lemma FulfilledHasTransaction(c: Config, rows: seq<Row>, owners: seq<nat>, records: seq<Record>, history: History,
                                now: nat, k: nat, h: Hash)
    requires OwnedOk(c, rows, owners, records) && HistoryOk(c, rows, owners, records, history, now)
    requires (k, h) in history.fulfills
    ensures k < |records| && records[k].txId.Some?
  {
    var i: nat :| Paid(rows, owners, k, i);
    assert records[owners[i]].txId.Some?;
  }

  lemma UnattachedIsUnreported(c: Config, s: State)
    requires Working(c, s) && s.proc.Attach?
    ensures !Reported(s.history, s.proc.k)
  {
    if h :| (s.proc.k, h) in s.history.fulfills {
      FulfilledHasTransaction(c, s.rows, s.owners, s.records, s.history, s.now, s.proc.k, h);
    }
  }

  lemma StampMoves(c: Config, s: State, s': State)
    requires Working(c, s) && ProcAuthorized(c, s) == Some(s')
    ensures OneRecordMoves(s, s')
  {
    if s.proc.rec.fingerprint.None? {
      StampFacts(c, s, s');
      WriteEvolves(s.records, s.proc.k, s'.records[s.proc.k]);
    }
  }

  lemma DebitMoves(c: Config, s: State, s': State)
    requires Working(c, s) && ProcDebit(s) == Some(s')
    ensures OneRecordMoves(s, s')
  {
    DebitTouches(s, s');
    if !s'.proc.Resting? {
      DebitPlace(c, s, s');
      WriteEvolves(s.records, s.proc.k, s'.records[s.proc.k]);
    }
  }

  lemma DebitTouches(s: State, s': State)
    requires ProcDebit(s) == Some(s')
    ensures s' == s.(records := s'.records, ledger := s.ledger.(accounts := s'.ledger.accounts), proc := s'.proc,
                     start := s'.start, queue := s'.queue)
    ensures s'.proc.Resting? ==> s'.records == s.records
  {
  }

  lemma RelayMoves(c: Config, s: State, a: ProcStep, s': State)
    requires Working(c, s) && ProcNext(c, s, a) == Some(s')
    requires a.CallFulfill? || a.WriteFinished? || a.CallReject? || a.WriteRejected?
    ensures OneRecordMoves(s, s')
  {
    if a.WriteFinished? || a.WriteRejected? {
      FinalWriteMoves(c, s, a, s');
    }
  }

  lemma FinalWriteMoves(c: Config, s: State, a: ProcStep, s': State)
    requires Working(c, s) && ProcNext(c, s, a) == Some(s') && (a.WriteFinished? || a.WriteRejected?)
    ensures OneRecordMoves(s, s')
  {
    assert RecordEvolves(s.records[s.proc.k], s'.records[s.proc.k]);
    WriteEvolves(s.records, s.proc.k, s'.records[s.proc.k]);
  }

  lemma LoopMoves(c: Config, s: State, a: ProcStep, s': State)
    requires ProcNext(c, s, a) == Some(s') && (a.FetchBatch? || a.Begin? || a.NextRecord? || a.Stop?)
    ensures OneRecordMoves(s, s')
  {
  }

  lemma ProcWritesMove(c: Config, s: State, a: ProcStep, s': State)
    requires Working(c, s) && ProcNext(c, s, a) == Some(s')
    requires a.Authorized? || a.DebitAccount? || a.CallFulfill? || a.WriteFinished? || a.CallReject? || a.WriteRejected?
    ensures OneRecordMoves(s, s')
  {
    if a.Authorized? {
      StampMoves(c, s, s');
    } else if a.DebitAccount? {
      DebitMoves(c, s, s');
    } else {
      RelayMoves(c, s, a, s');
    }
  }

  lemma ProcLater(c: Config, s: State, a: ProcStep, s': State)
    requires |s.owners| == |s.rows| && (s.proc.Resting? || Working(c, s))
    requires ProcNext(c, s, a) == Some(s')
    ensures Later(c, s, s') && s'.up == s.up && s'.chain == s.chain && SameGrants(s, s')
  {
    if a.FetchBatch? || a.Begin? || a.NextRecord? || a.Stop? {
      LoopMoves(c, s, a, s');
      OneRecordLater(c, s, s');
    } else if Decides(a) {
      StepDecides(c, s, a, s');
      DecidedLater(c, s, s');
    } else if a.AttachRow? {
      AttachLater(c, s, s');
    } else {
      ProcWritesMove(c, s, a, s');
      OneRecordLater(c, s, s');
    }
  }

  // ---------------------------------------------------------------- every step

  lemma StepLater(c: Config, s: State, step: Step, s': State)
    requires Inv(c, s) && Next(c, s, step) == Some(s')
    ensures Later(c, s, s') && (!step.EnvMoves? ==> s.up && s'.up && SameGrants(s, s'))
  {
    match step
    case EnvMoves(a) => EnvLater(c, s, a, s');
    case SenderMoves(a) => SenderLater(c, s, a, s');
    case JobMoves(j, a) => JobLater(c, s, j, a, s');
    case ProcMoves(a) => ProcLater(c, s, a, s');
  }

  /** A step submits nothing, or one payload that its row already carries as `Broadcasting`. */
  lemma StepSends(c: Config, s: State, step: Step, s': State)
    requires Inv(c, s) && Next(c, s, step) == Some(s') && s'.chain.sends != s.chain.sends
    ensures s' == s.(chain := s'.chain, sender := s'.sender) && s.sender.Prepared?
    ensures var id := s.sender.id;
            && id < |s.rows| && s.rows[id].status.Broadcasting? && s.rows[id].signedRaw.Some?
            && s'.chain.sends == s.chain.sends + [Send(id, s.rows[id].signedRaw.value)]
  {
    match step
    case EnvMoves(a) => EnvTableLater(c, s, a, s');
    case SenderMoves(a) => SenderSends(c, s, a, s');
    case JobMoves(j, a) => JobLater(c, s, j, a, s');
    case ProcMoves(a) => ProcLater(c, s, a, s');
  }

  lemma SenderSends(c: Config, s: State, a: SenderStep, s': State)
    requires TableOk(s.rows) && CursorsOk(s.rows, s.cursors) && SenderOk(c, s.rows, s.chain.known, s.sender)
    requires SenderNext(c, s, a) == Some(s') && s'.chain.sends != s.chain.sends
    ensures s' == s.(chain := s'.chain, sender := s'.sender) && s.sender.Prepared?
    ensures var id := s.sender.id;
            && id < |s.rows| && s.rows[id].status.Broadcasting? && s.rows[id].signedRaw.Some?
            && s'.chain.sends == s.chain.sends + [Send(id, s.rows[id].signedRaw.value)]
  {
    if a.Submit? {
      SubmitSends(c, s, a.reaches, a.acknowledged, s');
    } else {
      SenderMoves(c, s, a, s');
    }
  }

  lemma EnvKeepsHistory(c: Config, s: State, a: EnvStep, s': State)
    requires EnvNext(c, s, a) == Some(s')
    ensures s'.history == s.history
  {
  }

  lemma DecidedKeepsHistory(c: Config, s: State, s': State)
    requires Decided(c, s, s')
    ensures s'.history == s.history
  {
  }

  lemma LoopKeepsHistory(c: Config, s: State, a: ProcStep, s': State)
    requires ProcNext(c, s, a) == Some(s') && (a.FetchBatch? || a.Begin? || a.NextRecord? || a.Stop?)
    ensures s'.history == s.history
  {
  }

  lemma ProcRejects(c: Config, s: State, a: ProcStep, s': State)
    requires (s.proc.Resting? || Working(c, s)) && ProcNext(c, s, a) == Some(s')
    ensures a.CallReject? || s'.history.rejects == s.history.rejects
  {
    if Decides(a) {
      DecidesInRecord(c, s, a);
      StepDecides(c, s, a, s');
      DecidedKeepsHistory(c, s, s');
    } else if a.FetchBatch? || a.Begin? || a.NextRecord? || a.Stop? {
      LoopKeepsHistory(c, s, a, s');
    } else if !a.CallReject? {
      WritesKeepRejects(c, s, a, s');
    }
  }

  lemma CallRejects(s: State, s': State)
    requires ProcReject(s) == Some(s')
    ensures s.proc.Reject? && s'.history.rejects == s.history.rejects + {s.proc.k}
  {
  }

  lemma WritesKeepRejects(c: Config, s: State, a: ProcStep, s': State)
    requires ProcNext(c, s, a) == Some(s')
    requires a.Authorized? || a.AttachRow? || a.DebitAccount? || a.CallFulfill? || a.WriteFinished? || a.WriteRejected?
    ensures s'.history.rejects == s.history.rejects
  {
  }

  /** The record of rejections grows only by the Reject call itself. */
  lemma StepRejects(c: Config, s: State, step: Step, s': State)
    requires Inv(c, s) && Next(c, s, step) == Some(s') && s'.history.rejects != s.history.rejects
    ensures step == ProcMoves(CallReject) && s.proc.Reject? && s'.history.rejects == s.history.rejects + {s.proc.k}
  {
    match step
    case EnvMoves(a) => EnvKeepsHistory(c, s, a, s');
    case SenderMoves(a) => SenderKeepsHistory(c, s, a, s');
    case JobMoves(j, a) => JobTouches(c, s, j, a, s');
    case ProcMoves(a) =>
      ProcRejects(c, s, a, s');
      CallRejects(s, s');
  }

  lemma SenderKeepsHistory(c: Config, s: State, a: SenderStep, s': State)
    requires TableOk(s.rows) && CursorsOk(s.rows, s.cursors) && SenderOk(c, s.rows, s.chain.known, s.sender)
    requires SenderNext(c, s, a) == Some(s')
    ensures s'.history == s.history
  {
    if a.Submit? {
      SubmitSends(c, s, a.reaches, a.acknowledged, s');
    } else {
      SenderMoves(c, s, a, s');
    }
  }
}
