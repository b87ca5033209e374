/** Time, new requests, log batches, the blockchain, crashes and restarts keep the invariant. */
module EnvironmentProofs {
  import opened Wrappers
  import opened Transactions
  import opened Chains
  import opened RelayLedger
  import opened Protocol
  import opened Invariants
  import opened TableProofs
  import opened SenderProofs
  import LedgerHistory

  /** A process that is down holds nothing in memory. */
  ghost predicate DownOk(s: State) {
    !s.up ==> s.sender.Idle? && s.jobs == map[] && s.proc.Resting?
  }

  // ---------------------------------------------------------------- time

  lemma LaterKeepsHistory(c: Config, rows: seq<Row>, owners: seq<nat>, records: seq<Record>, history: History, now: nat,
                          later: nat)
    requires HistoryOk(c, rows, owners, records, history, now) && now <= later
    ensures HistoryOk(c, rows, owners, records, history, later)
  {
  }

  lemma TickKeepsInv(c: Config, s: State, s': State)
    requires Inv(c, s) && s.now <= s'.now && s' == s.(now := s'.now)
    ensures Inv(c, s')
  {
    LaterKeepsHistory(c, s.rows, s.owners, s.records, s.history, s.now, s'.now);
  }

  // ---------------------------------------------------------------- new requests

  lemma AppendKeepsOwned(c: Config, rows: seq<Row>, owners: seq<nat>, records: seq<Record>, r: Record)
    requires OwnedOk(c, rows, owners, records) && r.txId.None?
    ensures OwnedOk(c, rows, owners, records + [r])
  {
  }

  lemma AppendKeepsFingerprints(c: Config, records: seq<Record>, legacy: set<nat>, r: Record)
    requires FingerprintsOk(c, records, legacy) && Serial(records) && Storable(c, r) && !Conflicts(records, r)
    ensures FingerprintsOk(c, records + [r], legacy) && Serial(records + [r])
  {
  }

  lemma AppendKeepsHistory(c: Config, rows: seq<Row>, owners: seq<nat>, records: seq<Record>, history: History,
                           now: nat, r: Record)
    requires HistoryOk(c, rows, owners, records, history, now) && (r.status.WPending? || r.status.WFailed?)
    ensures HistoryOk(c, rows, owners, records + [r], history, now)
  {
  }

  lemma AppendKeepsQueue(records: seq<Record>, proc: Proc, start: nat, queue: seq<Ticket>, r: Record)
    requires QueueOk(records, proc, start, queue)
    ensures QueueOk(records + [r], proc, start, queue)
  {
    var records' := records + [r];
    assert forall k :: 0 <= k < |records| ==> records'[k] == records[k];
  }

  lemma RequestFrame(c: Config, s: State, s': State)
    requires Inv(c, s) && s' == s.(records := s'.records)
    requires OwnedOk(c, s'.rows, s'.owners, s'.records) && Serial(s'.records)
    requires FingerprintsOk(c, s'.records, s'.history.legacy)
    requires HistoryOk(c, s'.rows, s'.owners, s'.records, s'.history, s'.now)
    requires ProcRecordOk(c, s'.records, s'.proc)
    requires ProcPlaceOk(c, s'.rows, s'.owners, s'.records, s'.history, s'.now, s'.proc)
    requires QueueOk(s'.records, s'.proc, s'.start, s'.queue)
    requires GatesOk(s'.records, s'.history.gates, s'.ledger.accounts, s'.accepted)
    ensures Inv(c, s')
  {
  }

  lemma AppendKeepsProc(c: Config, rows: seq<Row>, owners: seq<nat>, records: seq<Record>, history: History, now: nat,
                        proc: Proc, r: Record)
    requires |owners| == |rows| && ProcRecordOk(c, records, proc)
    requires ProcPlaceOk(c, rows, owners, records, history, now, proc)
    ensures ProcRecordOk(c, records + [r], proc) && ProcPlaceOk(c, rows, owners, records + [r], history, now, proc)
  {
  }

  lemma AddRecordKeepsInv(c: Config, s: State, r: Record, s': State)
    requires Inv(c, s) && AddRecord(c, s, r) == Some(s')
    ensures Inv(c, s')
  {
    if !Conflicts(s.records, r) {
      AppendKeepsOwned(c, s.rows, s.owners, s.records, r);
      AppendKeepsFingerprints(c, s.records, s.history.legacy, r);
      AppendKeepsHistory(c, s.rows, s.owners, s.records, s.history, s.now, r);
      AppendKeepsQueue(s.records, s.proc, s.start, s.queue, r);
      AppendKeepsProc(c, s.rows, s.owners, s.records, s.history, s.now, s.proc, r);
      AppendKeepsGates(s.records, s.history.gates, s.ledger.accounts, s.accepted, r);
      RequestFrame(c, s, s');
    }
  }

  lemma AppendKeepsGates(records: seq<Record>, gates: map<nat, GateSeen>, accounts: map<string, int>,
                         accepted: seq<Log>, r: Record)
    requires GatesOk(records, gates, accounts, accepted) && r.txId.None?
    ensures GatesOk(records + [r], gates, accounts, accepted)
  {
  }

  // ---------------------------------------------------------------- log batches

  lemma BatchKeepsGate(seen: GateSeen, r: Record, signer: string, now: nat, l: Ledger, accepted: seq<Log>,
                       logs: seq<Log>)
    requires ApplyBatch(signer, now, l, logs).Ok?
    requires GateHolds(seen, r, l.accounts, accepted)
    ensures GateHolds(seen, r, ApplyBatch(signer, now, l, logs).value.accounts, accepted + logs)
  {
    BatchMovesBalances(signer, now, l, logs, r.request.address);
    assert (accepted + logs)[seen.logs..] == accepted[seen.logs..] + logs;
    SignedSumConcat(accepted[seen.logs..], logs, r.request.address);
  }

  lemma BatchKeepsGates(records: seq<Record>, gates: map<nat, GateSeen>, proc: Proc, signer: string, now: nat,
                        l: Ledger, accepted: seq<Log>, logs: seq<Log>)
    requires ApplyBatch(signer, now, l, logs).Ok?
    requires GatesOk(records, gates, l.accounts, accepted) && AttachOk(proc, l.accounts, accepted)
    ensures var accounts := ApplyBatch(signer, now, l, logs).value.accounts;
            GatesOk(records, gates, accounts, accepted + logs) && AttachOk(proc, accounts, accepted + logs)
  {
    var accounts := ApplyBatch(signer, now, l, logs).value.accounts;
    forall k | 0 <= k < |records| && records[k].txId.Some? && records[k].status.WPending?
      ensures k in gates && GateHolds(gates[k], records[k], accounts, accepted + logs)
    {
      BatchKeepsGate(gates[k], records[k], signer, now, l, accepted, logs);
    }
    if proc.Attach? {
      BatchKeepsGate(GateSeen(proc.balance, proc.logs), proc.rec, signer, now, l, accepted, logs);
    }
  }

  lemma LedgerFrame(c: Config, s: State, s': State)
    requires Inv(c, s) && s' == s.(ledger := s'.ledger, accepted := s'.accepted)
    requires GatesOk(s'.records, s'.history.gates, s'.ledger.accounts, s'.accepted)
    requires AttachOk(s'.proc, s'.ledger.accounts, s'.accepted)
    requires LedgerHistory.LedgerMatches(s'.ledger, s'.accepted)
    ensures Inv(c, s')
  {
  }

  lemma SyncLogsKeepsInv(c: Config, s: State, logs: seq<Log>, s': State)
    requires Inv(c, s) && SyncLogs(c, s, logs) == Some(s')
    ensures Inv(c, s')
  {
    if ApplyBatch(c.vestingSigner, s.now, s.ledger, logs).Ok? {
      BatchKeepsGates(s.records, s.history.gates, s.proc, c.vestingSigner, s.now, s.ledger, s.accepted, logs);
      LedgerHistory.BatchMatches(c.vestingSigner, s.now, s.ledger, s.accepted, logs);
      LedgerFrame(c, s, s');
    }
  }

  // ---------------------------------------------------------------- the blockchain

  /** Heads only grow, and only receipts that were not final may change. */
  ghost predicate ChainGrows(c: Config, chain: Chain, chain': Chain) {
    && chain'.known == chain.known && chain'.sends == chain.sends
    && (forall network :: Head(chain, network) <= Head(chain', network))
    && (forall key :: Final(c, chain, key) ==> key in chain'.receipts && chain'.receipts[key] == chain.receipts[key])
    && (forall key :: key in chain'.receipts ==> key in chain.known && chain'.receipts[key].block > 0)
  }

  lemma GrowthKeepsChain(c: Config, rows: seq<Row>, chain: Chain, chain': Chain)
    requires ChainOk(c, rows, chain) && ChainGrows(c, chain, chain')
    ensures ChainOk(c, rows, chain')
  {
    forall i | 0 <= i < |rows| && rows[i].txHash.Some? ensures RowOnChain(c, chain', rows[i]) {
      assert RowOnChain(c, chain, rows[i]);
      assert Final(c, chain, KeyOf(rows[i])) ==> Final(c, chain', KeyOf(rows[i]));
    }
  }

  lemma ChainFrame(c: Config, s: State, s': State)
    requires Inv(c, s) && s' == s.(chain := s'.chain) && s'.chain.known == s.chain.known
    requires ChainOk(c, s'.rows, s'.chain) && JobsOk(c, s'.rows, s'.chain, s'.jobs)
    ensures Inv(c, s')
  {
  }

  lemma MineFacts(c: Config, s: State, key: TxKey, ok: bool, s': State)
    requires (forall k :: k in s.chain.receipts ==> k in s.chain.known && s.chain.receipts[k].block > 0)
    requires Mine(s, key, ok) == Some(s')
    ensures s' == s.(chain := s'.chain) && ChainGrows(c, s.chain, s'.chain)
    ensures forall k :: k in s.chain.receipts ==> k in s'.chain.receipts && s'.chain.receipts[k] == s.chain.receipts[k]
  {
  }

  lemma BlockchainFacts(c: Config, rows: seq<Row>, s: State, a: EnvStep, s': State)
    requires ChainOk(c, rows, s.chain) && JobsOk(c, rows, s.chain, s.jobs)
    requires (a.MineTx? || a.GrowChain? || a.ReorgTx?) && EnvNext(c, s, a) == Some(s')
    ensures s' == s.(chain := s'.chain) && ChainGrows(c, s.chain, s'.chain) && JobsOk(c, rows, s'.chain, s.jobs)
  {
    if a.MineTx? {
      MineFacts(c, s, a.key, a.ok, s');
    }
    forall j | j in s.jobs ensures JobOk(c, rows, s'.chain, s.jobs[j]) {
      assert JobOk(c, rows, s.chain, s.jobs[j]);
    }
  }

  lemma BlockchainKeepsInv(c: Config, s: State, a: EnvStep, s': State)
    requires Inv(c, s) && (a.MineTx? || a.GrowChain? || a.ReorgTx?) && EnvNext(c, s, a) == Some(s')
    ensures Inv(c, s')
  {
    BlockchainFacts(c, s.rows, s, a, s');
    GrowthKeepsChain(c, s.rows, s.chain, s'.chain);
    ChainFrame(c, s, s');
  }

  // ---------------------------------------------------------------- crash and restart

  lemma CrashKeepsInv(c: Config, s: State, s': State)
    requires Inv(c, s) && Crash(s) == Some(s')
    ensures Inv(c, s') && DownOk(s')
  {
    assert QueueOk(s'.records, s'.proc, s'.start, s'.queue);
  }

  /** Only the live row can be `Sending`, so recovery is at most one update. */
  lemma RecoveryIsUpdate(rows: seq<Row>)
    requires AllRowsOk(rows) && OnlyLastLive(rows)
    ensures RecoverRows(rows)
         == if LastSending(rows) then rows[|rows| - 1 := RecoverRow(rows[|rows| - 1])] else rows
  {
    if rows != [] && rows[|rows| - 1].status.Sending? {
      assert RecoverRows(rows) == rows[|rows| - 1 := RecoverRow(rows[|rows| - 1])];
    } else {
      assert RecoverRows(rows) == rows;
    }
  }

  lemma BootFrame(c: Config, s: State, s': State)
    requires Inv(c, s) && DownOk(s) && !s.up
    requires s' == s.(up := true, rows := s'.rows, cursors := s'.cursors, ledger := s'.ledger)
    requires TableOk(s'.rows) && LimitOk(c, s'.rows) && OwnedOk(c, s'.rows, s'.owners, s'.records)
    requires ChainOk(c, s'.rows, s'.chain) && CursorsOk(s'.rows, s'.cursors)
    requires HistoryOk(c, s'.rows, s'.owners, s'.records, s'.history, s'.now)
    requires s'.ledger.accounts == s.ledger.accounts && LedgerHistory.LedgerMatches(s'.ledger, s'.accepted)
    ensures Inv(c, s')
  {
  }

  lemma RecoverFacts(c: Config, rows: seq<Row>, id: nat, r: Row, cursors: map<string, nat>, chain: Chain)
    requires TableOk(rows) && LimitOk(c, rows) && ChainOk(c, rows, chain) && CursorsOk(rows, cursors)
    requires id < |rows| && rows[id].status.Sending? && r == RecoverRow(rows[id])
    ensures GoodUpdate(rows, id, r) && !r.status.Failed?
    ensures LimitOk(c, rows[id := r]) && ChainOk(c, rows[id := r], chain) && CursorsOk(rows[id := r], cursors)
  {
    CasKeepsRow(rows[id], r, 0, 1, "", Payload(0, r.order, 0));
    UpdateKeepsChain(c, rows, id, r, chain);
    UpdateKeepsCursors(rows, id, r, cursors);
  }

  lemma BootRecovers(c: Config, s: State, s': State, id: nat, r: Row)
    requires Inv(c, s) && DownOk(s) && !s.up && CursorsOk(s'.rows, s'.cursors) && GoodUpdate(s.rows, id, r)
    requires !r.status.Failed?
    requires s' == s.(up := true, rows := s.rows[id := r], cursors := s'.cursors, ledger := s'.ledger)
    requires LimitOk(c, s'.rows) && ChainOk(c, s'.rows, s'.chain)
    requires s'.ledger.accounts == s.ledger.accounts && LedgerHistory.LedgerMatches(s'.ledger, s'.accepted)
    ensures Inv(c, s')
  {
    UpdateKeepsRest(c, s, id, r);
    BootFrame(c, s, s');
  }

  lemma BootLedger(s: State, cursors: map<string, nat>, retire: bool, s': State)
    requires Boot(s, cursors, retire) == Some(s') && LedgerHistory.LedgerMatches(s.ledger, s.accepted)
    ensures !s.up && CursorsOk(s.rows, cursors) && s'.cursors == cursors
    ensures s'.ledger.accounts == s.ledger.accounts && LedgerHistory.LedgerMatches(s'.ledger, s'.accepted)
  {
    LedgerHistory.DeprecateMatches(s.ledger, s.accepted);
  }

  lemma BootRows(s: State, cursors: map<string, nat>, retire: bool, s': State, id: nat, r: Row)
    requires AllRowsOk(s.rows) && OnlyLastLive(s.rows) && Boot(s, cursors, retire) == Some(s')
    requires LastSending(s.rows) && id == |s.rows| - 1 && r == RecoverRow(s.rows[id])
    ensures s' == s.(up := true, rows := s.rows[id := r], cursors := s'.cursors, ledger := s'.ledger)
  {
    RecoveryIsUpdate(s.rows);
  }

  lemma BootKeepsRows(s: State, cursors: map<string, nat>, retire: bool, s': State)
    requires AllRowsOk(s.rows) && OnlyLastLive(s.rows) && Boot(s, cursors, retire) == Some(s') && !LastSending(s.rows)
    ensures s' == s.(up := true, cursors := s'.cursors, ledger := s'.ledger)
  {
    RecoveryIsUpdate(s.rows);
  }

  predicate LastSending(rows: seq<Row>) {
    rows != [] && rows[|rows| - 1].status.Sending?
  }

  lemma RecoveredKeepsInv(c: Config, s: State, s': State, id: nat, r: Row)
    requires Inv(c, s) && DownOk(s) && !s.up && CursorsOk(s.rows, s'.cursors)
    requires id < |s.rows| && s.rows[id].status.Sending? && r == RecoverRow(s.rows[id])
    requires s' == s.(up := true, rows := s.rows[id := r], cursors := s'.cursors, ledger := s'.ledger)
    requires s'.ledger.accounts == s.ledger.accounts && LedgerHistory.LedgerMatches(s'.ledger, s'.accepted)
    ensures Inv(c, s')
  {
    RecoverFacts(c, s.rows, id, r, s'.cursors, s.chain);
    BootRecovers(c, s, s', id, r);
  }

  lemma BootKeepsInv(c: Config, s: State, cursors: map<string, nat>, retire: bool, s': State)
    requires Inv(c, s) && DownOk(s) && Boot(s, cursors, retire) == Some(s')
    ensures Inv(c, s')
  {
    BootLedger(s, cursors, retire, s');
    if LastSending(s.rows) {
      var id := |s.rows| - 1;
      BootRows(s, cursors, retire, s', id, RecoverRow(s.rows[id]));
      RecoveredKeepsInv(c, s, s', id, RecoverRow(s.rows[id]));
    } else {
      BootKeepsRows(s, cursors, retire, s');
      BootQuietly(c, s, s');
    }
  }

  lemma BootQuietly(c: Config, s: State, s': State)
    requires Inv(c, s) && DownOk(s) && !s.up && CursorsOk(s.rows, s'.cursors)
    requires s' == s.(up := true, cursors := s'.cursors, ledger := s'.ledger)
    requires s'.ledger.accounts == s.ledger.accounts && LedgerHistory.LedgerMatches(s'.ledger, s'.accepted)
    ensures Inv(c, s')
  {
  }

  lemma EnvKeepsInv(c: Config, s: State, a: EnvStep, s': State)
    requires Inv(c, s) && DownOk(s) && EnvNext(c, s, a) == Some(s')
    ensures Inv(c, s')
  {
    match a
    case Tick(n) => TickKeepsInv(c, s, s');
    case NewRecord(r) => AddRecordKeepsInv(c, s, r, s');
    case Logs(logs) => SyncLogsKeepsInv(c, s, logs, s');
    case CrashNow => CrashKeepsInv(c, s, s');
    case BootUp(cursors, retire) => BootKeepsInv(c, s, cursors, retire, s');
    case _ => BlockchainKeepsInv(c, s, a, s');
  }
}
