/** How the processor's writes to a record affect each invariant. */
module RecordProofs {
  import opened Wrappers
  import opened Transactions
  import opened Chains
  import opened RelayLedger
  import opened Protocol
  import opened Invariants
  import opened TableProofs
  import opened GateProofs

  // ---------------------------------------------------------------- sums over records

  ghost function DebitOf(r: Record, a: string): int {
    if Debited(r) && r.request.address == a then r.request.amount + r.fee else 0
  }

  lemma {:induction false} DebitsUpdate(records: seq<Record>, k: nat, r: Record, a: string)
    requires k < |records|
    ensures Debits(records[k := r], a) == Debits(records, a) - DebitOf(records[k], a) + DebitOf(r, a)
  {
    var n := |records| - 1;
    if k < n {
      DebitsUpdate(records[..n], k, r, a);
      assert records[k := r][..n] == records[..n][k := r];
    } else {
      assert records[k := r][..n] == records[..n];
    }
  }

  // ---------------------------------------------------------------- one record changes

  /** Only bookkeeping columns of record `k` change; what identifies it does not. */
  ghost predicate SameRequest(a: Record, b: Record) {
    && b.remoteId == a.remoteId && b.request == a.request && b.fee == a.fee && b.createdAt == a.createdAt
    && b.signature == a.signature
  }

  lemma WriteKeepsOwned(c: Config, rows: seq<Row>, owners: seq<nat>, records: seq<Record>, k: nat, r: Record)
    requires OwnedOk(c, rows, owners, records) && k < |records| && SameRequest(records[k], r)
    requires r.txId == records[k].txId
    ensures OwnedOk(c, rows, owners, records[k := r])
  {
  }

  lemma WriteKeepsSerial(records: seq<Record>, k: nat, r: Record)
    requires Serial(records) && k < |records| && r.txId == records[k].txId && (Finished(records[k]) ==> Finished(r))
    ensures Serial(records[k := r])
  {
  }

  lemma WriteKeepsQueue(records: seq<Record>, proc: Proc, proc': Proc, start: nat, queue: seq<Ticket>, r: Record)
    requires QueueOk(records, proc, start, queue) && !proc.Resting? && !proc'.Resting? && proc.k == proc'.k
    requires proc.k < |records| && (Finished(records[proc.k]) ==> Finished(r))
    ensures QueueOk(records[proc.k := r], proc', start, queue)
  {
    WriteOpensNoGap(records, proc, proc', queue, r);
    assert forall m :: 0 <= m < |queue| ==> records[proc.k := r][queue[m].k] == records[queue[m].k];
  }

  lemma WriteOpensNoGap(records: seq<Record>, proc: Proc, proc': Proc, queue: seq<Ticket>, r: Record)
    requires !proc.Resting? && !proc'.Resting? && proc.k == proc'.k && proc.k < |records|
    requires forall m :: 0 <= m < |queue| ==> queue[m].k < |records|
    requires forall m, j :: 0 <= m < |queue| && 0 <= j < queue[m].k && !Finished(records[j]) ==>
               Waiting(proc, queue[..m], j)
    ensures forall m, j :: 0 <= m < |queue| && 0 <= j < queue[m].k && !Finished(records[proc.k := r][j]) ==>
              Waiting(proc', queue[..m], j)
  {
    forall m, j | 0 <= m < |queue| && 0 <= j < queue[m].k && !Finished(records[proc.k := r][j])
      ensures Waiting(proc', queue[..m], j)
    {
      assert j == proc.k || Waiting(proc, queue[..m], j);
    }
  }

  /** The status of record `k` may become `status`. */
  ghost predicate StatusJustified(rows: seq<Row>, owners: seq<nat>, records: seq<Record>, history: History, k: nat,
                                  status: WithdrawStatus)
    requires |owners| == |rows|
  {
    && k < |records| && !status.WPending? && !Finished(records[k])
    && (status.WSuccess? || status.WFinished? ==> IsPaid(rows, owners, k))
    && (status.WFinished? ==> exists h :: (k, h) in history.fulfills)
    && (status.WFinishedRejected? ==> k in history.rejects)
    && (status.WFailed? ==> records[k].status.WPending?)
  }

  lemma StatusKeepsHistory(c: Config, rows: seq<Row>, owners: seq<nat>, records: seq<Record>, history: History,
                           now: nat, k: nat, status: WithdrawStatus)
    requires HistoryOk(c, rows, owners, records, history, now)
    requires StatusJustified(rows, owners, records, history, k, status)
    ensures HistoryOk(c, rows, owners, SetStatus(records, k, status), history, now)
  {
    var records' := SetStatus(records, k, status);
    if IsPaid(rows, owners, k) {
      PaidNotFailed(rows, owners, k);
    }
    forall n | n in history.rejects ensures n < |records'| && RejectJustified(c, rows, owners, records'[n], n, now) {
      assert RejectJustified(c, rows, owners, records[n], n, now);
    }
  }

  lemma StatusKeepsFingerprints(c: Config, records: seq<Record>, legacy: set<nat>, k: nat, status: WithdrawStatus)
    requires FingerprintsOk(c, records, legacy) && k < |records| && !status.WPending?
    ensures FingerprintsOk(c, SetStatus(records, k, status), legacy)
  {
  }

  lemma StatusKeepsGates(records: seq<Record>, gates: map<nat, GateSeen>, accounts: map<string, int>,
                         accepted: seq<Log>, k: nat, status: WithdrawStatus)
    requires GatesOk(records, gates, accounts, accepted) && k < |records| && !status.WPending?
    ensures GatesOk(SetStatus(records, k, status), gates, accounts, accepted)
  {
  }

  /** Only the record being processed can be attached and pending, so a debit of it breaks no other gate. */
  lemma DebitKeepsGates(records: seq<Record>, gates: map<nat, GateSeen>, accounts': map<string, int>,
                        accepted: seq<Log>, k: nat)
    requires Serial(records) && k < |records| && !Finished(records[k])
    requires (forall j :: 0 <= j < k ==> Finished(records[j]))
    ensures GatesOk(SetStatus(records, k, WSuccess), gates, accounts', accepted)
  {
  }

  // ---------------------------------------------------------------- a record gets its row

  /** Nothing in the table can change any more when an unattached record is the first unfinished one. */
  lemma AllTerminal(c: Config, s: State, k: nat)
    requires OwnedOk(c, s.rows, s.owners, s.records) && Serial(s.records)
    requires HistoryOk(c, s.rows, s.owners, s.records, s.history, s.now)
    requires k < |s.records| && s.records[k].txId.None? && !Finished(s.records[k])
    requires forall j :: 0 <= j < k ==> Finished(s.records[j])
    ensures forall i :: 0 <= i < |s.rows| ==> Terminal(s.rows[i])
  {
    forall i | 0 <= i < |s.rows| ensures Terminal(s.rows[i]) {
      assert s.records[s.owners[i]].txId.Some?;
      FinishedIsTerminal(c, s.rows, s.owners, s.records, s.history, s.now, i);
    }
  }

  lemma AttachKeepsOwned(c: Config, rows: seq<Row>, owners: seq<nat>, records: seq<Record>, k: nat, r: Record, row: Row)
    requires OwnedOk(c, rows, owners, records) && k < |records| && SameRequest(records[k], r)
    requires records[k].txId.None? && r.txId == Some(|rows|)
    requires row.root.None? && OrderFor(c, records[k]) == Some(row.order)
    ensures OwnedOk(c, rows + [row], owners + [k], records[k := r])
  {
    var rows', owners', records' := rows + [row], owners + [k], records[k := r];
    forall i | 0 <= i < |rows'|
      ensures owners'[i] < |records'| && records'[owners'[i]].txId == Some(RootOf(rows', i))
      ensures OrderFor(c, records'[owners'[i]]) == Some(rows'[i].order)
    {
      if i < |rows| {
        assert rows'[i] == rows[i] && RootOf(rows', i) == RootOf(rows, i) && owners[i] != k;
      }
    }
  }

  lemma AttachKeepsSerial(records: seq<Record>, k: nat, r: Record)
    requires Serial(records) && k < |records| && !Finished(records[k]) && !Finished(r)
    requires forall j :: 0 <= j < k ==> Finished(records[j])
    ensures Serial(records[k := r])
  {
  }

  lemma AttachKeepsPaid(rows: seq<Row>, owners: seq<nat>, row: Row, k: nat, n: nat, i: nat)
    requires |owners| == |rows| && Paid(rows, owners, n, i) && n != k
    ensures Paid(rows + [row], owners + [k], n, i)
  {
  }

  lemma AttachKeepsHistory(c: Config, rows: seq<Row>, owners: seq<nat>, records: seq<Record>, history: History,
                           now: nat,
                           k: nat, r: Record, row: Row, gates: map<nat, GateSeen>)
    requires OwnedOk(c, rows, owners, records) && HistoryOk(c, rows, owners, records, history, now)
    requires k < |records| && records[k].txId.None? && records[k].status.WPending?
    requires r == records[k].(txId := Some(|rows|))
    requires k !in history.rejects
    ensures HistoryOk(c, rows + [row], owners + [k], records[k := r], history.(gates := gates), now)
  {
    var rows', owners', records' := rows + [row], owners + [k], records[k := r];
    forall n | n in history.rejects ensures RejectJustified(c, rows', owners', records'[n], n, now) {
      assert RejectJustified(c, rows, owners, records[n], n, now);
    }
    forall n, h | (n, h) in history.fulfills ensures IsPaidBy(rows', owners', n, h) {
      var i: nat :| Paid(rows, owners, n, i) && rows[i].txHash == Some(h);
      AttachKeepsPaid(rows, owners, row, k, n, i);
    }
    forall n | 0 <= n < |records'| && (records'[n].status.WSuccess? || records'[n].status.WFinished?)
      ensures IsPaid(rows', owners', n)
    {
      var i: nat :| Paid(rows, owners, n, i);
      AttachKeepsPaid(rows, owners, row, k, n, i);
    }
  }

  lemma AttachKeepsTable(c: Config, rows: seq<Row>, row: Row, chain: Chain, cursors: map<string, nat>, jobs: map<nat,
                         Job>, sender: Sender)
    requires TableOk(rows) && LimitOk(c, rows) && (forall i :: 0 <= i < |rows| ==> Terminal(rows[i]))
    requires ChainOk(c, rows, chain) && CursorsOk(rows, cursors) && JobsOk(c, rows, chain, jobs)
    requires SenderOk(c, rows, chain.known, sender)
    requires RowOk(row) && row.root.None? && row.retryCount == 0 && row.status.Pending?
    ensures var rows' := rows + [row];
            && TableOk(rows') && LimitOk(c, rows') && ChainOk(c, rows', chain) && CursorsOk(rows', cursors)
            && JobsOk(c, rows', chain, jobs) && SenderOk(c, rows', chain.known, sender)
  {
    var rows' := rows + [row];
    AppendRootKeepsTable(rows, row);
    AdvanceKeepsJobs(c, rows, rows', chain, jobs);
    assert forall i :: 0 <= i < |rows| ==> rows'[i] == rows[i];
    forall network | network in cursors ensures AboveAcknowledged(rows', network, cursors[network]) {
      assert AboveAcknowledged(rows, network, cursors[network]);
    }
  }

  lemma AttachKeepsGates(records: seq<Record>, gates: map<nat, GateSeen>, accounts: map<string, int>,
                         accepted: seq<Log>,
                         k: nat, r: Record, seen: GateSeen)
    requires GatesOk(records, gates, accounts, accepted) && k < |records| && r == records[k].(txId := r.txId)
    requires GateHolds(seen, records[k], accounts, accepted)
    ensures GatesOk(records[k := r], gates[k := seen], accounts, accepted)
  {
  }

  lemma AttachKeepsFingerprints(c: Config, records: seq<Record>, legacy: set<nat>, k: nat, r: Record)
    requires FingerprintsOk(c, records, legacy) && k < |records| && r == records[k].(txId := r.txId) && Cleared(c, r)
    ensures FingerprintsOk(c, records[k := r], legacy)
  {
  }
}
