/** What holds in every reachable state of the payout protocol, one predicate per concern. */
module Invariants {
  import opened Wrappers
  import opened Transactions
  import opened Chains
  import opened RelayLedger
  import opened Protocol
  import Authorization
  import LedgerHistory

  // ---------------------------------------------------------------- the transaction table

  ghost predicate AllRowsOk(rows: seq<Row>) {
    forall i :: 0 <= i < |rows| ==> RowOk(rows[i])
  }

  /** Payouts are globally serial: only the newest row can still change. */
  ghost predicate OnlyLastLive(rows: seq<Row>) {
    forall i :: 0 <= i < |rows| - 1 ==> Terminal(rows[i])
  }

  /** A chain occupies consecutive ids, counts its retries from the root, and fails all but its last row. */
  ghost predicate ChainsOk(rows: seq<Row>) {
    && (forall i :: 0 <= i < |rows| && rows[i].root.None? ==> rows[i].retryCount == 0)
    && (forall i :: 0 <= i < |rows| && rows[i].root.Some? ==> RetryOk(rows, i))
    && (forall i, j :: 0 <= i < j < |rows| && RootOf(rows, i) == RootOf(rows, j) ==> rows[i].status.Failed?)
    && (forall i, j :: 0 <= j <= i < |rows| && RootOf(rows, i) <= j ==> RootOf(rows, j) == RootOf(rows, i))
  }

  ghost predicate RetryOk(rows: seq<Row>, i: nat)
    requires i < |rows| && rows[i].root.Some?
  {
    var root := rows[i].root.value;
    && root < i && rows[root].root.None?
    && rows[i].order == rows[root].order && rows[i].maxRetries == rows[root].maxRetries
    && rows[i].retryCount == i - root
  }

  ghost predicate HashesDistinct(rows: seq<Row>) {
    forall i, j :: 0 <= i < j < |rows| && rows[i].txHash.Some? ==> rows[i].txHash != rows[j].txHash
  }

  ghost predicate NoncesIncrease(rows: seq<Row>) {
    forall i, j ::
      (0 <= i < j < |rows| && rows[i].nonce.Some? && rows[j].nonce.Some?
       && rows[i].order.network == rows[j].order.network)
      ==> rows[i].nonce.value < rows[j].nonce.value
  }

  ghost predicate HasSuccessor(rows: seq<Row>, i: nat) {
    i + 1 < |rows| && rows[i + 1].root.Some? && rows[i + 1].root.value == RootOf(rows, i)
  }

  /** A failed row with retries left has been retried. */
  ghost predicate RetriesCreated(rows: seq<Row>) {
    forall i {:trigger HasSuccessor(rows, i)} ::
      0 <= i < |rows| && rows[i].status.Failed? && rows[i].retryCount < rows[i].maxRetries
      ==> HasSuccessor(rows, i)
  }

  ghost predicate TableOk(rows: seq<Row>) {
    AllRowsOk(rows) && OnlyLastLive(rows) && ChainsOk(rows) && HashesDistinct(rows) && NoncesIncrease(rows)
    && RetriesCreated(rows)
  }

  ghost predicate LimitOk(c: Config, rows: seq<Row>) {
    forall i :: 0 <= i < |rows| && (rows[i].status.Sent? || rows[i].status.Broadcasting?)
      ==> SentLimit(c, rows[i].order.network) >= 1
  }

  /** Rows only move forward, and none disappear. */
  ghost predicate RowsAdvance(a: seq<Row>, b: seq<Row>) {
    |a| <= |b| && forall i :: 0 <= i < |a| ==> Evolves(a[i], b[i])
  }

  // ---------------------------------------------------------------- records and their chains

  ghost predicate OwnedOk(c: Config, rows: seq<Row>, owners: seq<nat>, records: seq<Record>) {
    && |owners| == |rows|
    && (forall i :: 0 <= i < |rows| ==>
          && owners[i] < |records|
          && records[owners[i]].txId == Some(RootOf(rows, i))
          && OrderFor(c, records[owners[i]]) == Some(rows[i].order))
    && (forall k :: 0 <= k < |records| && records[k].txId.Some? ==>
          && records[k].txId.value < |rows| && owners[records[k].txId.value] == k
          && rows[records[k].txId.value].root.None?)
  }

  /** Head-of-line: a record gets a transaction only after every earlier record is finished. */
  ghost predicate Serial(records: seq<Record>) {
    forall j, k :: 0 <= j < k < |records| && records[k].txId.Some? ==> Finished(records[j])
  }

  ghost predicate AllFailed(rows: seq<Row>, owners: seq<nat>, k: nat)
    requires |owners| == |rows|
  {
    forall i :: 0 <= i < |rows| && owners[i] == k ==> IsProvenTerminalFailure(rows[i])
  }

  /** Row `i` paid record `k` and every other attempt provably failed. */
  ghost predicate Paid(rows: seq<Row>, owners: seq<nat>, k: nat, i: nat)
    requires |owners| == |rows|
  {
    && i < |rows| && owners[i] == k && rows[i].status.Confirmed?
    && forall j :: 0 <= j < |rows| && owners[j] == k && j != i ==> IsProvenTerminalFailure(rows[j])
  }

  ghost predicate IsPaid(rows: seq<Row>, owners: seq<nat>, k: nat)
    requires |owners| == |rows|
  {
    exists i: nat :: Paid(rows, owners, k, i)
  }

  ghost predicate IsPaidBy(rows: seq<Row>, owners: seq<nat>, k: nat, hash: Hash)
    requires |owners| == |rows|
  {
    exists i: nat :: Paid(rows, owners, k, i) && rows[i].txHash == Some(hash)
  }

  ghost predicate RejectJustified(c: Config, rows: seq<Row>, owners: seq<nat>, r: Record, k: nat, now: nat)
    requires |owners| == |rows|
  {
    && !r.status.WSuccess? && !r.status.WFinished?
    && AllFailed(rows, owners, k)
    && (r.txId.None? && r.status.WPending? ==> now > r.createdAt + c.timeout)
  }

  ghost predicate HistoryOk(c: Config, rows: seq<Row>, owners: seq<nat>, records: seq<Record>, history: History,
                            now: nat) {
    && |owners| == |rows|
    && (forall k :: k in history.rejects ==> k < |records| && RejectJustified(c, rows, owners, records[k], k, now))
    && (forall k, h :: (k, h) in history.fulfills ==> k < |records| && IsPaidBy(rows, owners, k, h))
    && (forall k :: 0 <= k < |records| && (records[k].status.WSuccess? || records[k].status.WFinished?) ==>
          IsPaid(rows, owners, k))
    && (forall k :: 0 <= k < |records| && records[k].status.WFinished? ==> exists h :: (k, h) in history.fulfills)
    && (forall k :: 0 <= k < |records| && records[k].status.WFinishedRejected? ==> k in history.rejects)
  }

  /**
    No two records share a fingerprint; unless historical, a record's fingerprint is the digest of its own message,
    and what is pending or has a transaction is cleared.
  */
  ghost predicate FingerprintsOk(c: Config, records: seq<Record>, legacy: set<nat>) {
    && (forall j, k :: 0 <= j < k < |records| && records[j].fingerprint.Some? ==>
          records[j].fingerprint != records[k].fingerprint)
    && (forall k :: 0 <= k < |records| && (records[k].status.WPending? || records[k].txId.Some?) && k !in legacy
          ==> Cleared(c, records[k]))
    && (forall k :: 0 <= k < |records| && records[k].fingerprint.Some? && k !in legacy ==>
          records[k].fingerprint.value == c.digest(Authorization.Message(records[k].request)))
  }

  // ---------------------------------------------------------------- the chain

  ghost predicate WasSent(sends: seq<Send>, key: TxKey) {
    exists n :: 0 <= n < |sends| && TxKey(sends[n].payload.order.network, sends[n].payload.hash) == key
  }

  ghost predicate RowOnChain(c: Config, chain: Chain, r: Row)
    requires r.txHash.Some?
  {
    && (Acknowledged(r) ==> KeyOf(r) in chain.known)
    && (!c.receiptsMayVanish && r.status.Confirmed? ==> Final(c, chain, KeyOf(r)) && chain.receipts[KeyOf(r)].ok)
    && (!c.receiptsMayVanish && r.status.Failed? ==> Final(c, chain, KeyOf(r)) && !chain.receipts[KeyOf(r)].ok)
  }

  ghost predicate ChainOk(c: Config, rows: seq<Row>, chain: Chain) {
    && (forall i :: 0 <= i < |rows| && rows[i].txHash.Some? ==> RowOnChain(c, chain, rows[i]))
    && (forall n :: 0 <= n < |chain.sends| ==>
          chain.sends[n].row < |rows| && rows[chain.sends[n].row].signedRaw == Some(chain.sends[n].payload))
    && (forall key :: key in chain.known ==> WasSent(chain.sends, key))
    && (forall key :: key in chain.receipts ==> key in chain.known && chain.receipts[key].block > 0)
  }

  // ---------------------------------------------------------------- actors

  /** The sender owns this claimed row: nobody else moves it out of `Sending`. */
  ghost predicate Owns(rows: seq<Row>, id: nat, copy: Row) {
    id < |rows| && Evolves(copy, rows[id]) && copy.status.Sending? && copy.signedRaw.None? && copy.txHash.None?
    && rows[id].status.Sending?
  }

  ghost predicate Committed(rows: seq<Row>, id: nat, copy: Row) {
    id < |rows| && Evolves(copy, rows[id]) && rows[id].status.Broadcasting?
    && copy.signedRaw.Some? && copy.signedRaw == rows[id].signedRaw && copy.txHash == rows[id].txHash
    && copy.nonce == rows[id].nonce
    && copy.txHash.Some?
  }

  ghost predicate SenderOk(c: Config, rows: seq<Row>, known: set<TxKey>, sender: Sender) {
    match sender
    case Idle => true
    case Synced(id, copy) =>
      id < |rows| && Evolves(copy, rows[id]) && copy.status.Pending? && copy.signedRaw.None? && copy.txHash.None?
    case Checked(id, copy) =>
      id < |rows| && Evolves(copy, rows[id]) && copy.status.Pending? && copy.signedRaw.None? && copy.txHash.None?
    case Claimed(id, copy) => Owns(rows, id, copy)
    case Allowed(id, copy) => Owns(rows, id, copy) && SentLimit(c, copy.order.network) >= 1
    case HasNonce(id, copy, nonce) =>
      && Owns(rows, id, copy) && SentLimit(c, copy.order.network) >= 1
      && AboveAcknowledged(rows, copy.order.network, nonce)
    case Signed(id, copy, payload) =>
      Owns(rows, id, copy) && SentLimit(c, copy.order.network) >= 1 && payload.order == copy.order
      && AboveAcknowledged(rows, copy.order.network, payload.nonce)
    case Releasing(id) => id < |rows|
    case Prepared(id, copy) => Committed(rows, id, copy)
    case Acknowledging(id, copy) => Committed(rows, id, copy) && KeyOf(copy) in known
  }

  ghost predicate JobOk(c: Config, rows: seq<Row>, chain: Chain, job: Job) {
    && job.id < |rows| && Evolves(job.copy, rows[job.id])
    && job.copy.status.Sent? && job.copy.txHash.Some? && job.copy.signedRaw.Some?
    && (job.receipt.Some? ==> job.receipt.value.block > 0)
    && (!c.receiptsMayVanish && job.receipt.Some? ==>
          KeyOf(job.copy) in chain.receipts && chain.receipts[KeyOf(job.copy)] == job.receipt.value)
  }

  ghost predicate JobsOk(c: Config, rows: seq<Row>, chain: Chain, jobs: map<nat, Job>) {
    forall j :: j in jobs ==> JobOk(c, rows, chain, jobs[j])
  }

  /** The in-memory record equals the stored one, unless the commit of its debit was lost. */
  ghost predicate Mirrors(c: Config, rec: Record, stored: Record) {
    rec == stored || (c.commitMayFail && stored.status.WPending? && stored.txId.Some?
                      && rec == stored.(status := WSuccess))
  }

  ghost predicate HeldOk(rows: seq<Row>, owners: seq<nat>, k: nat, held: Option<Held>)
    requires |owners| == |rows|
  {
    held.Some? ==> held.value.id < |rows| && owners[held.value.id] == k && Evolves(held.value.row, rows[held.value.id])
  }

  ghost predicate HeldPaid(rows: seq<Row>, owners: seq<nat>, k: nat, held: Option<Held>)
    requires |owners| == |rows|
  {
    && held.Some? && Paid(rows, owners, k, held.value.id) && held.value.row == rows[held.value.id]
    && held.value.row.txHash.Some?
  }

  ghost predicate GateHolds(seen: GateSeen, r: Record, accounts: map<string, int>, accepted: seq<Log>) {
    && seen.logs <= |accepted| && seen.balance >= r.request.amount + r.fee
    && Balance(accounts, r.request.address) == seen.balance + SignedSum(accepted[seen.logs..], r.request.address)
  }

  /** A pending record without a transaction that is on its way to get one has not been rejected. */
  ghost predicate NotRejected(rec: Record, k: nat, history: History) {
    rec.status.WPending? && rec.txId.None? ==> k !in history.rejects
  }

  ghost predicate ProcRecordOk(c: Config, records: seq<Record>, proc: Proc) {
    !proc.Resting? ==>
      && proc.k < |records|
      && Mirrors(c, proc.rec, records[proc.k])
      && (forall j :: 0 <= j < proc.k ==> Finished(records[j]))
      && (proc.Done? <==> Finished(records[proc.k]))
  }

  ghost predicate ProcPlaceOk(c: Config, rows: seq<Row>, owners: seq<nat>, records: seq<Record>, history: History,
                              now: nat, proc: Proc)
    requires |owners| == |rows| && (!proc.Resting? ==> proc.k < |records|)
  {
    match proc
    case Resting => true
    case Entry(k, rec) => true
    case Top(k, rec, held) => NotRejected(rec, k, history) && HeldOk(rows, owners, k, held)
    case Authorize(k, rec) => rec.status.WPending? && NotRejected(rec, k, history)
    case Unauthorized(k, rec, held) =>
      rec.status.WPending? && rec.txId.Some? && !Cleared(c, rec) && HeldOk(rows, owners, k, held)
    case Revoking(k, rec, held) =>
      rec.status.WPending? && rec.txId.Some? && !Cleared(c, rec) && HeldOk(rows, owners, k, held)
    case Gate(k, rec) =>
      rec.status.WPending? && rec.txId.None? && k !in history.rejects && Cleared(c, rec)
    case Attach(k, rec, balance, logs) =>
      rec.status.WPending? && rec.txId.None? && k !in history.rejects && Cleared(c, rec)
    case Dangling(k, rec, id) =>
      && rec == records[k] && rec.status.WPending? && rec.txId.None?
      && id == |rows| && forall i :: 0 <= i < |rows| ==> Terminal(rows[i])
    case Load(k, rec) => rec.status.WPending? && rec.txId.Some?
    case Poll(k, rec, held) => rec.status.WPending? && rec.txId.Some? && HeldOk(rows, owners, k, held)
    case Debit(k, rec, held) => rec.status.WPending? && rec.txId.Some? && HeldPaid(rows, owners, k, held)
    case Finish(k, rec, held) => !rec.status.WPending? && HeldOk(rows, owners, k, held)
    case Fulfill(k, rec, held) => HeldPaid(rows, owners, k, held) && rec.status.WSuccess?
    case FulfillWrite(k, rec, held) =>
      HeldPaid(rows, owners, k, held) && rec.status.WSuccess? && (k, held.value.row.txHash.value) in history.fulfills
    case RejectCheck(k, rec) =>
      !rec.status.WSuccess? && (rec.txId.None? && rec.status.WPending? ==> now > rec.createdAt + c.timeout)
    case Reject(k, rec) => RejectJustified(c, rows, owners, records[k], k, now) && !rec.status.WSuccess?
    case RejectWrite(k, rec) => k in history.rejects && !rec.status.WSuccess?
    case Timeout(k, rec) => now > rec.createdAt + c.timeout && rec == records[k]
    case TimeoutCancel(k, rec, held) => rec == records[k] && rec.txId.Some? && HeldOk(rows, owners, k, held)
    case TimeoutSettle(k, rec, held) => rec == records[k] && rec.txId.Some? && HeldOk(rows, owners, k, held)
    case Done(k, rec) => true
  }

  ghost predicate QueueOk(records: seq<Record>, proc: Proc, start: nat, queue: seq<Ticket>) {
    && start <= |records|
    && (forall j :: 0 <= j < start ==> Finished(records[j]))
    && (forall m :: 0 <= m < |queue| ==>
          queue[m].k < |records| && queue[m].rec == records[queue[m].k]
          && !Finished(queue[m].rec))
    && (forall m, n :: 0 <= m < n < |queue| ==> queue[m].k < queue[n].k)
    && (!proc.Resting? ==> forall m :: 0 <= m < |queue| ==> proc.k < queue[m].k)
    && (forall m, j :: 0 <= m < |queue| && 0 <= j < queue[m].k && !Finished(records[j]) ==>
          Waiting(proc, queue[..m], j))
  }

  /** Record `j` is being processed or stands earlier in the queue. */
  ghost predicate Waiting(proc: Proc, queue: seq<Ticket>, j: nat) {
    (!proc.Resting? && proc.k == j) || exists m :: 0 <= m < |queue| && queue[m].k == j
  }

  // ---------------------------------------------------------------- money

  ghost predicate Debited(r: Record) {
    r.status.WSuccess? || r.status.WFinished?
  }

  /** What withdrawals have taken from the account of `a`. */
  ghost function Debits(records: seq<Record>, a: string): int {
    if records == [] then 0
    else
      var r := records[|records| - 1];
      Debits(records[..|records| - 1], a)
      + if Debited(r) && r.request.address == a then r.request.amount + r.fee else 0
  }

  ghost predicate GatesOk(records: seq<Record>, gates: map<nat, GateSeen>, accounts: map<string, int>,
                          accepted: seq<Log>) {
    forall k :: 0 <= k < |records| && records[k].txId.Some? && records[k].status.WPending?
      ==> k in gates && GateHolds(gates[k], records[k], accounts, accepted)
  }

  ghost predicate AttachOk(proc: Proc, accounts: map<string, int>, accepted: seq<Log>) {
    proc.Attach? ==> GateHolds(GateSeen(proc.balance, proc.logs), proc.rec, accounts, accepted)
  }

  // ---------------------------------------------------------------- all of it

  ghost predicate Inv(c: Config, s: State) {
    && TableOk(s.rows)
    && LimitOk(c, s.rows)
    && OwnedOk(c, s.rows, s.owners, s.records)
    && Serial(s.records)
    && FingerprintsOk(c, s.records, s.history.legacy)
    && ChainOk(c, s.rows, s.chain)
    && CursorsOk(s.rows, s.cursors)
    && SenderOk(c, s.rows, s.chain.known, s.sender)
    && JobsOk(c, s.rows, s.chain, s.jobs)
    && HistoryOk(c, s.rows, s.owners, s.records, s.history, s.now)
    && ProcRecordOk(c, s.records, s.proc)
    && ProcPlaceOk(c, s.rows, s.owners, s.records, s.history, s.now, s.proc)
    && QueueOk(s.records, s.proc, s.start, s.queue)
    && GatesOk(s.records, s.history.gates, s.ledger.accounts, s.accepted)
    && AttachOk(s.proc, s.ledger.accounts, s.accepted)
    && LedgerHistory.LedgerMatches(s.ledger, s.accepted)
  }

  lemma NoRecordsInv(c: Config, s: State)
    requires Fresh(s) && NoRecords(s)
    ensures Inv(c, s)
  {
    assert TableOk(s.rows) && OwnedOk(c, s.rows, s.owners, s.records);
    assert ChainOk(c, s.rows, s.chain);
    assert HistoryOk(c, s.rows, s.owners, s.records, s.history, s.now);
    assert LedgerHistory.LedgerMatches(s.ledger, s.accepted);
  }

  lemma OneHistoricalInv(c: Config, s: State)
    requires Fresh(s) && OneHistorical(c, s)
    ensures Inv(c, s)
  {
    OneRowOk(c, s);
    assert ChainOk(c, s.rows, s.chain);
    assert HistoryOk(c, s.rows, s.owners, s.records, s.history, s.now);
    assert GateHolds(s.history.gates[0], s.records[0], s.ledger.accounts, s.accepted);
    assert LedgerHistory.LedgerMatches(s.ledger, s.accepted);
  }

  lemma OneRowOk(c: Config, s: State)
    requires Fresh(s) && OneHistorical(c, s)
    ensures TableOk(s.rows) && LimitOk(c, s.rows) && OwnedOk(c, s.rows, s.owners, s.records)
    ensures Serial(s.records) && FingerprintsOk(c, s.records, s.history.legacy)
  {
  }

  lemma InitInv(c: Config, s: State)
    requires Init(c, s)
    ensures Inv(c, s)
  {
    if NoRecords(s) {
      NoRecordsInv(c, s);
    } else {
      OneHistoricalInv(c, s);
    }
  }
}
