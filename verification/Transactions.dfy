/**
  One row of the `blockchain_transactions` table and the conditional updates on it.

  Every transition in models/blockchain_transaction.go is an UPDATE guarded by a WHERE clause on
  status, hash, raw payload and cancellation flag. Each is a `Cas...` function here: `None` when
  the WHERE clause matches nothing, `Some(r')` when the row becomes `r'`.
*/
module Transactions {
  import opened Wrappers

  type Hash = nat

  datatype Status = Pending | Sent | Confirmed | Failed | Sending | Cancelled | Broadcasting

  const TIMED_OUT := "Transaction timed out"
  const RECEIPT_DELAYED := "Transaction receipt delayed"

  /** The transfer a row asks for: the columns network, type, from, to, value and data. */
  datatype Order =
    | Native(network: string, payer: string, payee: string, amount: nat)
    | Erc20(network: string, payer: string, token: string, payee: string, amount: nat)

  /** A signed raw transaction together with its hash. */
  datatype Payload = Payload(hash: Hash, order: Order, nonce: nat)

  datatype Row = Row(
    order: Order,
    status: Status,
    txHash: Option<Hash>,
    signedRaw: Option<Payload>,
    nonce: Option<nat>,
    blockNumber: Option<nat>,
    statusMessage: Option<string>,
    retryCount: nat,
    maxRetries: nat,
    root: Option<nat>,
    sentAt: Option<nat>,
    cancelRequestedAt: Option<nat>)

  // ---------------------------------------------------------------- predicates of the source

  predicate IsReceiptTimeoutFailure(r: Row) {
    r.status.Failed? && r.statusMessage == Some(TIMED_OUT)
  }

  predicate HasCommittedBroadcast(r: Row) {
    r.txHash.Some? || r.signedRaw.Some? || r.status.Broadcasting? || r.status.Sent?
  }

  predicate IsProvenUnbroadcastedCancellation(r: Row) {
    r.status.Cancelled? && !HasCommittedBroadcast(r)
  }

  predicate IsProvenOnChainFailure(r: Row) {
    && r.status.Failed?
    && r.txHash.Some?
    && r.blockNumber.Some? && r.blockNumber.value > 0
    && !IsReceiptTimeoutFailure(r)
  }

  predicate IsProvenTerminalFailure(r: Row) {
    IsProvenUnbroadcastedCancellation(r) || IsProvenOnChainFailure(r)
  }

  predicate IsBlockingUncertainty(r: Row) {
    && !IsProvenTerminalFailure(r) && !r.status.Confirmed?
    && !r.status.Pending? && !r.status.Sending?
  }

  predicate Terminal(r: Row) {
    r.status.Confirmed? || r.status.Failed? || r.status.Cancelled?
  }

  /** The receipt side of a row: the network has acknowledged its payload. */
  predicate Acknowledged(r: Row) {
    r.status.Sent? || r.status.Confirmed? || r.status.Failed?
  }

  // ---------------------------------------------------------------- conditional updates

  function CasClaim(r: Row): Option<Row> {
    if r.status.Pending? && r.txHash.None? && r.signedRaw.None? && r.cancelRequestedAt.None?
    then Some(r.(status := Sending)) else None
  }

  /** An empty message leaves `status_message` alone; so does a pending cancellation. */
  function CasRelease(r: Row, message: string): Option<Row> {
    if r.status.Sending? && r.txHash.None? && r.signedRaw.None? then
      if r.cancelRequestedAt.Some? then Some(r.(status := Cancelled))
      else if message == "" then Some(r.(status := Pending))
      else Some(r.(status := Pending, statusMessage := Some(message)))
    else None
  }

  function CasPrepare(r: Row, p: Payload): Option<Row> {
    if r.status.Sending? && r.txHash.None? && r.signedRaw.None? && r.cancelRequestedAt.None?
    then Some(r.(status := Broadcasting, txHash := Some(p.hash), nonce := Some(p.nonce), signedRaw := Some(p)))
    else None
  }

  function CasMarkSent(r: Row, now: nat): Option<Row> {
    if r.status.Broadcasting? && r.txHash.Some? && r.signedRaw.Some?
    then Some(r.(status := Sent, sentAt := Some(now))) else None
  }

  function CasRequestCancellation(r: Row, now: nat, reason: string): Option<Row> {
    if (r.status.Pending? || r.status.Sending?) && r.txHash.None? && r.signedRaw.None? && r.cancelRequestedAt.None?
    then Some(r.(cancelRequestedAt := Some(now), statusMessage := Some(reason))) else None
  }

  function CasCancelRequested(r: Row): Option<Row> {
    if r.status.Pending? && r.txHash.None? && r.signedRaw.None? && r.cancelRequestedAt.Some?
    then Some(r.(status := Cancelled)) else None
  }

  function CasMarkConfirmed(r: Row, block: nat): Option<Row> {
    if r.status.Sent? then Some(r.(status := Confirmed, blockNumber := Some(block))) else None
  }

  function CasMarkFailedFromSent(r: Row, block: nat, message: string): Option<Row> {
    if r.status.Sent? && r.txHash.Some?
    then Some(r.(status := Failed, blockNumber := Some(block), statusMessage := Some(message))) else None
  }

  function CasMarkReceiptDelayed(r: Row): Option<Row> {
    if r.status.Sent? && r.statusMessage != Some(RECEIPT_DELAYED)
    then Some(r.(statusMessage := Some(RECEIPT_DELAYED))) else None
  }

  /** What startup recovery does to one row. */
  function RecoverRow(r: Row): Row {
    if r.status.Sending? && r.txHash.None? && r.signedRaw.None? then
      if r.cancelRequestedAt.None? then r.(status := Pending) else r.(status := Cancelled)
    else r
  }

  /** A fresh row for `order`. */
  function NewRow(order: Order, maxRetries: nat): Row {
    Row(order, Pending, None, None, None, None, None, 0, maxRetries, None, None, None)
  }

  function RootTransactionId(id: nat, r: Row): nat {
    if r.root.Some? then r.root.value else id
  }

  /** The row CreateRetryTransaction inserts; the retry count is an 8-bit column. */
  function RetryRow(id: nat, r: Row): Row {
    NewRow(r.order, r.maxRetries).(retryCount := (r.retryCount + 1) % 256, root := Some(RootTransactionId(id, r)))
  }

  // ---------------------------------------------------------------- how a row may change

  /** Which columns belong to which status, in every reachable state. */
  predicate RowOk(r: Row) {
    && (r.signedRaw.Some? <==> r.status.Broadcasting? || Acknowledged(r))
    && (r.txHash.Some? <==> r.signedRaw.Some?)
    && (r.nonce.Some? <==> r.signedRaw.Some?)
    && (r.signedRaw.Some? ==>
          && r.txHash == Some(r.signedRaw.value.hash)
          && r.nonce == Some(r.signedRaw.value.nonce)
          && r.signedRaw.value.order == r.order)
    && (r.cancelRequestedAt.Some? ==> r.status.Pending? || r.status.Sending? || r.status.Cancelled?)
    && (r.status.Cancelled? ==> r.cancelRequestedAt.Some?)
    && (Acknowledged(r) ==> r.sentAt.Some?)
    && (r.status.Confirmed? || r.status.Failed? ==> r.blockNumber.Some? && r.blockNumber.value > 0)
    && r.retryCount <= r.maxRetries <= 255
  }

  predicate StatusReaches(a: Status, b: Status) {
    match a
    case Pending => true
    case Sending => true
    case Broadcasting => b.Broadcasting? || b.Sent? || b.Confirmed? || b.Failed?
    case Sent => b.Sent? || b.Confirmed? || b.Failed?
    case Confirmed => b.Confirmed?
    case Failed => b.Failed?
    case Cancelled => b.Cancelled?
  }

  /**
    `b` is a later version of the row `a`: the order and the retry columns never change, a persisted
    payload never changes, a cancellation request keeps its time and reason and leaves no way but to
    `Cancelled`, a terminal row is frozen, and the status only moves forward. A stale in-memory copy is an
    `a` for the stored `b`.
  */
  predicate Evolves(a: Row, b: Row) {
    && b.order == a.order && b.retryCount == a.retryCount && b.maxRetries == a.maxRetries && b.root == a.root
    && (a.signedRaw.Some? ==> b.signedRaw == a.signedRaw && b.txHash == a.txHash && b.nonce == a.nonce)
    && (a.cancelRequestedAt.Some? ==>
          && b.cancelRequestedAt == a.cancelRequestedAt && b.statusMessage == a.statusMessage
          && (b.status == a.status || b.status.Cancelled?))
    && (Terminal(a) ==> b == a)
    && StatusReaches(a.status, b.status)
  }

  lemma EvolvesTransitive(a: Row, b: Row, c: Row)
    requires Evolves(a, b) && Evolves(b, c)
    ensures Evolves(a, c)
  {
  }

  /** Every conditional update keeps a row well-formed and moves it forward. */
  lemma CasKeepsRow(r: Row, r': Row, now: nat, block: nat, text: string, p: Payload)
    requires RowOk(r) && block > 0 && p.order == r.order
    requires || CasClaim(r) == Some(r') || CasRelease(r, text) == Some(r') || CasPrepare(r, p) == Some(r')
             || CasMarkSent(r, now) == Some(r') || CasRequestCancellation(r, now, text) == Some(r')
             || CasCancelRequested(r) == Some(r') || CasMarkConfirmed(r, block) == Some(r')
             || CasMarkFailedFromSent(r, block, text) == Some(r') || CasMarkReceiptDelayed(r) == Some(r')
             || RecoverRow(r) == r'
    ensures RowOk(r') && Evolves(r, r')
  {
  }
}
