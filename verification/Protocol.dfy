/**
  The payout protocol as a state machine over its atomic database, network and Relay steps.

  Three actors share the database: the serial sender (blockchain/transaction_sender.go), any number
  of concurrent confirmers holding possibly stale copies (blockchain/transaction_confirmer.go) and
  the withdrawal processor (tasks/process_withdrawal_requests.go). A crash may happen between any
  two steps and forgets everything that is not in the database; startup recovery runs before the
  workers. `owners`, `accepted` and `history` are bookkeeping that no step reads.
*/
module Protocol {
  import opened Wrappers
  import opened Transactions
  import opened Chains
  import opened RelayLedger
  import Authorization
  import LedgerHistory

  // ---------------------------------------------------------------- configuration

  type uint8 = x: int | 0 <= x < 256

  datatype Network = Network(token: Option<string>, account: string, maxRetries: uint8, sentLimit: nat, depth: nat)

  /**
    `commitMayFail` admits a debit or attach transaction whose commit is lost after its body has run;
    `receiptsMayVanish` admits a reorganisation between a confirmer's reads of a receipt and of the head.
    `signs` tells whether a signature over a request's message was made by the requester's own key.
  */
  datatype Config = Config(networks: map<string, Network>, timeout: nat, batchSize: nat, vestingSigner: string,
                           digest: string -> string, signs: (Authorization.Request, string) -> bool,
                           commitMayFail: bool, receiptsMayVanish: bool)

  // ---------------------------------------------------------------- withdrawal records

  datatype WithdrawStatus = WPending | WSuccess | WFailed | WFinished | WFinishedRejected

  datatype Record = Record(remoteId: nat, request: Authorization.Request, fee: nat, status: WithdrawStatus,
                           txId: Option<nat>, fingerprint: Option<string>, createdAt: nat, signature: string)

  function Total(r: Record): nat {
    r.request.amount + r.fee
  }

  predicate Finished(r: Record) {
    r.status.WFinished? || r.status.WFinishedRejected?
  }

  function Fingerprint(c: Config, r: Record): string {
    c.digest(Authorization.Message(r.request))
  }

  /** validateWithdrawalAuthorization: a missing timestamp or signature is as good as a wrong one. */
  predicate Authorised(c: Config, r: Record) {
    r.request.timestamp != 0 && r.signature != "" && c.signs(r.request, r.signature)
  }

  /** Authorised and stored with its own fingerprint, so that checking it again reads nothing from the database. */
  predicate Cleared(c: Config, r: Record) {
    Authorised(c, r) && r.fingerprint == Some(Fingerprint(c, r))
  }

  /** The transfer that pays a record, or `None` when its network is not configured. */
  function OrderFor(c: Config, r: Record): Option<Order> {
    var q := r.request;
    var payee := if q.benefit != "" then q.benefit else q.address;
    if q.network !in c.networks then None
    else
      var n := c.networks[q.network];
      if n.token.None? then Some(Native(q.network, n.account, payee, q.amount))
      else Some(Erc20(q.network, n.account, n.token.value, payee, q.amount))
  }

  predicate Overdue(c: Config, r: Record, now: nat) {
    now > r.createdAt + c.timeout
  }

  // ---------------------------------------------------------------- the blockchain

  datatype TxKey = TxKey(network: string, hash: Hash)

  datatype Receipt = Receipt(ok: bool, block: nat)

  datatype Send = Send(row: nat, payload: Payload)

  /** `known`: payloads that reached the network. `sends`: every submission attempt, in order. */
  datatype Chain = Chain(heads: map<string, nat>, known: set<TxKey>, receipts: map<TxKey, Receipt>, sends: seq<Send>)

  function Head(chain: Chain, network: string): nat {
    if network in chain.heads then chain.heads[network] else 0
  }

  function Depth(c: Config, network: string): nat {
    if network in c.networks then c.networks[network].depth else 0
  }

  /** receiptHasRequiredConfirmations: the subtraction is guarded, so it never wraps. */
  predicate HasRequiredConfirmations(latest: nat, block: nat, required: nat) {
    latest >= block && latest - block >= required
  }

  /** A receipt deep enough never changes again. */
  predicate Final(c: Config, chain: Chain, key: TxKey) {
    && key in chain.receipts && key.network in c.networks
    && HasRequiredConfirmations(Head(chain, key.network), chain.receipts[key].block, Depth(c, key.network))
  }

  function KeyOf(r: Row): TxKey
    requires r.txHash.Some?
  {
    TxKey(r.order.network, r.txHash.value)
  }

  // ---------------------------------------------------------------- actors

  datatype Sender =
    | Idle
    | Synced(id: nat, copy: Row)
    | Checked(id: nat, copy: Row)
    | Claimed(id: nat, copy: Row)
    | Allowed(id: nat, copy: Row)
    | HasNonce(id: nat, copy: Row, nonce: nat)
    | Signed(id: nat, copy: Row, payload: Payload)
    | Releasing(id: nat)
    | Prepared(id: nat, copy: Row)
    | Acknowledging(id: nat, copy: Row)

  datatype Job = Job(id: nat, copy: Row, receipt: Option<Receipt>)

  datatype Held = Held(id: nat, row: Row)

  /** Where the processor is inside processWithdrawalRecordWithRetry for record `k`. */
  datatype Proc =
    | Resting
    | Entry(k: nat, rec: Record)
    | Top(k: nat, rec: Record, held: Option<Held>)
    | Authorize(k: nat, rec: Record)
    | Unauthorized(k: nat, rec: Record, held: Option<Held>)
    | Revoking(k: nat, rec: Record, held: Option<Held>)
    | Gate(k: nat, rec: Record)
    | Attach(k: nat, rec: Record, balance: int, logs: nat)
    | Dangling(k: nat, rec: Record, id: nat)
    | Load(k: nat, rec: Record)
    | Poll(k: nat, rec: Record, held: Option<Held>)
    | Debit(k: nat, rec: Record, held: Option<Held>)
    | Finish(k: nat, rec: Record, held: Option<Held>)
    | Fulfill(k: nat, rec: Record, held: Option<Held>)
    | FulfillWrite(k: nat, rec: Record, held: Option<Held>)
    | RejectCheck(k: nat, rec: Record)
    | Reject(k: nat, rec: Record)
    | RejectWrite(k: nat, rec: Record)
    | Timeout(k: nat, rec: Record)
    | TimeoutCancel(k: nat, rec: Record, held: Option<Held>)
    | TimeoutSettle(k: nat, rec: Record, held: Option<Held>)
    | Done(k: nat, rec: Record)

  datatype Ticket = Ticket(k: nat, rec: Record)

  /** The balance seen by the execution gate and how many logs had been applied by then. */
  datatype GateSeen = GateSeen(balance: int, logs: nat)

  /** `legacy`: records that had a transaction, but no clearance, before the run began. */
  datatype History = History(rejects: set<nat>, fulfills: set<(nat, Hash)>, gates: map<nat, GateSeen>, legacy: set<nat>)

  datatype State = State(
    rows: seq<Row>, owners: seq<nat>, records: seq<Record>,
    ledger: Ledger, accepted: seq<Log>, opening: map<string, int>,
    chain: Chain,
    sender: Sender, cursors: map<string, nat>,
    jobs: map<nat, Job>,
    proc: Proc, start: nat, queue: seq<Ticket>,
    up: bool, now: nat,
    history: History)

  // ---------------------------------------------------------------- environment

  /** Inserting with ON CONFLICT DO NOTHING skips a record whose remote id or fingerprint is taken. */
  predicate Conflicts(records: seq<Record>, r: Record) {
    exists k :: 0 <= k < |records|
      && (records[k].remoteId == r.remoteId || (r.fingerprint.Some? && records[k].fingerprint == r.fingerprint))
  }

  /**
    syncWithdrawalRequests stores an authorised request as pending and with its fingerprint, once it has passed
    checkWithdrawalRequests: a positive total, a known network and a beneficiary that equals an on-chain
    address. A request without a valid or with a replayed authorisation is stored as failed.
  */
  predicate Storable(c: Config, r: Record) {
    && r.txId.None?
    && if r.status.WPending?
       then Cleared(c, r) && Total(r) > 0 && r.request.network in c.networks && r.request.benefit != ""
       else r.status.WFailed? && r.fingerprint.None?
  }

  function AddRecord(c: Config, s: State, r: Record): Option<State> {
    if !s.up || !Storable(c, r) || r.createdAt != s.now then None
    else if Conflicts(s.records, r) then Some(s)
    else Some(s.(records := s.records + [r]))
  }

  function SyncLogs(c: Config, s: State, logs: seq<Log>): Option<State> {
    if !s.up then None
    else
      match ApplyBatch(c.vestingSigner, s.now, s.ledger, logs)
      case Err(_) => Some(s)
      case Ok(l) => Some(s.(ledger := l, accepted := s.accepted + logs))
  }

  function Mine(s: State, key: TxKey, ok: bool): Option<State> {
    if key !in s.chain.known || key in s.chain.receipts then None
    else
      var block := Head(s.chain, key.network) + 1;
      Some(s.(chain := s.chain.(heads := s.chain.heads[key.network := block],
                                receipts := s.chain.receipts[key := Receipt(ok, block)])))
  }

  function Grow(s: State, network: string, blocks: nat): Option<State> {
    Some(s.(chain := s.chain.(heads := s.chain.heads[network := Head(s.chain, network) + blocks])))
  }

  /** A shallow receipt may be reorganised away, also one that a confirmer has just read if that is admitted. */
  function Reorg(c: Config, s: State, key: TxKey): Option<State> {
    if key !in s.chain.receipts || Final(c, s.chain, key) || (!c.receiptsMayVanish && HeldByJob(s.jobs, key)) then None
    else Some(s.(chain := s.chain.(receipts := s.chain.receipts - {key})))
  }

  predicate HeldByJob(jobs: map<nat, Job>, key: TxKey) {
    exists j :: j in jobs && jobs[j].receipt.Some? && jobs[j].copy.txHash.Some? && KeyOf(jobs[j].copy) == key
  }

  function Crash(s: State): Option<State> {
    Some(s.(up := false, sender := Idle, cursors := map[], jobs := map[], proc := Resting, start := 0, queue := []))
  }

  function RecoverRows(rows: seq<Row>): seq<Row> {
    seq(|rows|, i requires 0 <= i < |rows| => RecoverRow(rows[i]))
  }

  /** The node's pending nonce lies above every nonce it has acknowledged. */
  predicate AboveAcknowledged(rows: seq<Row>, network: string, nonce: nat) {
    forall i :: 0 <= i < |rows| && rows[i].order.network == network && Acknowledged(rows[i]) && rows[i].nonce.Some?
      ==> rows[i].nonce.value < nonce
  }

  predicate CursorsOk(rows: seq<Row>, cursors: map<string, nat>) {
    forall network :: network in cursors ==> AboveAcknowledged(rows, network, cursors[network])
  }

  /** Startup: nonce cursors are read from the nodes, then RecoverLegacySendingTransactions. */
  function Boot(s: State, cursors: map<string, nat>, retireGrants: bool): Option<State> {
    if s.up || !CursorsOk(s.rows, cursors) then None
    else
      Some(s.(up := true, rows := RecoverRows(s.rows), cursors := cursors,
              ledger := if retireGrants then s.ledger.(grants := LedgerHistory.Deprecate(s.ledger.grants))
                        else s.ledger))
  }

  // ---------------------------------------------------------------- sender

  predicate HasBroadcasting(rows: seq<Row>, network: string) {
    exists i :: 0 <= i < |rows| && rows[i].status.Broadcasting? && rows[i].order.network == network
  }

  function InFlight(rows: seq<Row>, network: string): nat {
    if rows == [] then 0
    else
      var r := rows[|rows| - 1];
      InFlight(rows[..|rows| - 1], network)
      + if (r.status.Sent? || r.status.Broadcasting?) && r.order.network == network then 1 else 0
  }

  function SentLimit(c: Config, network: string): nat {
    if network in c.networks then c.networks[network].sentLimit else 0
  }

  function SenderSync(s: State, id: nat): Option<State> {
    if !s.sender.Idle? || id >= |s.rows| then None
    else
      var r := s.rows[id];
      if r.status.Broadcasting? && r.txHash.Some? && r.signedRaw.Some? && r.nonce.Some? then
        Some(s.(sender := Prepared(id, r)))
      else if r.status.Pending? && r.txHash.None? && r.signedRaw.None? then
        Some(s.(sender := Synced(id, r)))
      else Some(s)
  }

  function SenderCheck(s: State): Option<State> {
    if !s.sender.Synced? then None
    else if HasBroadcasting(s.rows, s.sender.copy.order.network) then Some(s.(sender := Idle))
    else Some(s.(sender := Checked(s.sender.id, s.sender.copy)))
  }

  /** Every chain member before `id` has a proven on-chain failure. */
  predicate AncestorsProven(rows: seq<Row>, id: nat, root: nat) {
    forall j :: 0 <= j < |rows| && j < id && RootOf(rows, j) == root ==> IsProvenOnChainFailure(rows[j])
  }

  function SenderClaim(s: State): Option<State> {
    if !s.sender.Checked? || s.sender.id >= |s.rows| then None
    else
      var id, copy := s.sender.id, s.sender.copy;
      if copy.root.Some? && !AncestorsProven(s.rows, id, copy.root.value) then Some(s.(sender := Idle))
      else
        match CasClaim(s.rows[id])
        case None => Some(s.(sender := Idle))
        case Some(r) => Some(s.(rows := s.rows[id := r], sender := Claimed(id, copy.(status := Sending))))
  }

  function SenderCheckLimit(c: Config, s: State): Option<State> {
    if !s.sender.Claimed? then None
    else
      var id, copy := s.sender.id, s.sender.copy;
      if InFlight(s.rows, copy.order.network) < SentLimit(c, copy.order.network)
      then Some(s.(sender := Allowed(id, copy)))
      else Some(s.(sender := Releasing(id)))
  }

  function SenderTakeNonce(s: State, pending: nat): Option<State> {
    if !s.sender.Allowed? || !AboveAcknowledged(s.rows, s.sender.copy.order.network, pending) then None
    else
      var id, copy := s.sender.id, s.sender.copy;
      var network := copy.order.network;
      var nonce := if network in s.cursors then s.cursors[network] else pending;
      Some(s.(cursors := s.cursors[network := nonce], sender := HasNonce(id, copy, nonce)))
  }

  function SenderSign(s: State, payload: Payload): Option<State> {
    if !s.sender.HasNonce? || payload.order != s.sender.copy.order || payload.nonce != s.sender.nonce then None
    else Some(s.(sender := Signed(s.sender.id, s.sender.copy, payload)))
  }

  /** The unique index on `tx_hash`. */
  predicate HashTaken(rows: seq<Row>, hash: Hash) {
    exists i :: 0 <= i < |rows| && rows[i].txHash == Some(hash)
  }

  function SenderPrepare(s: State): Option<State> {
    if !s.sender.Signed? || s.sender.id >= |s.rows| then None
    else
      var id, copy, p := s.sender.id, s.sender.copy, s.sender.payload;
      if HashTaken(s.rows, p.hash) then Some(s.(sender := Releasing(id)))
      else
        match CasPrepare(s.rows[id], p)
        case None => Some(s.(sender := Releasing(id)))
        case Some(r) =>
          Some(s.(rows := s.rows[id := r],
                  sender := Prepared(id, copy.(status := Broadcasting, txHash := Some(p.hash),
                                               nonce := Some(p.nonce), signedRaw := Some(p)))))
  }

  /** `eth_sendRawTransaction`: an acknowledged payload has reached the network; a failed call may have. */
  function SenderSubmit(s: State, reaches: bool, acknowledged: bool): Option<State> {
    if !s.sender.Prepared? || s.sender.copy.signedRaw.None? || s.sender.copy.txHash.None? then None
    else
      var id, copy := s.sender.id, s.sender.copy;
      var known := if reaches then s.chain.known + {KeyOf(copy)} else s.chain.known;
      if acknowledged && KeyOf(copy) !in known then None
      else
        Some(s.(chain := s.chain.(known := known, sends := s.chain.sends + [Send(id, copy.signedRaw.value)]),
                sender := if acknowledged then Acknowledging(id, copy) else Prepared(id, copy)))
  }

  /** isTransactionVisibleOnChain. */
  function SenderSee(s: State): Option<State> {
    if !s.sender.Prepared? || s.sender.copy.txHash.None? || KeyOf(s.sender.copy) !in s.chain.known then None
    else Some(s.(sender := Acknowledging(s.sender.id, s.sender.copy)))
  }

  function AdvancePast(cursors: map<string, nat>, network: string, nonce: nat): map<string, nat> {
    if network in cursors && cursors[network] >= nonce + 1 then cursors else cursors[network := nonce + 1]
  }

  function SenderAcknowledge(s: State): Option<State> {
    if !s.sender.Acknowledging? || s.sender.id >= |s.rows| || s.sender.copy.nonce.None? then None
    else
      var id, copy := s.sender.id, s.sender.copy;
      var cursors := AdvancePast(s.cursors, copy.order.network, copy.nonce.value);
      match CasMarkSent(s.rows[id], s.now)
      case Some(r) => Some(s.(rows := s.rows[id := r], cursors := cursors, sender := Idle))
      case None =>
        if s.rows[id].status.Sent? then Some(s.(cursors := cursors, sender := Idle))
        else Some(s.(sender := Idle))
  }

  predicate Unprepared(sender: Sender) {
    sender.Claimed? || sender.Allowed? || sender.HasNonce? || sender.Signed? || sender.Releasing?
  }

  function SenderRelease(s: State, message: string): Option<State> {
    if !Unprepared(s.sender) || s.sender.id >= |s.rows| then None
    else
      match CasRelease(s.rows[s.sender.id], message)
      case None => Some(s.(sender := Idle))
      case Some(r) => Some(s.(rows := s.rows[s.sender.id := r], sender := Idle))
  }

  /** processSendingTxError drops the cursor after a nonce error. */
  function SenderForgetNonce(s: State, network: string): Option<State> {
    Some(s.(cursors := s.cursors - {network}))
  }

  // ---------------------------------------------------------------- confirmers

  function JobFetch(s: State, j: nat, id: nat): Option<State> {
    if j in s.jobs || id >= |s.rows| || !s.rows[id].status.Sent? then None
    else Some(s.(jobs := s.jobs[j := Job(id, s.rows[id], None)]))
  }

  function JobReadReceipt(s: State, j: nat): Option<State> {
    if j !in s.jobs || s.jobs[j].copy.txHash.None? || s.jobs[j].copy.sentAt.None? then None
    else
      var key := KeyOf(s.jobs[j].copy);
      if key !in s.chain.receipts then None
      else Some(s.(jobs := s.jobs[j := s.jobs[j].(receipt := Some(s.chain.receipts[key]))]))
  }

  /** The job holds a receipt and the chain head it reads next is deep enough above it. */
  predicate DeepReceipt(c: Config, s: State, j: nat) {
    && j in s.jobs && s.jobs[j].receipt.Some? && s.jobs[j].id < |s.rows|
    && var network := s.jobs[j].copy.order.network;
       && network in c.networks
       && HasRequiredConfirmations(Head(s.chain, network), s.jobs[j].receipt.value.block, Depth(c, network))
  }

  function JobConfirm(c: Config, s: State, j: nat): Option<State> {
    if !DeepReceipt(c, s, j) || !s.jobs[j].receipt.value.ok then None
    else
      var id := s.jobs[j].id;
      match CasMarkConfirmed(s.rows[id], s.jobs[j].receipt.value.block)
      case None => Some(s.(jobs := s.jobs - {j}))
      case Some(r) => Some(s.(rows := s.rows[id := r], jobs := s.jobs - {j}))
  }

  /** handleFailedTransaction: mark failed and create the retry in one transaction, from the job's copy. */
  function JobFail(c: Config, s: State, j: nat, message: string): Option<State> {
    if !DeepReceipt(c, s, j) || s.jobs[j].receipt.value.ok || s.jobs[j].id >= |s.owners| then None
    else
      var id, copy := s.jobs[j].id, s.jobs[j].copy;
      match CasMarkFailedFromSent(s.rows[id], s.jobs[j].receipt.value.block, message)
      case None => Some(s.(jobs := s.jobs - {j}))
      case Some(r) =>
        if copy.retryCount < copy.maxRetries then
          Some(s.(rows := s.rows[id := r] + [RetryRow(id, copy)], owners := s.owners + [s.owners[id]],
                  jobs := s.jobs - {j}))
        else Some(s.(rows := s.rows[id := r], jobs := s.jobs - {j}))
  }

  function JobDelay(s: State, j: nat): Option<State> {
    if j !in s.jobs || s.jobs[j].id >= |s.rows| then None
    else
      match CasMarkReceiptDelayed(s.rows[s.jobs[j].id])
      case None => Some(s.(jobs := s.jobs - {j}))
      case Some(r) => Some(s.(rows := s.rows[s.jobs[j].id := r], jobs := s.jobs - {j}))
  }

  function JobDrop(s: State, j: nat): Option<State> {
    Some(s.(jobs := s.jobs - {j}))
  }

  // ---------------------------------------------------------------- processor

  /** getUnfinishedWithdrawalRecords: the first `limit` unfinished records with id above `start`. */
  function Unfinished(records: seq<Record>, start: nat, limit: nat): seq<Ticket>
    decreases |records| - start
  {
    if limit == 0 || start >= |records| then []
    else if Finished(records[start]) then Unfinished(records, start + 1, limit)
    else [Ticket(start, records[start])] + Unfinished(records, start + 1, limit - 1)
  }

  function ProcFetch(c: Config, s: State): Option<State> {
    if !s.proc.Resting? || s.queue != [] then None
    else Some(s.(queue := Unfinished(s.records, s.start, c.batchSize)))
  }

  function ProcBegin(s: State): Option<State> {
    if !s.proc.Resting? || s.queue == [] then None
    else Some(s.(proc := Entry(s.queue[0].k, s.queue[0].rec), queue := s.queue[1..]))
  }

  /** processWithdrawalRecords returns an error; its next round starts from the first record. */
  function ProcStop(s: State): Option<State> {
    Some(s.(proc := Resting, start := 0, queue := []))
  }

  /** A retryable error, or the context deadline: back to the loop with the in-memory record. */
  function ProcAgain(s: State): Option<State> {
    if s.proc.Resting? || s.proc.Done? || s.proc.Dangling? then None
    else Some(s.(proc := Entry(s.proc.k, s.proc.rec)))
  }

  function ProcEnter(c: Config, s: State): Option<State> {
    if !s.proc.Entry? || s.proc.k >= |s.records| then None
    else if Overdue(c, s.proc.rec, s.now) then Some(s.(proc := Timeout(s.proc.k, s.records[s.proc.k])))
    else Some(s.(proc := Top(s.proc.k, s.proc.rec, None)))
  }

  /** A read of the root that may already be out of date when the retries are read. */
  predicate RootRead(rows: seq<Row>, rec: Record, rootCopy: Row) {
    rec.txId.Some? && rec.txId.value < |rows| && Evolves(rootCopy, rows[rec.txId.value])
  }

  /** getCurrentBlockchainTransaction. */
  function ReadCurrent(rows: seq<Row>, root: nat, rootCopy: Row): Held {
    RetryIdsMembers(rows, root);
    var ids := RetryIds(rows, root);
    if !rootCopy.status.Failed? || ids == [] then Held(root, rootCopy)
    else Held(ids[|ids| - 1], rows[ids[|ids| - 1]])
  }

  predicate ChainHasCommittedBroadcast(list: seq<Row>) {
    exists m :: 0 <= m < |list| && HasCommittedBroadcast(list[m])
  }

  function ProcTop(s: State, rootCopy: Row): Option<State> {
    if !s.proc.Top? then None
    else
      var k, rec := s.proc.k, s.proc.rec;
      if !rec.status.WPending? then Some(s.(proc := Finish(k, rec, s.proc.held)))
      else if rec.txId.None? then Some(s.(proc := Authorize(k, rec)))
      else if !RootRead(s.rows, rec, rootCopy) then None
      else if ChainHasCommittedBroadcast(Listing(s.rows, rec.txId.value, rootCopy)) then Some(s.(proc := Load(k, rec)))
      else Some(s.(proc := Authorize(k, rec)))
  }

  /** UpdateStatus writes the one column and then the in-memory copy. */
  function SetStatus(records: seq<Record>, k: nat, status: WithdrawStatus): seq<Record>
    requires k < |records|
  {
    records[k := records[k].(status := status)]
  }

  /** ensureWithdrawalAuthorizationFingerprint succeeds, storing a fingerprint that was missing. */
  function ProcAuthorized(c: Config, s: State): Option<State> {
    if !s.proc.Authorize? || s.proc.k >= |s.records| then None
    else
      var k, rec := s.proc.k, s.proc.rec;
      var stamp := Fingerprint(c, rec);
      var rec' := rec.(fingerprint := Some(stamp));
      var next := if rec.txId.Some? then Load(k, rec') else Gate(k, rec');
      if !Authorised(c, rec) then None
      else if rec.fingerprint.Some? then
        if rec.fingerprint.value == stamp then Some(s.(proc := next)) else None
      else if exists j :: 0 <= j < |s.records| && j != k && s.records[j].fingerprint == Some(stamp) then None
      else Some(s.(records := s.records[k := s.records[k].(fingerprint := Some(stamp))], proc := next))
  }

  /** It fails, also when the query or the write for a missing fingerprint fails; a cleared record needs neither. */
  function ProcUnauthorized(c: Config, s: State, rootCopy: Row): Option<State> {
    if !s.proc.Authorize? || s.proc.k >= |s.records| || Cleared(c, s.proc.rec) then None
    else
      var k, rec := s.proc.k, s.proc.rec;
      if rec.txId.None? then
        Some(s.(records := SetStatus(s.records, k, WFailed), proc := Finish(k, rec.(status := WFailed), None)))
      else if !RootRead(s.rows, rec, rootCopy) then None
      else Some(s.(proc := Unauthorized(k, rec, Some(ReadCurrent(s.rows, rec.txId.value, rootCopy)))))
  }

  function Cancellable(r: Row): bool {
    r.status.Pending? || r.status.Sending?
  }

  /** RequestCancellation, if the row that was read is still cancellable. */
  function ProcRevoke(s: State, reason: string): Option<State> {
    if !s.proc.Unauthorized? || s.proc.held.None? || s.proc.held.value.id >= |s.rows| then None
    else
      var held := s.proc.held.value;
      var next := Revoking(s.proc.k, s.proc.rec, s.proc.held);
      if !Cancellable(held.row) then Some(s.(proc := next))
      else
        match CasRequestCancellation(s.rows[held.id], s.now, reason)
        case None => Some(s.(proc := next))
        case Some(r) => Some(s.(rows := s.rows[held.id := r], proc := next))
  }

  function ProcRevoked(s: State): Option<State> {
    if !s.proc.Revoking? || s.proc.held.None? || s.proc.held.value.id >= |s.rows| || s.proc.k >= |s.records| then None
    else
      var k, rec, held := s.proc.k, s.proc.rec, s.proc.held.value;
      if held.row.status.Pending? then
        match CasCancelRequested(s.rows[held.id])
        case None => Some(s.(proc := Top(k, rec, s.proc.held)))
        case Some(r) =>
          Some(s.(rows := s.rows[held.id := r],
                  proc := Revoking(k, rec, Some(Held(held.id, r)))))
      else if held.row.status.Sending? then Some(s.(proc := Load(k, rec)))
      else Some(s.(records := SetStatus(s.records, k, WFailed),
                   proc := Finish(k, rec.(status := WFailed), s.proc.held)))
  }

  /** The execution gate: an account that cannot cover the total fails the record. */
  function ProcGate(s: State): Option<State> {
    if !s.proc.Gate? || s.proc.k >= |s.records| || s.proc.rec.request.address !in s.ledger.accounts then None
    else
      var k, rec := s.proc.k, s.proc.rec;
      var balance := s.ledger.accounts[rec.request.address];
      if balance < Total(rec) then
        Some(s.(records := SetStatus(s.records, k, WFailed), proc := Finish(k, rec.(status := WFailed), None)))
      else Some(s.(proc := Attach(k, rec, balance, |s.accepted|)))
  }

  /** One transaction: insert the pending row and link it from the record. */
  function ProcAttach(c: Config, s: State): Option<State> {
    if !s.proc.Attach? || s.proc.k >= |s.records| || OrderFor(c, s.proc.rec).None? then None
    else
      var k, id := s.proc.k, |s.rows|;
      var row := NewRow(OrderFor(c, s.proc.rec).value, c.networks[s.proc.rec.request.network].maxRetries);
      var rec := s.proc.rec.(txId := Some(id));
      Some(s.(rows := s.rows + [row], owners := s.owners + [k], records := s.records[k := rec],
              history := s.history.(gates := s.history.gates[k := GateSeen(s.proc.balance, s.proc.logs)]),
              proc := Poll(k, rec, Some(Held(id, row)))))
  }

  /** The commit of that transaction is lost; the in-memory record keeps the id its row would have had. */
  function ProcAttachLost(c: Config, s: State): Option<State> {
    if !c.commitMayFail || !s.proc.Attach? then None
    else Some(s.(proc := Dangling(s.proc.k, s.proc.rec, |s.rows|)))
  }

  /** Every round looks that id up again; past the deadline the record is read afresh. */
  function ProcLookUp(c: Config, s: State): Option<State> {
    if !s.proc.Dangling? || s.proc.k >= |s.records| then None
    else
      var k, rec, id := s.proc.k, s.proc.rec, s.proc.id;
      if Overdue(c, rec, s.now) then Some(s.(proc := Timeout(k, s.records[k])))
      else if id < |s.rows| then Some(s.(proc := Poll(k, rec.(txId := Some(id)), Some(Held(id, s.rows[id])))))
      else Some(s)
  }

  function ProcLoad(s: State, rootCopy: Row): Option<State> {
    if !s.proc.Load? || !RootRead(s.rows, s.proc.rec, rootCopy) then None
    else Some(s.(proc := Poll(s.proc.k, s.proc.rec, Some(ReadCurrent(s.rows, s.proc.rec.txId.value, rootCopy)))))
  }

  /** One look at the row being polled; a confirmed row must pass the gate over the whole chain. */
  function ProcPoll(s: State, rootCopy: Row): Option<State> {
    if !s.proc.Poll? || s.proc.held.None? || s.proc.held.value.id >= |s.rows| || s.proc.k >= |s.records| then None
    else
      var k, rec, held := s.proc.k, s.proc.rec, s.proc.held.value;
      var r := held.row;
      if !Terminal(r) then Some(s.(proc := Poll(k, rec, Some(Held(held.id, s.rows[held.id])))))
      else if r.status.Confirmed? then
        if !RootRead(s.rows, rec, rootCopy) then None
        else if FulfillSafe(r, Listing(s.rows, rec.txId.value,
                                       rootCopy)) then Some(s.(proc := Debit(k, rec, s.proc.held)))
        else ProcStop(s)
      else if r.status.Cancelled? || r.retryCount >= r.maxRetries then
        Some(s.(records := SetStatus(s.records, k, WFailed), proc := Top(k, rec.(status := WFailed), s.proc.held)))
      else Some(s.(proc := Top(k, rec, s.proc.held)))
  }

  /** One transaction: subtract the total and mark the record successful. */
  function ProcDebit(s: State): Option<State> {
    if !s.proc.Debit? || s.proc.k >= |s.records| || s.proc.rec.request.address !in s.ledger.accounts then None
    else
      var k, rec := s.proc.k, s.proc.rec;
      var a := rec.request.address;
      if s.ledger.accounts[a] < Total(rec) then ProcStop(s)
      else
        Some(s.(ledger := s.ledger.(accounts := s.ledger.accounts[a := s.ledger.accounts[a] - Total(rec)]),
                records := SetStatus(s.records, k, WSuccess),
                proc := Top(k, rec.(status := WSuccess), s.proc.held)))
  }

  /** The commit of that transaction is lost, but UpdateStatus has already changed the in-memory record. */
  function ProcDebitLost(c: Config, s: State): Option<State> {
    if !c.commitMayFail || !s.proc.Debit? then None
    else Some(s.(proc := Entry(s.proc.k, s.proc.rec.(status := WSuccess))))
  }

  function ProcFinish(s: State, rootCopy: Row): Option<State> {
    if !s.proc.Finish? then None
    else
      var k, rec := s.proc.k, s.proc.rec;
      if !rec.status.WSuccess? then Some(s.(proc := RejectCheck(k, rec)))
      else if !RootRead(s.rows, rec, rootCopy) then None
      else if s.proc.held.None? then
        Some(s.(proc := Finish(k, rec, Some(ReadCurrent(s.rows, rec.txId.value, rootCopy)))))
      else if FulfillSafe(s.proc.held.value.row, Listing(s.rows, rec.txId.value, rootCopy)) then
        Some(s.(proc := Fulfill(k, rec, s.proc.held)))
      else ProcStop(s)
  }

  function ProcFulfill(s: State): Option<State> {
    if !s.proc.Fulfill? || s.proc.held.None? || s.proc.held.value.row.txHash.None? then None
    else
      Some(s.(history := s.history.(fulfills := s.history.fulfills + {(s.proc.k, s.proc.held.value.row.txHash.value)}),
              proc := FulfillWrite(s.proc.k, s.proc.rec, s.proc.held)))
  }

  function ProcFulfillWrite(s: State): Option<State> {
    if !s.proc.FulfillWrite? || s.proc.k >= |s.records| then None
    else
      Some(s.(records := SetStatus(s.records, s.proc.k, WFinished),
              proc := Done(s.proc.k, s.proc.rec.(status := WFinished))))
  }

  /** ensureWithdrawalRejectSafe: an unattached record needs no proof. */
  function ProcRejectCheck(s: State, rootCopy: Row): Option<State> {
    if !s.proc.RejectCheck? then None
    else
      var k, rec := s.proc.k, s.proc.rec;
      if rec.txId.None? then Some(s.(proc := Reject(k, rec)))
      else if !RootRead(s.rows, rec, rootCopy) then None
      else if RejectSafe(Listing(s.rows, rec.txId.value, rootCopy)) then Some(s.(proc := Reject(k, rec)))
      else ProcStop(s)
  }

  function ProcReject(s: State): Option<State> {
    if !s.proc.Reject? then None
    else
      Some(s.(history := s.history.(rejects := s.history.rejects + {s.proc.k}),
              proc := RejectWrite(s.proc.k, s.proc.rec)))
  }

  function ProcRejectWrite(s: State): Option<State> {
    if !s.proc.RejectWrite? || s.proc.k >= |s.records| then None
    else
      Some(s.(records := SetStatus(s.records, s.proc.k, WFinishedRejected),
              proc := Done(s.proc.k, s.proc.rec.(status := WFinishedRejected))))
  }

  function ProcTimeout(s: State, rootCopy: Row): Option<State> {
    if !s.proc.Timeout? then None
    else
      var k, rec := s.proc.k, s.proc.rec;
      if rec.txId.None? then Some(s.(proc := RejectCheck(k, rec)))
      else if !RootRead(s.rows, rec, rootCopy) then None
      else
        var held := ReadCurrent(s.rows, rec.txId.value, rootCopy);
        var r := held.row;
        if r.status.Confirmed? || r.status.Cancelled? || (r.status.Failed? && r.retryCount >= r.maxRetries) then
          Some(s.(proc := Top(k, rec, None)))
        else if HasCommittedBroadcast(r) || !Cancellable(r) then ProcStop(s)
        else Some(s.(proc := TimeoutCancel(k, rec, Some(held))))
  }

  function ProcTimeoutCancel(s: State, reason: string): Option<State> {
    if !s.proc.TimeoutCancel? || s.proc.held.None? || s.proc.held.value.id >= |s.rows| then None
    else
      var held := s.proc.held.value;
      var next := TimeoutSettle(s.proc.k, s.proc.rec, s.proc.held);
      match CasRequestCancellation(s.rows[held.id], s.now, reason)
      case None => Some(s.(proc := next))
      case Some(r) => Some(s.(rows := s.rows[held.id := r], proc := next))
  }

  /** A pending row is cancelled at once; a sending row is left for the sender to settle. */
  function ProcTimeoutSettle(s: State): Option<State> {
    if !s.proc.TimeoutSettle? || s.proc.held.None? || s.proc.held.value.id >= |s.rows| then None
    else
      var k, rec, held := s.proc.k, s.proc.rec, s.proc.held.value;
      if !held.row.status.Pending? then Some(s.(proc := Entry(k, rec)))
      else
        match CasCancelRequested(s.rows[held.id])
        case None => Some(s.(proc := Entry(k, rec)))
        case Some(r) => Some(s.(rows := s.rows[held.id := r], proc := RejectCheck(k, rec)))
  }

  function ProcDone(s: State): Option<State> {
    if !s.proc.Done? then None else Some(s.(proc := Resting, start := s.proc.k + 1))
  }

  // ---------------------------------------------------------------- the machine

  datatype EnvStep =
    | Tick(seconds: nat) | NewRecord(r: Record) | Logs(logs: seq<Log>)
    | MineTx(key: TxKey, ok: bool) | GrowChain(network: string, blocks: nat) | ReorgTx(key: TxKey)
    | CrashNow | BootUp(cursors: map<string, nat>, retireGrants: bool)

  datatype SenderStep =
    | Sync(id: nat) | Check | Claim | CheckLimit | TakeNonce(pending: nat) | Sign(payload: Payload) | Prepare
    | Submit(reaches: bool, acknowledged: bool) | See | Acknowledge | Release(message: string) | Abandon
    | ForgetNonce(network: string)

  datatype JobStep =
    | Fetch(id: nat) | ReadReceipt | Confirm | Fail(message: string) | Delay | Drop

  datatype ProcStep =
    | FetchBatch | Begin | Stop | Again | Enter | TopOf(rootCopy: Row)
    | Authorized | NotAuthorized(rootCopy: Row) | Revoke(reason: string) | Revoked
    | GateCheck | AttachRow | LoseAttach | LookUp | LoadRow(rootCopy: Row) | PollRow(rootCopy: Row)
    | DebitAccount | LoseDebit | FinishRecord(rootCopy: Row) | CallFulfill | WriteFinished
    | CheckReject(rootCopy: Row) | CallReject | WriteRejected
    | HandleTimeout(rootCopy: Row) | CancelTimeout(reason: string) | SettleTimeout | NextRecord

  datatype Step =
    | EnvMoves(env: EnvStep) | SenderMoves(send: SenderStep) | JobMoves(j: nat,
                                                                        job: JobStep) | ProcMoves(proc: ProcStep)

  function EnvNext(c: Config, s: State, a: EnvStep): Option<State> {
    match a
    case Tick(n) => Some(s.(now := s.now + n))
    case NewRecord(r) => AddRecord(c, s, r)
    case Logs(logs) => SyncLogs(c, s, logs)
    case MineTx(key, ok) => Mine(s, key, ok)
    case GrowChain(network, blocks) => Grow(s, network, blocks)
    case ReorgTx(key) => Reorg(c, s, key)
    case CrashNow => Crash(s)
    case BootUp(cursors, retire) => Boot(s, cursors, retire)
  }

  function SenderNext(c: Config, s: State, a: SenderStep): Option<State> {
    match a
    case Sync(id) => SenderSync(s, id)
    case Check => SenderCheck(s)
    case Claim => SenderClaim(s)
    case CheckLimit => SenderCheckLimit(c, s)
    case TakeNonce(pending) => SenderTakeNonce(s, pending)
    case Sign(payload) => SenderSign(s, payload)
    case Prepare => SenderPrepare(s)
    case Submit(reaches, acknowledged) => SenderSubmit(s, reaches, acknowledged)
    case See => SenderSee(s)
    case Acknowledge => SenderAcknowledge(s)
    case Release(message) => SenderRelease(s, message)
    case Abandon => Some(s.(sender := Idle))
    case ForgetNonce(network) => SenderForgetNonce(s, network)
  }

  function JobNext(c: Config, s: State, j: nat, a: JobStep): Option<State> {
    match a
    case Fetch(id) => JobFetch(s, j, id)
    case ReadReceipt => JobReadReceipt(s, j)
    case Confirm => JobConfirm(c, s, j)
    case Fail(message) => JobFail(c, s, j, message)
    case Delay => JobDelay(s, j)
    case Drop => JobDrop(s, j)
  }

  function ProcNext(c: Config, s: State, a: ProcStep): Option<State> {
    match a
    case FetchBatch => ProcFetch(c, s)
    case Begin => ProcBegin(s)
    case Stop => ProcStop(s)
    case Again => ProcAgain(s)
    case Enter => ProcEnter(c, s)
    case TopOf(rootCopy) => ProcTop(s, rootCopy)
    case Authorized => ProcAuthorized(c, s)
    case NotAuthorized(rootCopy) => ProcUnauthorized(c, s, rootCopy)
    case Revoke(reason) => ProcRevoke(s, reason)
    case Revoked => ProcRevoked(s)
    case GateCheck => ProcGate(s)
    case AttachRow => ProcAttach(c, s)
    case LoseAttach => ProcAttachLost(c, s)
    case LookUp => ProcLookUp(c, s)
    case LoadRow(rootCopy) => ProcLoad(s, rootCopy)
    case PollRow(rootCopy) => ProcPoll(s, rootCopy)
    case DebitAccount => ProcDebit(s)
    case LoseDebit => ProcDebitLost(c, s)
    case FinishRecord(rootCopy) => ProcFinish(s, rootCopy)
    case CallFulfill => ProcFulfill(s)
    case WriteFinished => ProcFulfillWrite(s)
    case CheckReject(rootCopy) => ProcRejectCheck(s, rootCopy)
    case CallReject => ProcReject(s)
    case WriteRejected => ProcRejectWrite(s)
    case HandleTimeout(rootCopy) => ProcTimeout(s, rootCopy)
    case CancelTimeout(reason) => ProcTimeoutCancel(s, reason)
    case SettleTimeout => ProcTimeoutSettle(s)
    case NextRecord => ProcDone(s)
  }

  /** One atomic step, or `None` when it is not enabled. Workers move only while the process is up. */
  function Next(c: Config, s: State, step: Step): Option<State> {
    match step
    case EnvMoves(a) => EnvNext(c, s, a)
    case SenderMoves(a) => if s.up then SenderNext(c, s, a) else None
    case JobMoves(j, a) => if s.up then JobNext(c, s, j, a) else None
    case ProcMoves(a) => if s.up then ProcNext(c, s, a) else None
  }

  /** Nothing on chain yet, nothing accepted; the process has not been started. */
  predicate Fresh(s: State) {
    && s.accepted == [] && s.opening == s.ledger.accounts && s.ledger.grants == map[] && s.ledger.deposits == []
    && s.chain == Chain(map[], {}, map[], [])
    && s.sender == Idle && s.cursors == map[] && s.jobs == map[]
    && s.proc == Resting && s.start == 0 && s.queue == [] && !s.up
  }

  predicate NoRecords(s: State) {
    s.rows == [] && s.owners == [] && s.records == [] && s.history == History({}, {}, map[], {})
  }

  /**
    A historical record: attached to an unsent row by an earlier version, with whatever authorisation it has,
    and covered by its account.
  */
  predicate OneHistorical(c: Config, s: State) {
    && |s.records| == 1
    && var r := s.records[0];
       && r.status.WPending? && r.txId == Some(0)
       && OrderFor(c, r).Some? && s.rows == [NewRow(OrderFor(c, r).value, c.networks[r.request.network].maxRetries)]
       && s.owners == [0] && r.request.address in s.ledger.accounts
       && s.ledger.accounts[r.request.address] >= r.request.amount + r.fee
       && s.history == History({}, {}, map[0 := GateSeen(s.ledger.accounts[r.request.address], 0)],
                               if Cleared(c, r) then {} else {0})
  }

  /** A database with some opening balances and at most one record, a historical one. */
  predicate Init(c: Config, s: State) {
    Fresh(s) && (NoRecords(s) || OneHistorical(c, s))
  }

  /** A run: states joined by steps. */
  predicate Run(c: Config, states: seq<State>, steps: seq<Step>) {
    && |states| == |steps| + 1
    && Init(c, states[0])
    && forall n :: 0 <= n < |steps| ==> Next(c, states[n], steps[n]) == Some(states[n + 1])
  }
}
