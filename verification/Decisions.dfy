/**
  What the wallet decides in every reachable state, in terms of the stored columns: each check of the processor and
  of the sender passes exactly when the condition it stands for holds of the database.
*/
module Decisions {
  import opened Wrappers
  import opened Transactions
  import opened Chains
  import opened RelayLedger
  import opened Protocol
  import opened Invariants
  import opened Theorems
  import opened GateProofs
  import Authorization

  /** The round of the processor ends; the next one starts from the first record. */
  function Stopped(s: State): State {
    s.(proc := Resting, start := 0, queue := [])
  }

  // ---------------------------------------------------------------- storing a request

  /** A request that is stored as pending: signed by its requester, for a positive total, on a known network. */
  predicate Payable(c: Config, r: Record) {
    && r.request.timestamp != 0 && r.signature != "" && c.signs(r.request, r.signature)
    && r.fingerprint == Some(c.digest(Authorization.Message(r.request))) && r.txId.None?
    && r.request.amount + r.fee > 0 && r.request.network in c.networks && r.request.benefit != ""
  }

  /** No stored record has its remote id, and none was stored with the digest of the same message. */
  ghost predicate Unseen(c: Config, s: State, r: Record) {
    forall k :: 0 <= k < |s.records| ==>
      && s.records[k].remoteId != r.remoteId
      && (k !in s.history.legacy && s.records[k].fingerprint.Some? ==>
            c.digest(Authorization.Message(s.records[k].request)) != c.digest(Authorization.Message(r.request)))
      && (k in s.history.legacy ==> s.records[k].fingerprint != r.fingerprint)
  }

  /** A pending record is stored exactly when the request is acceptable, once under its id and once per message. */
  lemma PendingStoredExactly(c: Config, s: State, r: Record)
    requires Reachable(c, s) && s.up && r.status.WPending? && r.createdAt == s.now
    ensures AddRecord(c, s, r).Some? <==> Payable(c, r)
    ensures Payable(c, r) ==>
              AddRecord(c, s, r).value == if Unseen(c, s, r) then s.(records := s.records + [r]) else s
  {
    ReachableInv(c, s);
    StoresUnseen(c, s, r);
  }

  lemma StoresUnseen(c: Config, s: State, r: Record)
    requires FingerprintsOk(c, s.records, s.history.legacy) && s.up && r.status.WPending? && r.createdAt == s.now
    ensures AddRecord(c, s, r).Some? <==> Payable(c, r)
    ensures Payable(c, r) ==>
              AddRecord(c, s, r).value == if Unseen(c, s, r) then s.(records := s.records + [r]) else s
  {
    if Payable(c, r) {
      assert Conflicts(s.records, r) <==> !Unseen(c, s, r);
    }
  }

  // ---------------------------------------------------------------- the next batch of records

  predicate Open(r: Record) {
    !r.status.WFinished? && !r.status.WFinishedRejected?
  }

  /** Record `j` is in the batch, or the batch is full of earlier ones. */
  ghost predicate InOrBehind(q: seq<Ticket>, limit: nat, j: nat) {
    (exists m :: 0 <= m < |q| && q[m].k == j) || (|q| == limit && forall m :: 0 <= m < |q| ==> q[m].k < j)
  }

  /** `q` holds the first `limit` open records from `start` on, in order. */
  ghost predicate FirstOpen(records: seq<Record>, start: nat, limit: nat, q: seq<Ticket>) {
    && |q| <= limit
    && (forall m :: 0 <= m < |q| ==>
          start <= q[m].k < |records| && q[m].rec == records[q[m].k] && Open(records[q[m].k]))
    && (forall m, n :: 0 <= m < n < |q| ==> q[m].k < q[n].k)
    && (forall j :: start <= j < |records| && Open(records[j]) ==> InOrBehind(q, limit, j))
  }

  /** A round fetches the first records that are neither finished nor rejected, as many as a batch may hold. */
  lemma {:induction false} FetchesFirstOpen(records: seq<Record>, start: nat, limit: nat)
    ensures FirstOpen(records, start, limit, Unfinished(records, start, limit))
    decreases |records| - start
  {
    if limit > 0 && start < |records| {
      if !Open(records[start]) {
        FetchesFirstOpen(records, start + 1, limit);
      } else {
        FetchesFirstOpen(records, start + 1, limit - 1);
        OpenFirst(records, start, limit, Unfinished(records, start + 1, limit - 1));
      }
    }
  }

  lemma OpenFirst(records: seq<Record>, start: nat, limit: nat, rest: seq<Ticket>)
    requires limit > 0 && start < |records| && Open(records[start]) && FirstOpen(records, start + 1, limit - 1, rest)
    ensures FirstOpen(records, start, limit, [Ticket(start, records[start])] + rest)
  {
    var q := [Ticket(start, records[start])] + rest;
    forall j | start <= j < |records| && Open(records[j]) ensures InOrBehind(q, limit, j) {
      if j == start {
        assert q[0].k == j;
      } else {
        assert InOrBehind(rest, limit - 1, j);
        if m :| 0 <= m < |rest| && rest[m].k == j {
          assert q[m + 1].k == j;
        }
      }
    }
  }

  // ---------------------------------------------------------------- the deadline

  function EnteredAs(c: Config, s: State): Proc
    requires !s.proc.Resting? && s.proc.k < |s.records|
  {
    if s.now > s.records[s.proc.k].createdAt + c.timeout then Timeout(s.proc.k, s.records[s.proc.k])
    else Top(s.proc.k, s.proc.rec, None)
  }

  /** Entering a record leads to the timeout handler exactly when the deadline has passed since the request arrived. */
  lemma EnterExactly(c: Config, s: State)
    requires Reachable(c, s) && s.proc.Entry?
    ensures s.proc.k < |s.records| && ProcEnter(c, s).Some?
    ensures ProcEnter(c, s).value == s.(proc := EnteredAs(c, s))
  {
    ReachableInv(c, s);
    EnterDecides(c, s);
  }

  lemma EnterDecides(c: Config, s: State)
    requires ProcRecordOk(c, s.records, s.proc) && s.proc.Entry?
    ensures s.proc.k < |s.records| && ProcEnter(c, s).Some?
    ensures ProcEnter(c, s).value == s.(proc := EnteredAs(c, s))
  {
  }

  // ---------------------------------------------------------------- money

  /** A received batch of logs moves every balance by its sum when it is accepted, and changes nothing otherwise. */
  lemma LogsExactly(c: Config, s: State, logs: seq<Log>, a: string)
    requires s.up
    ensures SyncLogs(c, s, logs).Some?
    ensures var s', batch := SyncLogs(c, s, logs).value, ApplyBatch(c.vestingSigner, s.now, s.ledger, logs);
            && (batch.Err? ==> s' == s)
            && (batch.Ok? ==>
                  && s'.ledger == batch.value && s'.accepted == s.accepted + logs
                  && Balance(s'.ledger.accounts, a) == Balance(s.ledger.accounts, a) + SignedSum(logs, a))
  {
    if ApplyBatch(c.vestingSigner, s.now, s.ledger, logs).Ok? {
      BatchMovesBalances(c.vestingSigner, s.now, s.ledger, logs, a);
    }
  }

  function GateOutcome(s: State): State
    requires !s.proc.Resting? && s.proc.k < |s.records|
  {
    var k, r := s.proc.k, s.records[s.proc.k];
    var balance := Balance(s.ledger.accounts, r.request.address);
    if balance >= r.request.amount + r.fee then s.(proc := Attach(k, r, balance, |s.accepted|))
    else s.(records := s.records[k := r.(status := WFailed)], proc := Finish(k, r.(status := WFailed), None))
  }

  /** The gate lets a record through exactly when its account holds amount and fee; otherwise the record fails. */
  lemma GateExactly(c: Config, s: State)
    requires Reachable(c, s) && s.proc.Gate? && s.proc.rec.request.address in s.ledger.accounts
    ensures s.proc.k < |s.records| && ProcGate(s).Some?
    ensures ProcGate(s).value == GateOutcome(s)
  {
    ReachableInv(c, s);
    GateDecides(c, s);
  }

  lemma GateDecides(c: Config, s: State)
    requires ProcRecordOk(c, s.records, s.proc) && |s.owners| == |s.rows|
    requires ProcPlaceOk(c, s.rows, s.owners, s.records, s.history, s.now, s.proc)
    requires s.proc.Gate? && s.proc.rec.request.address in s.ledger.accounts
    ensures s.proc.k < |s.records| && ProcGate(s).Some? && s.proc.rec == s.records[s.proc.k]
    ensures ProcGate(s).value == GateOutcome(s)
  {
    assert s.proc.rec == s.records[s.proc.k];
  }

  /** The record is successful and its account, and no other, has lost amount and fee. */
  ghost predicate DebitsExactly(s: State, s': State, k: nat)
    requires k < |s.records|
  {
    var r := s.records[k];
    && s'.records == s.records[k := r.(status := WSuccess)]
    && Balance(s'.ledger.accounts, r.request.address)
       == Balance(s.ledger.accounts, r.request.address) - r.request.amount - r.fee
    && (forall a :: a != r.request.address ==> Balance(s'.ledger.accounts, a) == Balance(s.ledger.accounts, a))
  }

  /** The debit takes amount and fee exactly when the account still holds them, and otherwise changes nothing. */
  lemma DebitExactly(c: Config, s: State)
    requires Reachable(c, s) && s.proc.Debit? && s.proc.rec.request.address in s.ledger.accounts
    ensures s.proc.k < |s.records| && ProcDebit(s).Some?
    ensures var r := s.records[s.proc.k];
            if Balance(s.ledger.accounts, r.request.address) >= r.request.amount + r.fee
            then DebitsExactly(s, ProcDebit(s).value, s.proc.k)
            else ProcDebit(s).value == Stopped(s)
  {
    ReachableInv(c, s);
    DebitDecides(c, s);
  }

  lemma DebitDecides(c: Config, s: State)
    requires ProcRecordOk(c, s.records, s.proc) && |s.owners| == |s.rows|
    requires ProcPlaceOk(c, s.rows, s.owners, s.records, s.history, s.now, s.proc)
    requires s.proc.Debit? && s.proc.rec.request.address in s.ledger.accounts
    ensures s.proc.k < |s.records| && ProcDebit(s).Some? && s.proc.rec == s.records[s.proc.k]
    ensures var r := s.records[s.proc.k];
            if Balance(s.ledger.accounts, r.request.address) >= r.request.amount + r.fee
            then DebitsExactly(s, ProcDebit(s).value, s.proc.k)
            else ProcDebit(s).value == Stopped(s)
  {
    assert s.proc.rec == s.records[s.proc.k];
  }

  // ---------------------------------------------------------------- the gates, when the chain is read afresh

  /** The row can never pay any more, and its columns show it. */
  predicate Disproven(r: Row) {
    r.status.Cancelled? || (r.status.Failed? && r.statusMessage != Some("Transaction timed out"))
  }

  ghost predicate AllDisproven(s: State, k: nat) {
    |s.owners| == |s.rows| && forall i :: 0 <= i < |s.rows| && s.owners[i] == k ==> Disproven(s.rows[i])
  }

  /** Row `i` alone can have paid record `k`. */
  ghost predicate OthersDisproven(s: State, k: nat, i: nat) {
    |s.owners| == |s.rows| && forall j :: 0 <= j < |s.rows| && s.owners[j] == k && j != i ==> Disproven(s.rows[j])
  }

  /** The root of the record's chain, if it has one, is read as it is now. */
  predicate ReadsFresh(s: State, k: nat, rootCopy: Row) {
    k < |s.records| && (s.records[k].txId.Some? ==>
                          s.records[k].txId.value < |s.rows| && rootCopy == s.rows[s.records[k].txId.value])
  }

  lemma DisprovenIsProven(r: Row)
    requires RowOk(r)
    ensures Disproven(r) <==> IsProvenTerminalFailure(r)
  {
  }

  lemma ListingRows(rows: seq<Row>, root: nat)
    requires root < |rows| && rows[root].root.None?
    ensures var list, ids := Listing(rows, root, rows[root]), [root] + RetryIds(rows, root);
            && |list| == |ids|
            && (forall m :: 0 <= m < |ids| ==>
                  ids[m] < |rows| && RootOf(rows, ids[m]) == root && list[m] == rows[ids[m]])
            && (forall m, n :: 0 <= m < n < |ids| ==> ids[m] != ids[n])
  {
    RetryIdsMembers(rows, root);
  }

  lemma RootIsListed(rows: seq<Row>, root: nat, i: nat)
    requires i < |rows| && RootOf(rows, i) == root
    ensures i in [root] + RetryIds(rows, root)
  {
    RetryIdsMembers(rows, root);
  }

  /** A chain read afresh lists exactly the stored rows of the record, each once, the root first. */
  lemma FreshListing(c: Config, s: State, k: nat, root: nat)
    requires OwnedOk(c, s.rows, s.owners, s.records) && k < |s.records| && s.records[k].txId == Some(root)
    ensures var list, ids := Listing(s.rows, root, s.rows[root]), [root] + RetryIds(s.rows, root);
            && |list| == |ids|
            && (forall m :: 0 <= m < |ids| ==> ids[m] < |s.rows| && s.owners[ids[m]] == k && list[m] == s.rows[ids[m]])
            && (forall m, n :: 0 <= m < n < |ids| ==> ids[m] != ids[n])
            && (forall i :: 0 <= i < |s.rows| && s.owners[i] == k ==> i in ids)
  {
    ListingRows(s.rows, root);
    forall i | 0 <= i < |s.rows| ensures s.owners[i] == k <==> RootOf(s.rows, i) == root {
      OwnerIsRoot(c, s.rows, s.owners, s.records, k, root, i);
    }
    forall i | 0 <= i < |s.rows| && s.owners[i] == k ensures i in [root] + RetryIds(s.rows, root) {
      RootIsListed(s.rows, root, i);
    }
  }

  lemma FreshRejectGate(c: Config, s: State, k: nat, root: nat)
    requires AllRowsOk(s.rows) && OwnedOk(c, s.rows, s.owners, s.records)
    requires k < |s.records| && s.records[k].txId == Some(root)
    ensures RejectSafe(Listing(s.rows, root, s.rows[root])) <==> AllDisproven(s, k)
  {
    var list, ids := Listing(s.rows, root, s.rows[root]), [root] + RetryIds(s.rows, root);
    FreshListing(c, s, k, root);
    GatesDisjoint(s.rows[root], list);
    forall i | 0 <= i < |s.rows| ensures Disproven(s.rows[i]) <==> IsProvenTerminalFailure(s.rows[i]) {
      DisprovenIsProven(s.rows[i]);
    }
    if AllProvenFail(list) {
      forall i | 0 <= i < |s.rows| && s.owners[i] == k ensures Disproven(s.rows[i]) {
        var m :| 0 <= m < |ids| && ids[m] == i;
        assert IsProvenTerminalFailure(list[m]);
      }
    }
  }

  lemma {:induction false} OneConfirmedCounts(list: seq<Row>, p: nat)
    requires p < |list| && list[p].status.Confirmed?
    requires forall m :: 0 <= m < |list| && m != p ==> !list[m].status.Confirmed?
    ensures ConfirmedCount(list) == 1
  {
    var before := list[..|list| - 1];
    if p < |before| {
      OneConfirmedCounts(before, p);
    } else {
      NoneCounts(before);
    }
  }

  lemma {:induction false} NoneCounts(list: seq<Row>)
    requires forall m :: 0 <= m < |list| ==> !list[m].status.Confirmed?
    ensures ConfirmedCount(list) == 0
  {
    if list != [] {
      NoneCounts(list[..|list| - 1]);
    }
  }

  lemma FreshFulfillGate(c: Config, s: State, k: nat, root: nat, i: nat)
    requires AllRowsOk(s.rows) && OwnedOk(c, s.rows, s.owners, s.records)
    requires k < |s.records| && s.records[k].txId == Some(root)
    requires i < |s.rows| && s.owners[i] == k && s.rows[i].status.Confirmed?
    ensures FulfillSafe(s.rows[i], Listing(s.rows, root, s.rows[root])) <==> OthersDisproven(s, k, i)
  {
    forall j | 0 <= j < |s.rows| ensures Disproven(s.rows[j]) <==> IsProvenTerminalFailure(s.rows[j]) {
      DisprovenIsProven(s.rows[j]);
    }
    if OthersDisproven(s, k, i) {
      SolePaymentPasses(c, s, k, root, i);
    }
    if FulfillSafe(s.rows[i], Listing(s.rows, root, s.rows[root])) {
      FulfillGateMeans(c, s.rows, s.owners, s.records, k, root, s.rows[root], Held(i, s.rows[i]));
    }
  }

  lemma SolePaymentPasses(c: Config, s: State, k: nat, root: nat, i: nat)
    requires AllRowsOk(s.rows) && OwnedOk(c, s.rows, s.owners, s.records)
    requires k < |s.records| && s.records[k].txId == Some(root)
    requires i < |s.rows| && s.owners[i] == k && s.rows[i].status.Confirmed? && OthersDisproven(s, k, i)
    ensures FulfillSafe(s.rows[i], Listing(s.rows, root, s.rows[root]))
  {
    var list, ids := Listing(s.rows, root, s.rows[root]), [root] + RetryIds(s.rows, root);
    FreshListing(c, s, k, root);
    var p :| 0 <= p < |ids| && ids[p] == i;
    assert RowOk(s.rows[i]);
    forall m | 0 <= m < |list| && m != p ensures !list[m].status.Confirmed? && SettledRow(list[m]) {
      assert ids[m] != i && list[m] == s.rows[ids[m]];
      DisprovenIsProven(s.rows[ids[m]]);
    }
    OneConfirmedCounts(list, p);
  }

  /** An unattached record, or one whose every attempt is disproven, goes on to Reject, and no other. */
  lemma RejectCheckExactly(c: Config, s: State, rootCopy: Row)
    requires Reachable(c, s) && s.proc.RejectCheck? && ReadsFresh(s, s.proc.k, rootCopy)
    ensures ProcRejectCheck(s, rootCopy).Some?
    ensures ProcRejectCheck(s, rootCopy).value ==
            if s.records[s.proc.k].txId.None? || AllDisproven(s, s.proc.k)
            then s.(proc := Reject(s.proc.k, s.proc.rec)) else Stopped(s)
  {
    ReachableInv(c, s);
    RejectCheckDecides(c, s, rootCopy);
  }

  lemma RejectCheckDecides(c: Config, s: State, rootCopy: Row)
    requires AllRowsOk(s.rows) && OwnedOk(c, s.rows, s.owners, s.records) && ProcRecordOk(c, s.records, s.proc)
    requires s.proc.RejectCheck? && ReadsFresh(s, s.proc.k, rootCopy)
    ensures ProcRejectCheck(s, rootCopy).Some?
    ensures ProcRejectCheck(s, rootCopy).value ==
            if s.records[s.proc.k].txId.None? || AllDisproven(s, s.proc.k)
            then s.(proc := Reject(s.proc.k, s.proc.rec)) else Stopped(s)
  {
    if s.records[s.proc.k].txId.Some? {
      FreshRejectGate(c, s, s.proc.k, s.records[s.proc.k].txId.value);
    }
  }

  /** A confirmed row goes on to the debit exactly when every other attempt of its record is disproven. */
  lemma ConfirmedExactly(c: Config, s: State, rootCopy: Row)
    requires Reachable(c, s) && s.proc.Poll? && ReadsFresh(s, s.proc.k, rootCopy)
    requires s.proc.held.Some? && s.proc.held.value.row.status.Confirmed?
    ensures ProcPoll(s, rootCopy).Some?
    ensures ProcPoll(s, rootCopy).value ==
            if OthersDisproven(s, s.proc.k, s.proc.held.value.id)
            then s.(proc := Debit(s.proc.k, s.proc.rec, s.proc.held)) else Stopped(s)
  {
    ReachableInv(c, s);
    PolledIsStored(c, s);
    ConfirmedDecides(c, s, rootCopy);
  }

  lemma ConfirmedDecides(c: Config, s: State, rootCopy: Row)
    requires AllRowsOk(s.rows) && OwnedOk(c, s.rows, s.owners, s.records) && s.proc.Poll?
    requires ReadsFresh(s, s.proc.k, rootCopy) && s.proc.held.Some? && s.proc.held.value.row.status.Confirmed?
    requires s.proc.rec == s.records[s.proc.k] && s.proc.rec.txId.Some?
    requires var held := s.proc.held.value;
             held.id < |s.rows| && held.row == s.rows[held.id] && s.owners[held.id] == s.proc.k
    ensures ProcPoll(s, rootCopy).Some?
    ensures ProcPoll(s, rootCopy).value ==
            if OthersDisproven(s, s.proc.k, s.proc.held.value.id)
            then s.(proc := Debit(s.proc.k, s.proc.rec, s.proc.held)) else Stopped(s)
  {
    FreshFulfillGate(c, s, s.proc.k, s.proc.rec.txId.value, s.proc.held.value.id);
  }

  // ---------------------------------------------------------------- the authorisation

  /** Some attempt of record `k` has a signed payload, so that refusing it now could strand a payment. */
  ghost predicate SignedAlready(s: State, k: nat) {
    |s.owners| == |s.rows| && exists i :: 0 <= i < |s.rows| && s.owners[i] == k && s.rows[i].signedRaw.Some?
  }

  /** The authorisation of a pending record is checked exactly while none of its attempts has been signed. */
  lemma CheckedExactly(c: Config, s: State, rootCopy: Row)
    requires Reachable(c, s) && s.proc.Top? && s.proc.rec.status.WPending? && ReadsFresh(s, s.proc.k, rootCopy)
    ensures ProcTop(s, rootCopy).Some?
    ensures ProcTop(s, rootCopy).value ==
            s.(proc := if SignedAlready(s, s.proc.k) then Load(s.proc.k, s.proc.rec)
                       else Authorize(s.proc.k, s.proc.rec))
  {
    ReachableInv(c, s);
    TopDecides(c, s, rootCopy);
  }

  lemma TopDecides(c: Config, s: State, rootCopy: Row)
    requires AllRowsOk(s.rows) && OwnedOk(c, s.rows, s.owners, s.records) && ProcRecordOk(c, s.records, s.proc)
    requires s.proc.Top? && s.proc.rec.status.WPending? && ReadsFresh(s, s.proc.k, rootCopy)
    ensures ProcTop(s, rootCopy).Some?
    ensures ProcTop(s, rootCopy).value ==
            s.(proc := if SignedAlready(s, s.proc.k) then Load(s.proc.k, s.proc.rec)
                       else Authorize(s.proc.k, s.proc.rec))
  {
    var stored := s.records[s.proc.k];
    if stored.txId.Some? {
      FreshCommitted(c, s, s.proc.k, stored.txId.value);
    } else {
      UnattachedOwnsNone(c, s, s.proc.k);
    }
  }

  lemma UnattachedOwnsNone(c: Config, s: State, k: nat)
    requires OwnedOk(c, s.rows, s.owners, s.records) && k < |s.records| && s.records[k].txId.None?
    ensures forall i :: 0 <= i < |s.rows| ==> s.owners[i] != k
  {
  }

  lemma FreshCommitted(c: Config, s: State, k: nat, root: nat)
    requires AllRowsOk(s.rows) && OwnedOk(c, s.rows, s.owners, s.records)
    requires k < |s.records| && s.records[k].txId == Some(root)
    ensures ChainHasCommittedBroadcast(Listing(s.rows, root, s.rows[root])) <==> SignedAlready(s, k)
  {
    var list, ids := Listing(s.rows, root, s.rows[root]), [root] + RetryIds(s.rows, root);
    FreshListing(c, s, k, root);
    if m :| 0 <= m < |list| && HasCommittedBroadcast(list[m]) {
      assert RowOk(s.rows[ids[m]]);
    }
    if i :| 0 <= i < |s.rows| && s.owners[i] == k && s.rows[i].signedRaw.Some? {
      var m :| 0 <= m < |ids| && ids[m] == i;
      assert HasCommittedBroadcast(list[m]);
    }
  }

  /** The check succeeds exactly for a signed request whose message no other stored record carries. */
  lemma AuthorizedExactly(c: Config, s: State)
    requires Reachable(c, s) && s.proc.Authorize?
    ensures s.proc.k < |s.records| && (ProcAuthorized(c, s).Some? <==> Authentic(c, s.records, s.proc.k))
    ensures ProcAuthorized(c, s).Some? ==> StampedBy(c, s.records, ProcAuthorized(c, s).value.records, s.proc.k)
  {
    ReachableInv(c, s);
    AuthorizedDecides(c, s);
  }

  /** Record `k` is signed by its requester, and its message is its own. */
  ghost predicate Authentic(c: Config, records: seq<Record>, k: nat)
    requires k < |records|
  {
    var r := records[k];
    var digest := c.digest(Authorization.Message(r.request));
    && r.request.timestamp != 0 && r.signature != "" && c.signs(r.request, r.signature)
    && (r.fingerprint.Some? ==> r.fingerprint.value == digest)
    && (r.fingerprint.None? ==>
          forall j :: 0 <= j < |records| && j != k ==> records[j].fingerprint != Some(digest))
  }

  /** The record carries its digest afterwards; no other column and no other record changes. */
  ghost predicate StampedBy(c: Config, records: seq<Record>, records': seq<Record>, k: nat)
    requires k < |records|
  {
    records' == records[k := records[k].(fingerprint := Some(c.digest(Authorization.Message(records[k].request))))]
  }

  lemma AuthorizedDecides(c: Config, s: State)
    requires ProcRecordOk(c, s.records, s.proc) && |s.owners| == |s.rows| && s.proc.Authorize?
    requires ProcPlaceOk(c, s.rows, s.owners, s.records, s.history, s.now, s.proc)
    ensures s.proc.k < |s.records| && (ProcAuthorized(c, s).Some? <==> Authentic(c, s.records, s.proc.k))
    ensures ProcAuthorized(c, s).Some? ==> StampedBy(c, s.records, ProcAuthorized(c, s).value.records, s.proc.k)
  {
    assert s.proc.rec == s.records[s.proc.k];
  }

  // ---------------------------------------------------------------- the timeout

  /** What the handler does with a late record, given its last attempt. */
  function TimeoutOutcome(s: State, last: nat): State
    requires !s.proc.Resting? && last < |s.rows|
  {
    var k, rec, r := s.proc.k, s.proc.rec, s.rows[last];
    if r.status.Pending? || r.status.Sending? then s.(proc := TimeoutCancel(k, rec, Some(Held(last, r))))
    else if r.status.Broadcasting? || r.status.Sent? then Stopped(s)
    else s.(proc := Top(k, rec, None))
  }

  /**
    A late record without a transaction is rejected; one with a transaction is cancelled exactly when its last
    attempt has not been signed, waits while that attempt is on its way, and is settled when it has ended.
  */
  lemma TimeoutExactly(c: Config, s: State, rootCopy: Row)
    requires Reachable(c, s) && s.proc.Timeout? && ReadsFresh(s, s.proc.k, rootCopy)
    ensures ProcTimeout(s, rootCopy).Some?
    ensures s.records[s.proc.k].txId.None? ==>
              ProcTimeout(s, rootCopy).value == s.(proc := RejectCheck(s.proc.k, s.proc.rec))
    ensures s.records[s.proc.k].txId.Some? ==>
              exists last :: LastOf(s, s.proc.k, last) && ProcTimeout(s, rootCopy).value == TimeoutOutcome(s, last)
  {
    ReachableInv(c, s);
    TimeoutDecides(c, s, rootCopy);
  }

  /** Row `last` is the last attempt of record `k`. */
  ghost predicate LastOf(s: State, k: nat, last: nat) {
    && |s.owners| == |s.rows| && last < |s.rows| && s.owners[last] == k
    && forall i :: 0 <= i < |s.rows| && s.owners[i] == k ==> i <= last
  }

  lemma TimeoutDecides(c: Config, s: State, rootCopy: Row)
    requires TableOk(s.rows) && OwnedOk(c, s.rows, s.owners, s.records) && ProcRecordOk(c, s.records, s.proc)
    requires ProcPlaceOk(c, s.rows, s.owners, s.records, s.history, s.now, s.proc)
    requires s.proc.Timeout? && ReadsFresh(s, s.proc.k, rootCopy)
    ensures ProcTimeout(s, rootCopy).Some?
    ensures s.records[s.proc.k].txId.None? ==>
              ProcTimeout(s, rootCopy).value == s.(proc := RejectCheck(s.proc.k, s.proc.rec))
    ensures s.records[s.proc.k].txId.Some? ==>
              exists last :: LastOf(s, s.proc.k, last) && ProcTimeout(s, rootCopy).value == TimeoutOutcome(s, last)
  {
    if s.records[s.proc.k].txId.Some? {
      var root := s.records[s.proc.k].txId.value;
      var last := CurrentId(s.rows, root);
      LastAttempt(c, s, s.proc.k, root);
      LastAttemptDecides(s, root, last);
    }
  }

  lemma LastAttemptDecides(s: State, root: nat, last: nat)
    requires s.proc.Timeout? && s.proc.rec.txId == Some(root) && root < |s.rows| && last < |s.rows|
    requires ReadCurrent(s.rows, root, s.rows[root]) == Held(last, s.rows[last]) && RowOk(s.rows[last])
    requires s.rows[last].status.Failed? ==> s.rows[last].retryCount >= s.rows[last].maxRetries
    ensures ProcTimeout(s, s.rows[root]) == Some(TimeoutOutcome(s, last))
  {
  }

  lemma LastAttempt(c: Config, s: State, k: nat, root: nat)
    requires TableOk(s.rows) && OwnedOk(c, s.rows, s.owners, s.records)
    requires k < |s.records| && s.records[k].txId == Some(root)
    ensures var last := CurrentId(s.rows, root);
            && LastOf(s, k, last) && ReadCurrent(s.rows, root, s.rows[root]) == Held(last, s.rows[last])
            && RowOk(s.rows[last])
            && (s.rows[last].status.Failed? ==> s.rows[last].retryCount >= s.rows[last].maxRetries)
  {
    ChainShapeOf(c, s.rows, s.owners, s.records, k, root);
    CurrentIsRead(s.rows, root);
    assert RowOk(s.rows[CurrentId(s.rows, root)]);
  }

  lemma CurrentIsRead(rows: seq<Row>, root: nat)
    requires root < |rows|
    ensures var last := CurrentId(rows, root);
            last < |rows| && ReadCurrent(rows, root, rows[root]) == Held(last, rows[last])
  {
    RetryIdsMembers(rows, root);
  }

  // ---------------------------------------------------------------- the sender

  /** Row `id` waits, and every earlier attempt of its record has failed for a stated reason. */
  ghost predicate Claimable(s: State, id: nat) {
    && id < |s.rows| == |s.owners| && s.rows[id].status.Pending? && s.rows[id].cancelRequestedAt.None?
    && forall j :: 0 <= j < id && s.owners[j] == s.owners[id] ==>
         s.rows[j].status.Failed? && s.rows[j].statusMessage != Some("Transaction timed out")
  }

  /** A row that was checked is claimed exactly when it still waits and every earlier attempt is disproven. */
  lemma ClaimExactly(c: Config, s: State)
    requires Reachable(c, s) && s.sender.Checked?
    ensures s.sender.id < |s.rows| && SenderClaim(s).Some?
    ensures SenderClaim(s).value.sender.Claimed? <==> Claimable(s, s.sender.id)
  {
    ReachableInv(c, s);
    ClaimDecides(c, s);
  }

  lemma ClaimDecides(c: Config, s: State)
    requires TableOk(s.rows) && OwnedOk(c, s.rows, s.owners, s.records)
    requires SenderOk(c, s.rows, s.chain.known, s.sender) && s.sender.Checked?
    ensures s.sender.id < |s.rows| && SenderClaim(s).Some?
    ensures SenderClaim(s).value.sender.Claimed? <==> Claimable(s, s.sender.id)
  {
    var id := s.sender.id;
    forall j | 0 <= j < id
      ensures s.owners[j] == s.owners[id] <==> RootOf(s.rows, j) == RootOf(s.rows, id)
    {
      SameOwnerSameRoot(c, s.rows, s.owners, s.records, j, id);
      assert RowOk(s.rows[j]);
    }
    assert RowOk(s.rows[id]);
  }

  lemma SameOwnerSameRoot(c: Config, rows: seq<Row>, owners: seq<nat>, records: seq<Record>, i: nat, j: nat)
    requires OwnedOk(c, rows, owners, records) && i < |rows| && j < |rows|
    ensures owners[i] == owners[j] <==> RootOf(rows, i) == RootOf(rows, j)
  {
  }

  /** A claimed row may be signed exactly while its network has fewer rows in flight than its limit. */
  lemma LimitExactly(c: Config, s: State)
    requires s.sender.Claimed? && s.sender.copy.order.network in c.networks
    ensures var network := s.sender.copy.order.network;
            SenderCheckLimit(c, s) ==
            Some(s.(sender := if |InFlightIds(s.rows, network)| < c.networks[network].sentLimit
                              then Allowed(s.sender.id, s.sender.copy) else Releasing(s.sender.id)))
  {
    InFlightCounts(s.rows, s.sender.copy.order.network);
  }
}
