/** How updating or appending a row of the transaction table affects each invariant. */
module TableProofs {
  import opened Wrappers
  import opened Transactions
  import opened Chains
  import opened RelayLedger
  import opened Protocol
  import opened Invariants

  lemma LiveIsLast(rows: seq<Row>, id: nat)
    requires OnlyLastLive(rows) && id < |rows| && !Terminal(rows[id])
    ensures id == |rows| - 1
  {
  }

  /** The payload columns of the row are unchanged, or get a fresh hash and a nonce above all earlier ones. */
  ghost predicate PayloadStep(rows: seq<Row>, id: nat, r: Row)
    requires id < |rows|
  {
    || (r.signedRaw == rows[id].signedRaw && r.txHash == rows[id].txHash && r.nonce == rows[id].nonce)
    || (r.signedRaw.Some? && !HashTaken(rows, r.signedRaw.value.hash)
        && AboveAcknowledged(rows, r.order.network, r.signedRaw.value.nonce))
  }

  /** Updating the live row. */
  ghost predicate GoodUpdate(rows: seq<Row>, id: nat, r: Row) {
    && id < |rows| && !Terminal(rows[id])
    && RowOk(r) && Evolves(rows[id], r) && PayloadStep(rows, id, r)
  }

  lemma UpdateKeepsChains(rows: seq<Row>, id: nat, r: Row)
    requires ChainsOk(rows) && OnlyLastLive(rows) && GoodUpdate(rows, id, r)
    ensures ChainsOk(rows[id := r]) && OnlyLastLive(rows[id := r])
    ensures forall i :: 0 <= i < |rows| ==> RootOf(rows[id := r], i) == RootOf(rows, i)
  {
    var rows' := rows[id := r];
    LiveIsLast(rows, id);
    assert forall i :: 0 <= i < |rows| ==>
      (rows'[i].root == rows[i].root && rows'[i].order == rows[i].order
       && rows'[i].retryCount == rows[i].retryCount && rows'[i].maxRetries == rows[i].maxRetries);
    assert forall i :: 0 <= i < |rows| ==> RootOf(rows', i) == RootOf(rows, i);
    forall i | 0 <= i < |rows'| && rows'[i].root.Some? ensures RetryOk(rows', i) {
      assert RetryOk(rows, i);
    }
  }

  lemma UpdateKeepsPayloads(rows: seq<Row>, id: nat, r: Row)
    requires AllRowsOk(rows) && OnlyLastLive(rows) && HashesDistinct(rows) && NoncesIncrease(rows)
    requires GoodUpdate(rows, id, r)
    ensures HashesDistinct(rows[id := r]) && NoncesIncrease(rows[id := r])
  {
    LiveIsLast(rows, id);
    var rows' := rows[id := r];
    forall i | 0 <= i < id && rows[i].txHash.Some? ensures rows[i].txHash != r.txHash {
      assert RowOk(rows[i]);
    }
    forall i | 0 <= i < id && rows[i].nonce.Some? && r.nonce.Some? && rows[i].order.network == r.order.network
      ensures rows[i].nonce.value < r.nonce.value
    {
      assert RowOk(rows[i]) && Terminal(rows[i]);
    }
  }

  /** Any conditional update of the live row keeps the table, as long as a failure leaves no retry owing. */
  lemma UpdateKeepsTable(rows: seq<Row>, id: nat, r: Row)
    requires TableOk(rows) && GoodUpdate(rows, id, r)
    requires r.status.Failed? ==> r.retryCount >= r.maxRetries
    ensures TableOk(rows[id := r])
    ensures RowsAdvance(rows, rows[id := r])
    ensures forall i :: 0 <= i < |rows| ==> RootOf(rows[id := r], i) == RootOf(rows, i)
  {
    var rows' := rows[id := r];
    LiveIsLast(rows, id);
    UpdateKeepsChains(rows, id, r);
    UpdateKeepsPayloads(rows, id, r);
    forall i | 0 <= i < |rows'| && rows'[i].status.Failed? && rows'[i].retryCount < rows'[i].maxRetries
      ensures HasSuccessor(rows', i)
    {
      assert HasSuccessor(rows, i);
    }
    assert AllRowsOk(rows');
  }

  /** A new root row, when every row is settled. */
  lemma AppendRootKeepsTable(rows: seq<Row>, r: Row)
    requires TableOk(rows) && (forall i :: 0 <= i < |rows| ==> Terminal(rows[i]))
    requires RowOk(r) && r.root.None? && r.retryCount == 0 && r.status.Pending?
    ensures TableOk(rows + [r]) && RowsAdvance(rows, rows + [r])
    ensures forall i :: 0 <= i < |rows| ==> RootOf(rows + [r], i) == RootOf(rows, i)
  {
    var rows' := rows + [r];
    assert forall i :: 0 <= i < |rows| ==> rows'[i] == rows[i];
    assert forall i :: 0 <= i < |rows| ==> RootOf(rows', i) == RootOf(rows, i);
    forall i | 0 <= i < |rows'| && rows'[i].root.Some? ensures RetryOk(rows', i) {
      assert RetryOk(rows, i);
    }
    forall i | 0 <= i < |rows'| && rows'[i].status.Failed? && rows'[i].retryCount < rows'[i].maxRetries
      ensures HasSuccessor(rows', i)
    {
      assert HasSuccessor(rows, i);
    }
    forall i | 0 <= i < |rows| ensures RootOf(rows', i) < |rows| {
      if rows[i].root.Some? {
        assert RetryOk(rows, i);
      }
    }
  }

  lemma AppendRetryKeepsChains(rows: seq<Row>, retry: Row)
    requires ChainsOk(rows) && rows != [] && rows[|rows| - 1].status.Failed?
    requires retry.root == Some(RootOf(rows, |rows| - 1))
    requires retry.order == rows[|rows| - 1].order && retry.maxRetries == rows[|rows| - 1].maxRetries
    requires retry.retryCount == rows[|rows| - 1].retryCount + 1
    ensures ChainsOk(rows + [retry])
    ensures forall i :: 0 <= i < |rows| ==> RootOf(rows + [retry], i) == RootOf(rows, i)
  {
    var rows', last := rows + [retry], |rows| - 1;
    assert forall i :: 0 <= i < |rows| ==> rows'[i] == rows[i];
    assert forall i :: 0 <= i < |rows| ==> RootOf(rows', i) == RootOf(rows, i);
    if rows[last].root.Some? {
      assert RetryOk(rows, last);
    }
    forall i | 0 <= i < |rows'| && rows'[i].root.Some? ensures RetryOk(rows', i) {
      if i < |rows| {
        assert RetryOk(rows, i);
      }
    }
    forall i, j | 0 <= i < j < |rows'| && RootOf(rows', i) == RootOf(rows', j) ensures rows'[i].status.Failed? {
      if j == |rows| && i < last {
        assert RootOf(rows, i) == RootOf(rows, last);
      }
    }
  }

  lemma AppendKeepsPayloads(rows: seq<Row>, r: Row)
    requires HashesDistinct(rows) && NoncesIncrease(rows) && r.txHash.None? && r.nonce.None?
    ensures HashesDistinct(rows + [r]) && NoncesIncrease(rows + [r])
  {
  }

  /** A live row fails and its retry is appended in the same transaction. */
  lemma FailAndRetryKeepsTable(rows: seq<Row>, id: nat, r: Row, copy: Row)
    requires TableOk(rows) && GoodUpdate(rows, id, r)
    requires r.status.Failed? && r.retryCount < r.maxRetries
    requires copy.order == r.order && copy.retryCount == r.retryCount && copy.maxRetries == r.maxRetries
    requires copy.root == r.root
    ensures var rows' := rows[id := r] + [RetryRow(id, copy)];
            && TableOk(rows') && RowsAdvance(rows, rows')
            && (forall i :: 0 <= i < |rows| ==> RootOf(rows', i) == RootOf(rows, i))
            && RootOf(rows', |rows|) == RootOf(rows, id)
  {
    var mid, retry := rows[id := r], RetryRow(id, copy);
    var rows' := mid + [retry];
    LiveIsLast(rows, id);
    UpdateKeepsChains(rows, id, r);
    UpdateKeepsPayloads(rows, id, r);
    AppendRetryKeepsChains(mid, retry);
    AppendKeepsPayloads(mid, retry);
    FailAndRetryLeavesNoneOwing(rows, id, r, retry);
    FailAndRetryKeepsRows(rows, id, r, retry);
  }

  lemma FailAndRetryKeepsRows(rows: seq<Row>, id: nat, r: Row, retry: Row)
    requires AllRowsOk(rows) && OnlyLastLive(rows) && id == |rows| - 1 && RowOk(r) && Terminal(r) && RowOk(retry)
    requires Evolves(rows[id], r)
    ensures AllRowsOk(rows[id := r] + [retry]) && OnlyLastLive(rows[id := r] + [retry])
    ensures RowsAdvance(rows, rows[id := r] + [retry])
  {
  }

  lemma FailAndRetryLeavesNoneOwing(rows: seq<Row>, id: nat, r: Row, retry: Row)
    requires RetriesCreated(rows) && id == |rows| - 1 && Evolves(rows[id], r)
    requires retry.root == Some(RootOf(rows, id)) && retry.status.Pending?
    ensures RetriesCreated(rows[id := r] + [retry])
  {
    var rows' := rows[id := r] + [retry];
    forall i | 0 <= i < |rows'| && rows'[i].status.Failed? && rows'[i].retryCount < rows'[i].maxRetries
      ensures HasSuccessor(rows', i)
    {
      if i < id {
        assert HasSuccessor(rows, i);
      }
    }
  }

  // ---------------------------------------------------------------- consequences of moving forward

  lemma AdvanceKeepsPaid(rows: seq<Row>, rows': seq<Row>, owners: seq<nat>, k: nat, i: nat)
    requires |owners| == |rows| == |rows'| && RowsAdvance(rows, rows')
    requires Paid(rows, owners, k, i)
    ensures Paid(rows', owners, k, i) && rows'[i] == rows[i]
  {
  }

  lemma AdvanceKeepsHistory(c: Config, rows: seq<Row>, rows': seq<Row>, owners: seq<nat>, records: seq<Record>,
                            history: History, now: nat)
    requires HistoryOk(c, rows, owners, records, history, now)
    requires |rows'| == |rows| && RowsAdvance(rows, rows')
    ensures HistoryOk(c, rows', owners, records, history, now)
  {
    forall k, h | (k, h) in history.fulfills ensures IsPaidBy(rows', owners, k, h) {
      var i: nat :| Paid(rows, owners, k, i) && rows[i].txHash == Some(h);
      AdvanceKeepsPaid(rows, rows', owners, k, i);
    }
    forall k | 0 <= k < |records| && (records[k].status.WSuccess? || records[k].status.WFinished?)
      ensures IsPaid(rows', owners, k)
    {
      var i: nat :| Paid(rows, owners, k, i);
      AdvanceKeepsPaid(rows, rows', owners, k, i);
    }
  }

  lemma AdvanceKeepsJobs(c: Config, rows: seq<Row>, rows': seq<Row>, chain: Chain, jobs: map<nat, Job>)
    requires JobsOk(c, rows, chain, jobs) && RowsAdvance(rows, rows')
    ensures JobsOk(c, rows', chain, jobs)
  {
    forall j | j in jobs ensures JobOk(c, rows', chain, jobs[j]) {
      EvolvesTransitive(jobs[j].copy, rows[jobs[j].id], rows'[jobs[j].id]);
    }
  }

  lemma AdvanceKeepsHeld(rows: seq<Row>, rows': seq<Row>, owners: seq<nat>, owners': seq<nat>, k: nat,
                         held: Option<Held>)
    requires |owners| == |rows| && |owners'| == |rows'| && owners <= owners' && RowsAdvance(rows, rows')
    requires HeldOk(rows, owners, k, held)
    ensures HeldOk(rows', owners', k, held)
  {
    if held.Some? {
      EvolvesTransitive(held.value.row, rows[held.value.id], rows'[held.value.id]);
    }
  }

  lemma AdvanceKeepsPlace(c: Config, rows: seq<Row>, rows': seq<Row>, owners: seq<nat>, records: seq<Record>,
                          history: History, now: nat, proc: Proc)
    requires |owners| == |rows| && (!proc.Resting? ==> proc.k < |records|)
    requires ProcPlaceOk(c, rows, owners, records, history, now, proc)
    requires |rows'| == |rows| && RowsAdvance(rows, rows')
    ensures ProcPlaceOk(c, rows', owners, records, history, now, proc)
  {
    if HasHeld(proc) {
      if HeldOk(rows, owners, proc.k, proc.held) {
        AdvanceKeepsHeld(rows, rows', owners, owners, proc.k, proc.held);
      }
      if HeldPaid(rows, owners, proc.k, proc.held) {
        AdvanceKeepsPaid(rows, rows', owners, proc.k, proc.held.value.id);
      }
    }
  }

  ghost predicate HasHeld(proc: Proc) {
    proc.Top? || proc.Unauthorized? || proc.Revoking? || proc.Poll? || proc.Debit? || proc.Finish? || proc.Fulfill?
    || proc.FulfillWrite? || proc.TimeoutCancel? || proc.TimeoutSettle?
  }

  lemma AdvanceKeepsOwned(c: Config, rows: seq<Row>, rows': seq<Row>, owners: seq<nat>, records: seq<Record>)
    requires OwnedOk(c, rows, owners, records)
    requires |rows'| == |rows| && RowsAdvance(rows, rows')
    ensures OwnedOk(c, rows', owners, records)
  {
    assert forall i :: 0 <= i < |rows| ==> Evolves(rows[i], rows'[i]) && RootOf(rows', i) == RootOf(rows, i);
  }

  /** Rows other than the sender's keep the chain facts; so does the sender's row with a fitting status. */
  lemma UpdateKeepsChain(c: Config, rows: seq<Row>, id: nat, r: Row, chain: Chain)
    requires ChainOk(c, rows, chain) && GoodUpdate(rows, id, r)
    requires r.txHash.Some? ==> RowOnChain(c, chain, r)
    ensures ChainOk(c, rows[id := r], chain)
  {
  }
}
