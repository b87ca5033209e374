/** Every confirmer step keeps the invariant, however stale the confirmer's copy of the row is. */
module ConfirmerProofs {
  import opened Wrappers
  import opened Transactions
  import opened Chains
  import opened RelayLedger
  import opened Protocol
  import opened Invariants
  import opened TableProofs
  import opened SenderProofs

  /** Others touch the live row only before it is claimed, to flag it while it is claimed, or once it is sent. */
  lemma OtherUpdateKeepsSender(c: Config, rows: seq<Row>, id: nat, r: Row, known: set<TxKey>, sender: Sender)
    requires TableOk(rows) && SenderOk(c, rows, known, sender) && GoodUpdate(rows, id, r)
    requires r.signedRaw == rows[id].signedRaw && r.txHash == rows[id].txHash && r.nonce == rows[id].nonce
    requires rows[id].status.Sent? || rows[id].status.Pending? || r.status == rows[id].status
    requires Acknowledged(r) ==> Acknowledged(rows[id])
    ensures SenderOk(c, rows[id := r], known, sender)
  {
    LiveIsLast(rows, id);
    var rows' := rows[id := r];
    if !sender.Idle? && !sender.Releasing? {
      EvolvesTransitive(sender.copy, rows[sender.id], rows'[sender.id]);
      if sender.HasNonce? {
        assert AboveAcknowledged(rows', sender.copy.order.network, sender.nonce);
      }
      if sender.Signed? {
        assert AboveAcknowledged(rows', sender.copy.order.network, sender.payload.nonce);
      }
    }
  }

  /** A row update by someone other than the sender, from `s` to `s'`. */
  lemma OtherRowFrame(c: Config, s: State, s': State, id: nat, r: Row)
    requires Inv(c, s) && GoodUpdate(s.rows, id, r)
    requires s' == s.(rows := s.rows[id := r], jobs := s'.jobs)
    requires s'.jobs.Keys <= s.jobs.Keys && forall j :: j in s'.jobs ==> s'.jobs[j] == s.jobs[j]
    requires r.signedRaw == s.rows[id].signedRaw && r.txHash == s.rows[id].txHash && r.nonce == s.rows[id].nonce
    requires s.rows[id].status.Sent? || s.rows[id].status.Pending? || r.status == s.rows[id].status
    requires Acknowledged(r) ==> Acknowledged(s.rows[id])
    requires r.status.Failed? ==> r.retryCount >= r.maxRetries
    requires r.status.Broadcasting? || r.status.Sent? ==> r.status == s.rows[id].status
    requires r.txHash.Some? ==> RowOnChain(c, s.chain, r)
    ensures Inv(c, s')
  {
    UpdateKeepsRest(c, s, id, r);
    UpdateKeepsChain(c, s.rows, id, r, s.chain);
    UpdateKeepsCursors(s.rows, id, r, s.cursors);
    OtherUpdateKeepsSender(c, s.rows, id, r, s.chain.known, s.sender);
    UpdateKeepsLimit(c, s.rows, id, r);
    FewerJobs(c, s'.rows, s.chain, s.jobs, s'.jobs);
  }

  lemma UpdateKeepsLimit(c: Config, rows: seq<Row>, id: nat, r: Row)
    requires LimitOk(c, rows) && id < |rows| && r.order == rows[id].order
    requires r.status.Broadcasting? || r.status.Sent? ==> r.status == rows[id].status
    ensures LimitOk(c, rows[id := r])
  {
  }

  lemma FewerJobs(c: Config, rows: seq<Row>, chain: Chain, jobs: map<nat, Job>, jobs': map<nat, Job>)
    requires JobsOk(c, rows, chain, jobs)
    requires jobs'.Keys <= jobs.Keys && forall j :: j in jobs' ==> jobs'[j] == jobs[j]
    ensures JobsOk(c, rows, chain, jobs')
  {
  }

  lemma JobsFrame(c: Config, s: State, s': State)
    requires Inv(c, s) && s' == s.(jobs := s'.jobs) && JobsOk(c, s.rows, s.chain, s'.jobs)
    ensures Inv(c, s')
  {
  }

  /**
    The receipt a job holds is the one on chain, unless receipts may vanish, so a deep one is final for the stored
    row.
  */
  lemma DeepIsFinal(c: Config, s: State, j: nat)
    requires AllRowsOk(s.rows) && JobsOk(c, s.rows, s.chain, s.jobs) && ChainOk(c, s.rows, s.chain)
    requires DeepReceipt(c, s, j)
    ensures var row := s.rows[s.jobs[j].id];
            && row.txHash.Some?
            && (!c.receiptsMayVanish ==>
                  Final(c, s.chain, KeyOf(row))
                  && s.chain.receipts[KeyOf(row)] == s.jobs[j].receipt.value)
            && s.jobs[j].receipt.value.block > 0
            && KeyOf(row) in s.chain.known
  {
    assert JobOk(c, s.rows, s.chain, s.jobs[j]);
    assert RowOk(s.rows[s.jobs[j].id]);
  }

  lemma ConfirmKeepsInv(c: Config, s: State, j: nat, s': State)
    requires Inv(c, s) && JobConfirm(c, s, j) == Some(s')
    ensures Inv(c, s')
  {
    DeepIsFinal(c, s, j);
    var id, block := s.jobs[j].id, s.jobs[j].receipt.value.block;
    FewerJobs(c, s.rows, s.chain, s.jobs, s.jobs - {j});
    if CasMarkConfirmed(s.rows[id], block).Some? {
      var r := CasMarkConfirmed(s.rows[id], block).value;
      CasKeepsRow(s.rows[id], r, 0, block, "", Payload(0, r.order, 0));
      OtherRowFrame(c, s, s', id, r);
    } else {
      JobsFrame(c, s, s');
    }
  }

  lemma DelayKeepsInv(c: Config, s: State, j: nat, s': State)
    requires Inv(c, s) && JobDelay(s, j) == Some(s')
    ensures Inv(c, s')
  {
    DelayTouchesJobs(s, j, s');
    FewerJobs(c, s.rows, s.chain, s.jobs, s'.jobs);
    if s' == s.(jobs := s'.jobs) {
      JobsFrame(c, s, s');
    } else {
      DelayedKeepsInv(c, s, s', s.jobs[j].id);
    }
  }

  lemma DelayTouchesJobs(s: State, j: nat, s': State)
    requires JobDelay(s, j) == Some(s')
    ensures s'.jobs == s.jobs - {j}
    ensures s' != s.(jobs := s'.jobs) ==>
              && CasMarkReceiptDelayed(s.rows[s.jobs[j].id]).Some?
              && s' == s.(rows := s.rows[s.jobs[j].id := CasMarkReceiptDelayed(s.rows[s.jobs[j].id]).value],
                          jobs := s'.jobs)
  {
  }

  lemma DelayedKeepsInv(c: Config, s: State, s': State, id: nat)
    requires Inv(c, s) && id < |s.rows| && CasMarkReceiptDelayed(s.rows[id]).Some?
    requires s' == s.(rows := s.rows[id := CasMarkReceiptDelayed(s.rows[id]).value], jobs := s'.jobs)
    requires s'.jobs.Keys <= s.jobs.Keys && forall j :: j in s'.jobs ==> s'.jobs[j] == s.jobs[j]
    ensures Inv(c, s')
  {
    DelayFacts(c, s.rows, s.chain, id);
    OtherRowFrame(c, s, s', id, CasMarkReceiptDelayed(s.rows[id]).value);
  }

  lemma DelayFacts(c: Config, rows: seq<Row>, chain: Chain, id: nat)
    requires AllRowsOk(rows) && ChainOk(c, rows, chain) && id < |rows| && CasMarkReceiptDelayed(rows[id]).Some?
    ensures var r := CasMarkReceiptDelayed(rows[id]).value;
            && GoodUpdate(rows, id, r) && (r.txHash.Some? ==> RowOnChain(c, chain, r))
            && r.signedRaw == rows[id].signedRaw && r.txHash == rows[id].txHash && r.nonce == rows[id].nonce
            && r.status.Sent? && rows[id].status.Sent?
  {
    var r := CasMarkReceiptDelayed(rows[id]).value;
    CasKeepsRow(rows[id], r, 0, 1, "", Payload(0, r.order, 0));
  }

  // ---------------------------------------------------------------- failure with a retry

  /** `rows'` and `owners'` are the tables after row `id`, which was sent, failed and got its retry. */
  ghost predicate Retried(rows: seq<Row>, rows': seq<Row>, owners: seq<nat>, owners': seq<nat>, id: nat) {
    && |owners| == |rows| && |rows'| == |rows| + 1 && id < |rows| && owners' == owners + [owners[id]]
    && RowsAdvance(rows, rows')
    && rows[id].status.Sent? && rows'[|rows|].status.Pending? && rows'[|rows|].txHash.None?
  }

  lemma RetryKeepsPaid(rows: seq<Row>, rows': seq<Row>, owners: seq<nat>, owners': seq<nat>, id: nat, k: nat, i: nat)
    requires Retried(rows, rows', owners, owners', id) && Paid(rows, owners, k, i)
    ensures Paid(rows', owners', k, i) && rows'[i] == rows[i]
  {
    assert owners[id] != k;
  }

  lemma RetryKeepsFailed(rows: seq<Row>, rows': seq<Row>, owners: seq<nat>, owners': seq<nat>, id: nat, k: nat)
    requires Retried(rows, rows', owners, owners', id) && AllFailed(rows, owners, k)
    ensures AllFailed(rows', owners', k)
  {
    assert owners[id] != k;
  }

  lemma RetryKeepsHistory(c: Config, rows: seq<Row>, rows': seq<Row>, owners: seq<nat>, owners': seq<nat>, id: nat,
                          records: seq<Record>, history: History, now: nat)
    requires Retried(rows, rows', owners, owners', id) && HistoryOk(c, rows, owners, records, history, now)
    ensures HistoryOk(c, rows', owners', records, history, now)
  {
    forall k | k in history.rejects ensures RejectJustified(c, rows', owners', records[k], k, now) {
      RetryKeepsFailed(rows, rows', owners, owners', id, k);
    }
    forall k, h | (k, h) in history.fulfills ensures IsPaidBy(rows', owners', k, h) {
      var i: nat :| Paid(rows, owners, k, i) && rows[i].txHash == Some(h);
      RetryKeepsPaid(rows, rows', owners, owners', id, k, i);
    }
    forall k | 0 <= k < |records| && (records[k].status.WSuccess? || records[k].status.WFinished?)
      ensures IsPaid(rows', owners', k)
    {
      var i: nat :| Paid(rows, owners, k, i);
      RetryKeepsPaid(rows, rows', owners, owners', id, k, i);
    }
  }

  lemma RetryKeepsPlace(c: Config, rows: seq<Row>, rows': seq<Row>, owners: seq<nat>, owners': seq<nat>, id: nat,
                        records: seq<Record>, history: History, now: nat, proc: Proc)
    requires Retried(rows, rows', owners, owners', id) && (!proc.Resting? ==> proc.k < |records|)
    requires ProcPlaceOk(c, rows, owners, records, history, now, proc)
    ensures ProcPlaceOk(c, rows', owners', records, history, now, proc)
  {
    if HasHeld(proc) {
      if HeldOk(rows, owners, proc.k, proc.held) {
        AdvanceKeepsHeld(rows, rows', owners, owners', proc.k, proc.held);
      }
      if HeldPaid(rows, owners, proc.k, proc.held) {
        RetryKeepsPaid(rows, rows', owners, owners', id, proc.k, proc.held.value.id);
      }
    }
    if proc.Reject? {
      RetryKeepsFailed(rows, rows', owners, owners', id, proc.k);
    }
  }

  lemma RetryKeepsOwned(c: Config, rows: seq<Row>, rows': seq<Row>, owners: seq<nat>, owners': seq<nat>, id: nat,
                        records: seq<Record>)
    requires OwnedOk(c, rows, owners, records) && Retried(rows, rows', owners, owners', id)
    requires RootOf(rows', |rows|) == RootOf(rows, id) && rows'[|rows|].order == rows[id].order
    ensures OwnedOk(c, rows', owners', records)
  {
    assert forall i :: 0 <= i < |rows| ==> Evolves(rows[i], rows'[i]) && RootOf(rows', i) == RootOf(rows, i);
  }

  /** With a sent row in the table the sender owns nothing, so it only holds copies. */
  lemma RetryKeepsSender(c: Config, rows: seq<Row>, rows': seq<Row>, id: nat, known: set<TxKey>, sender: Sender)
    requires OnlyLastLive(rows) && id < |rows| && rows[id].status.Sent?
    requires SenderOk(c, rows, known, sender) && RowsAdvance(rows, rows')
    ensures SenderOk(c, rows', known, sender)
  {
    LiveIsLast(rows, id);
    if sender.Synced? || sender.Checked? {
      EvolvesTransitive(sender.copy, rows[sender.id], rows'[sender.id]);
    }
  }

  lemma RetryKeepsChain(c: Config, rows: seq<Row>, id: nat, r: Row, retry: Row, chain: Chain)
    requires ChainOk(c, rows, chain) && GoodUpdate(rows, id, r) && r.txHash.Some? && RowOnChain(c, chain, r)
    requires retry.txHash.None?
    ensures ChainOk(c, rows[id := r] + [retry], chain)
  {
    UpdateKeepsChain(c, rows, id, r, chain);
    var mid := rows[id := r];
    assert forall i :: 0 <= i < |mid| ==> (mid + [retry])[i] == mid[i];
  }

  lemma RetryKeepsCounters(c: Config, rows: seq<Row>, id: nat, r: Row, retry: Row, cursors: map<string, nat>)
    requires CursorsOk(rows, cursors) && LimitOk(c, rows) && id < |rows| && rows[id].status.Sent?
    requires r.order == rows[id].order && r.nonce == rows[id].nonce && r.status.Failed? && retry.status.Pending?
    ensures CursorsOk(rows[id := r] + [retry], cursors) && LimitOk(c, rows[id := r] + [retry])
  {
    var rows' := rows[id := r] + [retry];
    forall network | network in cursors ensures AboveAcknowledged(rows', network, cursors[network]) {
      assert AboveAcknowledged(rows, network, cursors[network]);
    }
  }

  lemma FailFacts(c: Config, s: State, j: nat, message: string)
    requires TableOk(s.rows) && JobsOk(c, s.rows, s.chain, s.jobs) && ChainOk(c, s.rows, s.chain)
    requires DeepReceipt(c, s, j)
    requires !s.jobs[j].receipt.value.ok
    requires CasMarkFailedFromSent(s.rows[s.jobs[j].id], s.jobs[j].receipt.value.block, message).Some?
    ensures var id, copy := s.jobs[j].id, s.jobs[j].copy;
            var r := CasMarkFailedFromSent(s.rows[id], s.jobs[j].receipt.value.block, message).value;
            && GoodUpdate(s.rows, id, r) && s.rows[id].status.Sent? && r.status.Failed?
            && r.signedRaw == s.rows[id].signedRaw && r.txHash == s.rows[id].txHash && r.nonce == s.rows[id].nonce
            && r.txHash.Some? && RowOnChain(c, s.chain, r)
            && copy.order == r.order && copy.retryCount == r.retryCount && copy.maxRetries == r.maxRetries
            && copy.root == r.root
  {
    DeepIsFinal(c, s, j);
    var id, block := s.jobs[j].id, s.jobs[j].receipt.value.block;
    var r := CasMarkFailedFromSent(s.rows[id], block, message).value;
    CasKeepsRow(s.rows[id], r, 0, block, message, Payload(0, r.order, 0));
    assert JobOk(c, s.rows, s.chain, s.jobs[j]);
  }

  lemma RetryFrame(c: Config, s: State, s': State)
    requires Inv(c, s)
    requires s' == s.(rows := s'.rows, owners := s'.owners, jobs := s'.jobs)
    requires TableOk(s'.rows) && LimitOk(c, s'.rows) && OwnedOk(c, s'.rows, s'.owners, s'.records)
    requires ChainOk(c, s'.rows, s'.chain) && CursorsOk(s'.rows, s'.cursors)
    requires SenderOk(c, s'.rows, s'.chain.known, s'.sender) && JobsOk(c, s'.rows, s'.chain, s'.jobs)
    requires HistoryOk(c, s'.rows, s'.owners, s'.records, s'.history, s'.now)
    requires ProcPlaceOk(c, s'.rows, s'.owners, s'.records, s'.history, s'.now, s'.proc)
    ensures Inv(c, s')
  {
  }

  lemma FailKeepsInv(c: Config, s: State, j: nat, message: string, s': State)
    requires Inv(c, s) && JobFail(c, s, j, message) == Some(s')
    ensures Inv(c, s')
  {
    FailTouchesJobs(c, s, j, message, s');
    FewerJobs(c, s.rows, s.chain, s.jobs, s'.jobs);
    if s' == s.(jobs := s'.jobs) {
      JobsFrame(c, s, s');
    } else {
      MarkFailedKeepsInv(c, s, j, message, s');
    }
  }

  lemma FailTouchesJobs(c: Config, s: State, j: nat, message: string, s': State)
    requires JobFail(c, s, j, message) == Some(s')
    ensures s'.jobs == s.jobs - {j}
    ensures s' != s.(jobs := s'.jobs) ==> CasMarkFailedFromSent(s.rows[s.jobs[j].id], s.jobs[j].receipt.value.block,
                                                                message).Some?
  {
  }

  lemma MarkFailedKeepsInv(c: Config, s: State, j: nat, message: string, s': State)
    requires Inv(c, s) && JobFail(c, s, j, message) == Some(s') && JobsOk(c, s.rows, s.chain, s'.jobs)
    requires s'.jobs.Keys <= s.jobs.Keys && forall j :: j in s'.jobs ==> s'.jobs[j] == s.jobs[j]
    requires CasMarkFailedFromSent(s.rows[s.jobs[j].id], s.jobs[j].receipt.value.block, message).Some?
    ensures Inv(c, s')
  {
    var id, copy := s.jobs[j].id, s.jobs[j].copy;
    var r := CasMarkFailedFromSent(s.rows[id], s.jobs[j].receipt.value.block, message).value;
    FailFacts(c, s, j, message);
    if copy.retryCount < copy.maxRetries {
      FailAndRetryKeepsInv(c, s, s', id, r, copy);
    } else {
      FailForGoodKeepsInv(c, s, s', id, r);
    }
  }

  lemma FailForGoodKeepsInv(c: Config, s: State, s': State, id: nat, r: Row)
    requires Inv(c, s) && GoodUpdate(s.rows, id, r) && s.rows[id].status.Sent? && r.status.Failed?
    requires r.signedRaw == s.rows[id].signedRaw && r.txHash == s.rows[id].txHash && r.nonce == s.rows[id].nonce
    requires r.txHash.Some? && RowOnChain(c, s.chain, r) && r.retryCount >= r.maxRetries
    requires s' == s.(rows := s.rows[id := r], jobs := s'.jobs)
    requires s'.jobs.Keys <= s.jobs.Keys && forall j :: j in s'.jobs ==> s'.jobs[j] == s.jobs[j]
    ensures Inv(c, s')
  {
    OtherRowFrame(c, s, s', id, r);
  }

  lemma FailAndRetryKeepsInv(c: Config, s: State, s': State, id: nat, r: Row, copy: Row)
    requires Inv(c, s) && GoodUpdate(s.rows, id, r) && s.rows[id].status.Sent? && r.status.Failed?
    requires r.signedRaw == s.rows[id].signedRaw && r.txHash == s.rows[id].txHash && r.nonce == s.rows[id].nonce
    requires r.txHash.Some? && RowOnChain(c, s.chain, r) && r.retryCount < r.maxRetries
    requires copy.order == r.order && copy.retryCount == r.retryCount && copy.maxRetries == r.maxRetries
    requires copy.root == r.root
    requires s' == s.(rows := s.rows[id := r] + [RetryRow(id, copy)], owners := s.owners + [s.owners[id]],
                      jobs := s'.jobs)
    requires JobsOk(c, s.rows, s.chain, s'.jobs)
    ensures Inv(c, s')
  {
    FailAndRetryKeepsTable(s.rows, id, r, copy);
    assert Retried(s.rows, s'.rows, s.owners, s'.owners, id);
    RetryKeepsOwned(c, s.rows, s'.rows, s.owners, s'.owners, id, s.records);
    RetryKeepsHistory(c, s.rows, s'.rows, s.owners, s'.owners, id, s.records, s.history, s.now);
    RetryKeepsPlace(c, s.rows, s'.rows, s.owners, s'.owners, id, s.records, s.history, s.now, s.proc);
    RetryKeepsSender(c, s.rows, s'.rows, id, s.chain.known, s.sender);
    RetryKeepsChain(c, s.rows, id, r, RetryRow(id, copy), s.chain);
    RetryKeepsCounters(c, s.rows, id, r, RetryRow(id, copy), s.cursors);
    AdvanceKeepsJobs(c, s.rows, s'.rows, s.chain, s'.jobs);
    RetryFrame(c, s, s');
  }

  // ---------------------------------------------------------------- all confirmer steps

  lemma JobReadFacts(c: Config, s: State, j: nat, a: JobStep)
    requires AllRowsOk(s.rows) && ChainOk(c, s.rows, s.chain) && JobsOk(c, s.rows, s.chain, s.jobs)
    requires JobNext(c, s, j, a).Some?
    requires a.Fetch? || a.ReadReceipt? || a.Drop?
    ensures var s' := JobNext(c, s, j, a).value; s' == s.(jobs := s'.jobs) && JobsOk(c, s.rows, s.chain, s'.jobs)
  {
    if a.Fetch? {
      assert RowOk(s.rows[a.id]);
    }
  }

  lemma JobKeepsInv(c: Config, s: State, j: nat, a: JobStep, s': State)
    requires Inv(c, s) && JobNext(c, s, j, a) == Some(s')
    ensures Inv(c, s')
  {
    match a
    case Confirm => ConfirmKeepsInv(c, s, j, s');
    case Fail(message) => FailKeepsInv(c, s, j, message, s');
    case Delay => DelayKeepsInv(c, s, j, s');
    case _ =>
      JobReadFacts(c, s, j, a);
      JobsFrame(c, s, s');
  }
}
