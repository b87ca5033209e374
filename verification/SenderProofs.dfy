/** Every sender step keeps the invariant. */
module SenderProofs {
  import opened Wrappers
  import opened Transactions
  import opened Chains
  import opened RelayLedger
  import opened Protocol
  import opened Invariants
  import opened TableProofs

  /** Updating the live row keeps everything that does not speak of the chain, the sender or its limits. */
  lemma UpdateKeepsRest(c: Config, s: State, id: nat, r: Row)
    requires Inv(c, s) && GoodUpdate(s.rows, id, r)
    requires r.status.Failed? ==> r.retryCount >= r.maxRetries
    ensures var rows' := s.rows[id := r];
            && TableOk(rows') && RowsAdvance(s.rows, rows')
            && OwnedOk(c, rows', s.owners, s.records)
            && JobsOk(c, rows', s.chain, s.jobs)
            && HistoryOk(c, rows', s.owners, s.records, s.history, s.now)
            && ProcPlaceOk(c, rows', s.owners, s.records, s.history, s.now, s.proc)
  {
    var rows' := s.rows[id := r];
    UpdateKeepsTable(s.rows, id, r);
    AdvanceKeepsOwned(c, s.rows, rows', s.owners, s.records);
    AdvanceKeepsJobs(c, s.rows, rows', s.chain, s.jobs);
    AdvanceKeepsHistory(c, s.rows, rows', s.owners, s.records, s.history, s.now);
    AdvanceKeepsPlace(c, s.rows, rows', s.owners, s.records, s.history, s.now, s.proc);
  }

  /** The invariant of a state that differs in the sender's corner only. */
  lemma SenderFrame(c: Config, s: State, s': State)
    requires Inv(c, s)
    requires s' == s.(sender := s'.sender, cursors := s'.cursors, chain := s'.chain)
    requires CursorsOk(s'.rows, s'.cursors) && ChainOk(c, s'.rows, s'.chain)
    requires SenderOk(c, s'.rows, s'.chain.known, s'.sender) && JobsOk(c, s'.rows, s'.chain, s'.jobs)
    ensures Inv(c, s')
  {
  }

  /** The sender updates the live row from `s` to `s'`. */
  lemma SenderRowFrame(c: Config, s: State, s': State, id: nat, r: Row)
    requires Inv(c, s) && GoodUpdate(s.rows, id, r) && !r.status.Failed?
    requires s' == s.(rows := s.rows[id := r], sender := s'.sender, cursors := s'.cursors)
    requires r.txHash.Some? ==> RowOnChain(c, s.chain, r)
    requires CursorsOk(s'.rows, s'.cursors) && LimitOk(c, s'.rows)
    requires SenderOk(c, s'.rows, s'.chain.known, s'.sender)
    ensures Inv(c, s')
  {
    UpdateKeepsRest(c, s, id, r);
    UpdateKeepsChain(c, s.rows, id, r, s.chain);
  }

  /** A row that stays unacknowledged, or already was, does not disturb the cursors. */
  lemma UpdateKeepsCursors(rows: seq<Row>, id: nat, r: Row, cursors: map<string, nat>)
    requires CursorsOk(rows, cursors) && id < |rows| && r.order == rows[id].order
    requires Acknowledged(r) ==> Acknowledged(rows[id]) && r.nonce == rows[id].nonce
    ensures CursorsOk(rows[id := r], cursors)
  {
    forall network | network in cursors ensures AboveAcknowledged(rows[id := r], network, cursors[network]) {
      assert AboveAcknowledged(rows, network, cursors[network]);
    }
  }

  lemma ClaimFacts(c: Config, rows: seq<Row>, cursors: map<string, nat>, known: set<TxKey>, id: nat, copy: Row)
    requires TableOk(rows) && LimitOk(c, rows) && CursorsOk(rows, cursors)
    requires id < |rows| && Evolves(copy, rows[id]) && copy.status.Pending? && copy.signedRaw.None? && copy.txHash.None?
    requires CasClaim(rows[id]).Some?
    ensures var r := CasClaim(rows[id]).value;
            && GoodUpdate(rows, id, r) && !r.status.Failed? && r.txHash.None?
            && LimitOk(c, rows[id := r]) && CursorsOk(rows[id := r], cursors)
            && SenderOk(c, rows[id := r], known, Claimed(id, copy.(status := Sending)))
  {
    var r := CasClaim(rows[id]).value;
    CasKeepsRow(rows[id], r, 0, 1, "", Payload(0, rows[id].order, 0));
    UpdateKeepsCursors(rows, id, r, cursors);
  }

  lemma ClaimKeepsInv(c: Config, s: State)
    requires Inv(c, s) && SenderClaim(s).Some?
    ensures Inv(c, SenderClaim(s).value)
  {
    var s', id, copy := SenderClaim(s).value, s.sender.id, s.sender.copy;
    if s'.sender.Claimed? {
      ClaimFacts(c, s.rows, s.cursors, s.chain.known, id, copy);
      SenderRowFrame(c, s, s', id, CasClaim(s.rows[id]).value);
    } else {
      SenderFrame(c, s, s');
    }
  }

  lemma TakeNonceKeepsInv(c: Config, s: State, pending: nat)
    requires Inv(c, s) && SenderTakeNonce(s, pending).Some?
    ensures Inv(c, SenderTakeNonce(s, pending).value)
  {
    var s' := SenderTakeNonce(s, pending).value;
    assert CursorsOk(s'.rows, s'.cursors);
    SenderFrame(c, s, s');
  }

  lemma PrepareFacts(c: Config, rows: seq<Row>, cursors: map<string, nat>, chain: Chain, id: nat, copy: Row, p: Payload)
    requires TableOk(rows) && LimitOk(c, rows) && CursorsOk(rows, cursors)
    requires SenderOk(c, rows, chain.known, Signed(id, copy, p)) && !HashTaken(rows, p.hash)
    requires CasPrepare(rows[id], p).Some?
    ensures var r := CasPrepare(rows[id], p).value;
            && GoodUpdate(rows, id, r) && !r.status.Failed? && r.txHash.Some? && RowOnChain(c, chain, r)
            && LimitOk(c, rows[id := r]) && CursorsOk(rows[id := r], cursors)
            && SenderOk(c, rows[id := r], chain.known,
                        Prepared(id, copy.(status := Broadcasting, txHash := Some(p.hash), nonce := Some(p.nonce),
                                           signedRaw := Some(p))))
  {
    var r := CasPrepare(rows[id], p).value;
    CasKeepsRow(rows[id], r, 0, 1, "", p);
    UpdateKeepsCursors(rows, id, r, cursors);
  }

  lemma PrepareKeepsInv(c: Config, s: State)
    requires Inv(c, s) && SenderPrepare(s).Some?
    ensures Inv(c, SenderPrepare(s).value)
  {
    var s', id, copy, p := SenderPrepare(s).value, s.sender.id, s.sender.copy, s.sender.payload;
    if s'.sender.Prepared? {
      PrepareFacts(c, s.rows, s.cursors, s.chain, id, copy, p);
      SenderRowFrame(c, s, s', id, CasPrepare(s.rows[id], p).value);
    } else {
      SenderFrame(c, s, s');
    }
  }

  /** A submission records the persisted payload of a row that is already `Broadcasting`. */
  lemma SubmitFacts(c: Config, rows: seq<Row>, chain: Chain, id: nat, copy: Row, reaches: bool)
    requires TableOk(rows) && ChainOk(c, rows, chain) && Committed(rows, id, copy)
    ensures var known := if reaches then chain.known + {KeyOf(copy)} else chain.known;
            ChainOk(c, rows, chain.(known := known, sends := chain.sends + [Send(id, copy.signedRaw.value)]))
  {
    var known := if reaches then chain.known + {KeyOf(copy)} else chain.known;
    var sends, sends' := chain.sends, chain.sends + [Send(id, copy.signedRaw.value)];
    assert RowOk(rows[id]);
    forall key | key in known ensures WasSent(sends', key) {
      if key in chain.known {
        var n :| 0 <= n < |sends| && TxKey(sends[n].payload.order.network, sends[n].payload.hash) == key;
        assert sends'[n] == sends[n];
      } else {
        assert sends'[|sends|].payload == copy.signedRaw.value;
      }
    }
    var chain' := chain.(known := known, sends := sends');
    assert forall k :: Final(c, chain', k) == Final(c, chain, k);
  }

  lemma SubmitKeepsInv(c: Config, s: State, reaches: bool, acknowledged: bool)
    requires Inv(c, s) && SenderSubmit(s, reaches, acknowledged).Some?
    ensures Inv(c, SenderSubmit(s, reaches, acknowledged).value)
  {
    var s' := SenderSubmit(s, reaches, acknowledged).value;
    SubmitFacts(c, s.rows, s.chain, s.sender.id, s.sender.copy, reaches);
    SameReceiptsKeepJobs(c, s.rows, s.chain, s'.chain, s.jobs);
    SenderFrame(c, s, s');
  }

  lemma SameReceiptsKeepJobs(c: Config, rows: seq<Row>, chain: Chain, chain': Chain, jobs: map<nat, Job>)
    requires JobsOk(c, rows, chain, jobs) && chain'.receipts == chain.receipts
    ensures JobsOk(c, rows, chain', jobs)
  {
    forall j | j in jobs ensures JobOk(c, rows, chain', jobs[j]) {
      assert JobOk(c, rows, chain, jobs[j]);
    }
  }

  lemma AcknowledgeKeepsCursors(rows: seq<Row>, id: nat, r: Row, cursors: map<string, nat>, nonce: nat)
    requires TableOk(rows) && CursorsOk(rows, cursors) && id < |rows| && rows[id].status.Broadcasting?
    requires rows[id].nonce == Some(nonce) && r.order == rows[id].order && r.nonce == rows[id].nonce
    ensures CursorsOk(rows[id := r], AdvancePast(cursors, r.order.network, nonce))
  {
    LiveIsLast(rows, id);
    var cursors' := AdvancePast(cursors, r.order.network, nonce);
    forall network | network in cursors' ensures AboveAcknowledged(rows[id := r], network, cursors'[network]) {
      if network in cursors {
        assert AboveAcknowledged(rows, network, cursors[network]);
      }
    }
  }

  lemma AcknowledgeFacts(c: Config, rows: seq<Row>, cursors: map<string, nat>, chain: Chain, id: nat, copy: Row,
                         now: nat)
    requires TableOk(rows) && LimitOk(c, rows) && CursorsOk(rows, cursors) && ChainOk(c, rows, chain)
    requires SenderOk(c, rows, chain.known, Acknowledging(id, copy))
    ensures CasMarkSent(rows[id], now).Some? && copy.nonce.Some?
    ensures var r := CasMarkSent(rows[id], now).value;
            && GoodUpdate(rows, id, r) && !r.status.Failed? && r.txHash.Some? && RowOnChain(c, chain, r)
            && LimitOk(c, rows[id := r])
            && CursorsOk(rows[id := r], AdvancePast(cursors, copy.order.network, copy.nonce.value))
  {
    assert RowOk(rows[id]);
    var r := CasMarkSent(rows[id], now).value;
    CasKeepsRow(rows[id], r, now, 1, "", Payload(0, rows[id].order, 0));
    AcknowledgeKeepsCursors(rows, id, r, cursors, copy.nonce.value);
  }

  lemma AcknowledgeKeepsInv(c: Config, s: State)
    requires Inv(c, s) && SenderAcknowledge(s).Some?
    ensures Inv(c, SenderAcknowledge(s).value)
  {
    var s', id, copy := SenderAcknowledge(s).value, s.sender.id, s.sender.copy;
    AcknowledgeFacts(c, s.rows, s.cursors, s.chain, id, copy, s.now);
    SenderRowFrame(c, s, s', id, CasMarkSent(s.rows[id], s.now).value);
  }

  lemma ReleaseFacts(c: Config, rows: seq<Row>, cursors: map<string, nat>, id: nat, message: string)
    requires TableOk(rows) && LimitOk(c, rows) && CursorsOk(rows, cursors)
    requires id < |rows| && CasRelease(rows[id], message).Some?
    ensures var r := CasRelease(rows[id], message).value;
            && GoodUpdate(rows, id, r) && !r.status.Failed? && r.txHash.None?
            && LimitOk(c, rows[id := r]) && CursorsOk(rows[id := r], cursors)
  {
    var r := CasRelease(rows[id], message).value;
    CasKeepsRow(rows[id], r, 0, 1, message, Payload(0, rows[id].order, 0));
    UpdateKeepsCursors(rows, id, r, cursors);
  }

  lemma ReleaseKeepsInv(c: Config, s: State, message: string)
    requires Inv(c, s) && SenderRelease(s, message).Some?
    ensures Inv(c, SenderRelease(s, message).value)
  {
    var s', id := SenderRelease(s, message).value, s.sender.id;
    if CasRelease(s.rows[id], message).Some? {
      ReleaseFacts(c, s.rows, s.cursors, id, message);
      SenderRowFrame(c, s, s', id, CasRelease(s.rows[id], message).value);
    } else {
      SenderFrame(c, s, s');
    }
  }

  /** Steps that change nothing but the sender's own place. */
  lemma SenderMoveKeepsInv(c: Config, s: State, a: SenderStep)
    requires Inv(c, s) && SenderNext(c, s, a).Some?
    requires a.Sync? || a.Check? || a.CheckLimit? || a.Sign? || a.See? || a.Abandon? || a.ForgetNonce?
    ensures Inv(c, SenderNext(c, s, a).value)
  {
    var s' := SenderNext(c, s, a).value;
    SenderMoveFacts(c, s, a);
    SenderFrame(c, s, s');
  }

  lemma SenderMoveFacts(c: Config, s: State, a: SenderStep)
    requires TableOk(s.rows) && CursorsOk(s.rows, s.cursors) && SenderOk(c, s.rows, s.chain.known, s.sender)
    requires SenderNext(c, s, a).Some?
    requires a.Sync? || a.Check? || a.CheckLimit? || a.Sign? || a.See? || a.Abandon? || a.ForgetNonce?
    ensures var s' := SenderNext(c, s, a).value;
            && s' == s.(sender := s'.sender, cursors := s'.cursors)
            && CursorsOk(s'.rows, s'.cursors) && SenderOk(c, s'.rows, s'.chain.known, s'.sender)
  {
    match a
    case Sync(id) =>
      assert RowOk(s.rows[id]);
    case ForgetNonce(network) =>
      assert CursorsOk(s.rows, s.cursors - {network});
    case _ =>
  }

  lemma SenderWriteKeepsInv(c: Config, s: State, a: SenderStep, s': State)
    requires Inv(c, s) && SenderNext(c, s, a) == Some(s')
    requires a.Claim? || a.Prepare? || a.Acknowledge? || a.Release?
    ensures Inv(c, s')
  {
    match a
    case Claim => ClaimKeepsInv(c, s);
    case Prepare => PrepareKeepsInv(c, s);
    case Acknowledge => AcknowledgeKeepsInv(c, s);
    case Release(message) => ReleaseKeepsInv(c, s, message);
  }

  lemma SenderKeepsInv(c: Config, s: State, a: SenderStep, s': State)
    requires Inv(c, s) && SenderNext(c, s, a) == Some(s')
    ensures Inv(c, s')
  {
    if a.Claim? || a.Prepare? || a.Acknowledge? || a.Release? {
      SenderWriteKeepsInv(c, s, a, s');
    } else if a.TakeNonce? {
      TakeNonceKeepsInv(c, s, a.pending);
    } else if a.Submit? {
      SubmitKeepsInv(c, s, a.reaches, a.acknowledged);
    } else {
      SenderMoveKeepsInv(c, s, a);
    }
  }
}
