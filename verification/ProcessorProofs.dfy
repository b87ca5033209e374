/** Every step of the withdrawal processor keeps the invariant. */
module ProcessorProofs {
  import opened Wrappers
  import opened Transactions
  import opened Chains
  import opened RelayLedger
  import opened Protocol
  import opened Invariants
  import opened TableProofs
  import opened ConfirmerProofs
  import opened GateProofs
  import opened RecordProofs

  // ---------------------------------------------------------------- frames

  lemma ProcFrame(c: Config, s: State, s': State)
    requires Inv(c, s) && s' == s.(proc := s'.proc, start := s'.start, queue := s'.queue)
    requires ProcRecordOk(c, s'.records, s'.proc)
    requires ProcPlaceOk(c, s'.rows, s'.owners, s'.records, s'.history, s'.now, s'.proc)
    requires QueueOk(s'.records, s'.proc, s'.start, s'.queue)
    requires AttachOk(s'.proc, s'.ledger.accounts, s'.accepted)
    ensures Inv(c, s')
  {
  }

  lemma SameRecordQueue(records: seq<Record>, proc: Proc, proc': Proc, start: nat, queue: seq<Ticket>)
    requires QueueOk(records, proc, start, queue) && !proc.Resting? && !proc'.Resting? && proc.k == proc'.k
    ensures QueueOk(records, proc', start, queue)
  {
    forall m, j | 0 <= m < |queue| && 0 <= j < queue[m].k && !Finished(records[j])
      ensures Waiting(proc', queue[..m], j)
    {
      assert Waiting(proc, queue[..m], j);
    }
  }

  /** What the processor's own decisions rest on. */
  ghost predicate Working(c: Config, s: State) {
    && AllRowsOk(s.rows) && OwnedOk(c, s.rows, s.owners, s.records)
    && Serial(s.records) && HistoryOk(c, s.rows, s.owners, s.records, s.history, s.now)
    && !s.proc.Resting? && ProcRecordOk(c, s.records, s.proc)
    && ProcPlaceOk(c, s.rows, s.owners, s.records, s.history, s.now, s.proc)
  }

  /** The processor moves on within the same record, with justification, and touches nothing else. */
  ghost predicate Moved(c: Config, s: State, s': State) {
    && s' == s.(proc := s'.proc) && |s.owners| == |s.rows|
    && !s.proc.Resting? && !s'.proc.Resting? && s'.proc.k == s.proc.k && !s'.proc.Done?
    && ProcRecordOk(c, s.records, s'.proc)
    && ProcPlaceOk(c, s.rows, s.owners, s.records, s.history, s.now, s'.proc)
    && AttachOk(s'.proc, s.ledger.accounts, s.accepted)
  }

  lemma MovesTo(c: Config, s: State, p: Proc)
    requires |s.owners| == |s.rows| && !s.proc.Resting? && !s.proc.Done? && ProcRecordOk(c, s.records, s.proc)
    requires !p.Resting? && !p.Done? && !p.Attach? && p.k == s.proc.k && p.rec == s.proc.rec
    requires ProcPlaceOk(c, s.rows, s.owners, s.records, s.history, s.now, p)
    ensures Decided(c, s, s.(proc := p))
  {
    assert Moved(c, s, s.(proc := p));
  }

  lemma MoveFrame(c: Config, s: State, s': State)
    requires Inv(c, s) && Moved(c, s, s')
    ensures Inv(c, s')
  {
    SameRecordQueue(s.records, s.proc, s'.proc, s.start, s.queue);
    ProcFrame(c, s, s');
  }

  lemma RecordFrame(c: Config, s: State, s': State)
    requires Inv(c, s) && s' == s.(records := s'.records, proc := s'.proc)
    requires OwnedOk(c, s'.rows, s'.owners, s'.records) && Serial(s'.records)
    requires FingerprintsOk(c, s'.records, s'.history.legacy)
    requires HistoryOk(c, s'.rows, s'.owners, s'.records, s'.history, s'.now)
    requires ProcRecordOk(c, s'.records, s'.proc)
    requires ProcPlaceOk(c, s'.rows, s'.owners, s'.records, s'.history, s'.now, s'.proc)
    requires QueueOk(s'.records, s'.proc, s'.start, s'.queue)
    requires GatesOk(s'.records, s'.history.gates, s'.ledger.accounts, s'.accepted)
    requires AttachOk(s'.proc, s'.ledger.accounts, s'.accepted)
    ensures Inv(c, s')
  {
  }

  /** The status of the record being processed is written, and no money moves. */
  lemma StatusFrame(c: Config, s: State, s': State, status: WithdrawStatus)
    requires Inv(c, s) && !s.proc.Resting? && !s'.proc.Resting? && s'.proc.k == s.proc.k
    requires s' == s.(records := SetStatus(s.records, s.proc.k, status), proc := s'.proc)
    requires StatusJustified(s.rows, s.owners, s.records, s.history, s.proc.k, status)
    requires s'.proc.rec == s.proc.rec.(status := status) && s'.proc.rec == s'.records[s.proc.k]
    requires s'.proc.Done? <==> Finished(s'.records[s.proc.k])
    requires ProcPlaceOk(c, s'.rows, s'.owners, s'.records, s'.history, s'.now, s'.proc) && !s'.proc.Attach?
    ensures Inv(c, s')
  {
    var k := s.proc.k;
    WriteKeepsOwned(c, s.rows, s.owners, s.records, k, s'.records[k]);
    WriteKeepsSerial(s.records, k, s'.records[k]);
    WriteKeepsQueue(s.records, s.proc, s'.proc, s.start, s.queue, s'.records[k]);
    StatusKeepsHistory(c, s.rows, s.owners, s.records, s.history, s.now, k, status);
    StatusKeepsFingerprints(c, s.records, s.history.legacy, k, status);
    StatusKeepsGates(s.records, s.history.gates, s.ledger.accounts, s.accepted, k, status);
    RecordFrame(c, s, s');
  }

  /** The pending record being processed is marked failed. */
  ghost predicate MarkedFailed(s: State, s': State) {
    && !s.proc.Resting? && s.proc.rec.status.WPending? && s.proc.k < |s.records| && |s.owners| == |s.rows|
    && (s'.proc.Top? || s'.proc.Finish?)
    && s'.proc.k == s.proc.k && s'.proc.rec == s.proc.rec.(status := WFailed)
    && s' == s.(records := SetStatus(s.records, s.proc.k, WFailed), proc := s'.proc)
    && HeldOk(s.rows, s.owners, s.proc.k, s'.proc.held)
  }

  lemma FailFrame(c: Config, s: State, s': State)
    requires Inv(c, s) && MarkedFailed(s, s')
    ensures Inv(c, s')
  {
    StatusFrame(c, s, s', WFailed);
  }

  /** RequestCancellation and CancelRequestedUnbroadcasted on the live row. */
  lemma CancelFacts(rows: seq<Row>, id: nat, now: nat, reason: string, r: Row)
    requires AllRowsOk(rows) && id < |rows|
    requires CasRequestCancellation(rows[id], now, reason) == Some(r) || CasCancelRequested(rows[id]) == Some(r)
    ensures GoodUpdate(rows, id, r) && r.txHash.None?
    ensures r.signedRaw == rows[id].signedRaw && r.txHash == rows[id].txHash && r.nonce == rows[id].nonce
    ensures rows[id].status.Pending? || r.status == rows[id].status
    ensures !Acknowledged(r) && !r.status.Broadcasting?
  {
    CasKeepsRow(rows[id], r, now, 1, reason, Payload(0, r.order, 0));
  }

  /** A cancellation step on row `id`, after which the processor moves on within the same record. */
  ghost predicate RowCancelled(c: Config, s: State, s': State, id: nat, r: Row, reason: string) {
    && id < |s.rows|
    && (CasRequestCancellation(s.rows[id], s.now, reason) == Some(r) || CasCancelRequested(s.rows[id]) == Some(r))
    && Moved(c, s.(rows := s.rows[id := r]), s')
  }

  lemma ProcRowFrame(c: Config, s: State, id: nat, r: Row, reason: string)
    requires Inv(c, s) && id < |s.rows|
    requires CasRequestCancellation(s.rows[id], s.now, reason) == Some(r) || CasCancelRequested(s.rows[id]) == Some(r)
    ensures Inv(c, s.(rows := s.rows[id := r]))
  {
    CancelFacts(s.rows, id, s.now, reason, r);
    OtherRowFrame(c, s, s.(rows := s.rows[id := r]), id, r);
  }

  lemma CancelKeepsInv(c: Config, s: State, s': State, id: nat, r: Row, reason: string)
    requires Inv(c, s) && RowCancelled(c, s, s', id, r, reason)
    ensures Inv(c, s')
  {
    ProcRowFrame(c, s, id, r, reason);
    MoveFrame(c, s.(rows := s.rows[id := r]), s');
  }

  /** What a step that only reads, decides and at most cancels the row or marks the record failed leads to. */
  ghost predicate Decided(c: Config, s: State, s': State) {
    || Moved(c, s, s') || s' == ProcStop(s).value || MarkedFailed(s, s')
    || exists id, r, reason :: RowCancelled(c, s, s', id, r, reason)
  }

  lemma DecidedKeepsInv(c: Config, s: State, s': State)
    requires Inv(c, s) && Decided(c, s, s')
    ensures Inv(c, s')
  {
    if Moved(c, s, s') {
      MoveFrame(c, s, s');
    } else if MarkedFailed(s, s') {
      FailFrame(c, s, s');
    } else if id, r, reason :| RowCancelled(c, s, s', id, r, reason) {
      CancelKeepsInv(c, s, s', id, r, reason);
    } else {
      StopKeepsInv(c, s);
    }
  }

  // ---------------------------------------------------------------- the batch loop

  /** The tickets are the first unfinished records from `start` on, in order and without gaps. */
  ghost predicate TicketsOk(records: seq<Record>, start: nat, q: seq<Ticket>) {
    && (forall m :: 0 <= m < |q| ==> start <= q[m].k < |records| && q[m].rec == records[q[m].k] && !Finished(q[m].rec))
    && (forall m, n :: 0 <= m < n < |q| ==> q[m].k < q[n].k)
    && (forall m, j :: 0 <= m < |q| && start <= j < q[m].k && !Finished(records[j]) ==>
              exists n :: 0 <= n < m && q[n].k == j)
  }

  lemma {:induction false} UnfinishedTickets(records: seq<Record>, start: nat, limit: nat)
    requires start <= |records|
    ensures TicketsOk(records, start, Unfinished(records, start, limit))
    decreases |records| - start
  {
    if limit > 0 && start < |records| {
      if Finished(records[start]) {
        UnfinishedTickets(records, start + 1, limit);
        TicketSkip(records, start, Unfinished(records, start + 1, limit));
      } else {
        UnfinishedTickets(records, start + 1, limit - 1);
        TicketFirst(records, start, Unfinished(records, start + 1, limit - 1));
      }
    }
  }

  lemma TicketSkip(records: seq<Record>, start: nat, q: seq<Ticket>)
    requires start < |records| && Finished(records[start]) && TicketsOk(records, start + 1, q)
    ensures TicketsOk(records, start, q)
  {
  }

  lemma TicketFirst(records: seq<Record>, start: nat, rest: seq<Ticket>)
    requires start < |records| && !Finished(records[start]) && TicketsOk(records, start + 1, rest)
    ensures TicketsOk(records, start, [Ticket(start, records[start])] + rest)
  {
    var q := [Ticket(start, records[start])] + rest;
    assert forall m :: 1 <= m < |q| ==> q[m] == rest[m - 1];
    forall m, j | 0 <= m < |q| && start <= j < q[m].k && !Finished(records[j])
      ensures exists n :: 0 <= n < m && q[n].k == j
    {
      if j == start {
        assert q[0].k == j;
      } else {
        var n :| 0 <= n < m - 1 && rest[n].k == j;
        assert q[n + 1].k == j;
      }
    }
  }

  lemma FetchedQueueOk(records: seq<Record>, start: nat, limit: nat)
    requires start <= |records| && forall j :: 0 <= j < start ==> Finished(records[j])
    ensures QueueOk(records, Resting, start, Unfinished(records, start, limit))
  {
    UnfinishedTickets(records, start, limit);
    var q := Unfinished(records, start, limit);
    forall m, j | 0 <= m < |q| && 0 <= j < q[m].k && !Finished(records[j]) ensures Waiting(Resting, q[..m], j) {
      var n :| 0 <= n < m && q[n].k == j;
      assert q[..m][n].k == j;
    }
  }

  lemma BegunQueueOk(records: seq<Record>, start: nat, queue: seq<Ticket>)
    requires QueueOk(records, Resting, start, queue) && queue != []
    ensures QueueOk(records, Entry(queue[0].k, queue[0].rec), start, queue[1..])
    ensures forall j :: 0 <= j < queue[0].k ==> Finished(records[j])
  {
    var k, rest := queue[0].k, queue[1..];
    forall j | 0 <= j < k ensures Finished(records[j]) {
      assert !Waiting(Resting, queue[..0], j);
    }
    forall m, j | 0 <= m < |rest| && 0 <= j < rest[m].k && !Finished(records[j])
      ensures Waiting(Entry(k, queue[0].rec), rest[..m], j)
    {
      assert Waiting(Resting, queue[..m + 1], j);
      var n :| 0 <= n < m + 1 && queue[..m + 1][n].k == j;
      if n > 0 {
        assert rest[..m][n - 1].k == j;
      }
    }
  }

  lemma DoneQueueOk(records: seq<Record>, proc: Proc, start: nat, queue: seq<Ticket>)
    requires QueueOk(records, proc, start, queue) && !proc.Resting? && proc.k < |records| && Finished(records[proc.k])
    requires forall j :: 0 <= j < proc.k ==> Finished(records[j])
    ensures QueueOk(records, Resting, proc.k + 1, queue)
  {
    forall m, j | 0 <= m < |queue| && 0 <= j < queue[m].k && !Finished(records[j])
      ensures Waiting(Resting, queue[..m], j)
    {
      assert Waiting(proc, queue[..m], j);
    }
  }

  lemma LoopKeepsInv(c: Config, s: State, a: ProcStep, s': State)
    requires Inv(c, s) && ProcNext(c, s, a) == Some(s')
    requires a.FetchBatch? || a.Begin? || a.NextRecord?
    ensures Inv(c, s')
  {
    if a.FetchBatch? {
      FetchedQueueOk(s.records, s.start, c.batchSize);
    } else if a.Begin? {
      BegunQueueOk(s.records, s.start, s.queue);
    } else {
      DoneQueueOk(s.records, s.proc, s.start, s.queue);
    }
    ProcFrame(c, s, s');
  }

  lemma StopKeepsInv(c: Config, s: State)
    requires Inv(c, s)
    ensures Inv(c, ProcStop(s).value)
  {
    ProcFrame(c, s, ProcStop(s).value);
  }

  // ---------------------------------------------------------------- reading and deciding

  /** Before the deadline no record can have been rejected without a transaction: the clock only moves forward. */
  lemma NotYetRejected(c: Config, rows: seq<Row>, owners: seq<nat>, records: seq<Record>, history: History, now: nat,
                       k: nat, rec: Record)
    requires HistoryOk(c, rows, owners, records, history, now) && k < |records| && Mirrors(c, rec, records[k])
    requires now <= rec.createdAt + c.timeout
    ensures NotRejected(rec, k, history)
  {
  }

  /** A record that counts as paid has a transaction. */
  lemma PaidHasTransaction(c: Config, rows: seq<Row>, owners: seq<nat>, records: seq<Record>, history: History,
                           now: nat, k: nat)
    requires OwnedOk(c, rows, owners, records) && HistoryOk(c, rows, owners, records, history, now) && k < |records|
    ensures records[k].status.WSuccess? || records[k].status.WFinished? ==> records[k].txId.Some?
  {
    if records[k].status.WSuccess? || records[k].status.WFinished? {
      var i: nat :| Paid(rows, owners, k, i);
      assert records[owners[i]].txId.Some?;
    }
  }

  lemma AgainDecides(c: Config, s: State, s': State)
    requires Working(c, s) && ProcAgain(s) == Some(s')
    ensures Decided(c, s, s')
  {
    MovesTo(c, s, Entry(s.proc.k, s.proc.rec));
  }

  lemma EnterDecides(c: Config, s: State, s': State)
    requires Working(c, s) && ProcEnter(c, s) == Some(s')
    ensures Decided(c, s, s')
  {
    if s'.proc.Top? {
      NotYetRejected(c, s.rows, s.owners, s.records, s.history, s.now, s.proc.k, s.proc.rec);
      MovesTo(c, s, Top(s.proc.k, s.proc.rec, None));
    } else {
      assert Moved(c, s, s');
    }
  }

  lemma TopDecides(c: Config, s: State, rootCopy: Row, s': State)
    requires Working(c, s) && ProcTop(s, rootCopy) == Some(s')
    ensures Decided(c, s, s')
  {
    var k, rec := s.proc.k, s.proc.rec;
    if !rec.status.WPending? {
      MovesTo(c, s, Finish(k, rec, s.proc.held));
    } else if s'.proc.Authorize? {
      MovesTo(c, s, Authorize(k, rec));
    } else {
      MovesTo(c, s, Load(k, rec));
    }
  }

  lemma LoadDecides(c: Config, s: State, rootCopy: Row, s': State)
    requires Working(c, s) && ProcLoad(s, rootCopy) == Some(s')
    ensures Decided(c, s, s')
  {
    CurrentIsHeld(c, s.rows, s.owners, s.records, s.proc.k, s.proc.rec.txId.value, rootCopy);
    assert Moved(c, s, s');
  }

  lemma UnauthorizedDecides(c: Config, s: State, rootCopy: Row, s': State)
    requires Working(c, s) && ProcUnauthorized(c, s, rootCopy) == Some(s')
    ensures Decided(c, s, s')
  {
    if s.proc.rec.txId.Some? {
      CurrentIsHeld(c, s.rows, s.owners, s.records, s.proc.k, s.proc.rec.txId.value, rootCopy);
      MovesTo(c, s, Unauthorized(s.proc.k, s.proc.rec, Some(ReadCurrent(s.rows, s.proc.rec.txId.value, rootCopy))));
    } else {
      assert MarkedFailed(s, s');
    }
  }

  lemma PollDecides(c: Config, s: State, rootCopy: Row, s': State)
    requires Working(c, s) && ProcPoll(s, rootCopy) == Some(s')
    ensures Decided(c, s, s')
  {
    var k, rec, held := s.proc.k, s.proc.rec, s.proc.held.value;
    if !Terminal(held.row) {
      MovesTo(c, s, Poll(k, rec, Some(Held(held.id, s.rows[held.id]))));
    } else if s'.proc.Debit? {
      FulfillGateMeans(c, s.rows, s.owners, s.records, k, rec.txId.value, rootCopy, held);
      MovesTo(c, s, Debit(k, rec, s.proc.held));
    } else if s'.proc.Top? {
      PollLeaves(c, s, rootCopy, s');
    }
  }

  /** The polled row is lost: the record fails, or the chain is read again for a retry. */
  lemma PollLeaves(c: Config, s: State, rootCopy: Row, s': State)
    requires Working(c, s) && ProcPoll(s, rootCopy) == Some(s') && s'.proc.Top?
    ensures Decided(c, s, s')
  {
    PollShape(s, rootCopy, s');
    if s'.records == s.records && s'.proc.rec == s.proc.rec {
      MovesTo(c, s, Top(s.proc.k, s.proc.rec, s.proc.held));
    } else {
      assert MarkedFailed(s, s');
    }
  }

  lemma PollShape(s: State, rootCopy: Row, s': State)
    requires ProcPoll(s, rootCopy) == Some(s') && s'.proc.Top?
    ensures s.proc.Poll? && s.proc.k < |s.records|
    ensures || s' == s.(proc := Top(s.proc.k, s.proc.rec, s.proc.held))
            || s' == s.(records := SetStatus(s.records, s.proc.k, WFailed),
                        proc := Top(s.proc.k, s.proc.rec.(status := WFailed), s.proc.held))
  {
  }

  lemma GateDecides(c: Config, s: State, s': State)
    requires Working(c, s) && ProcGate(s) == Some(s')
    ensures Decided(c, s, s')
  {
    if s'.proc.Attach? {
      assert s.accepted[|s.accepted|..] == [];
      assert Moved(c, s, s');
    } else {
      assert MarkedFailed(s, s');
    }
  }

  lemma FinishDecides(c: Config, s: State, rootCopy: Row, s': State)
    requires Working(c, s) && ProcFinish(s, rootCopy) == Some(s')
    ensures Decided(c, s, s')
  {
    var k, rec := s.proc.k, s.proc.rec;
    if !rec.status.WSuccess? {
      MovesTo(c, s, RejectCheck(k, rec));
    } else if s.proc.held.None? {
      CurrentIsHeld(c, s.rows, s.owners, s.records, k, rec.txId.value, rootCopy);
      MovesTo(c, s, Finish(k, rec, Some(ReadCurrent(s.rows, rec.txId.value, rootCopy))));
    } else if FulfillSafe(s.proc.held.value.row, Listing(s.rows, rec.txId.value, rootCopy)) {
      FulfillGateMeans(c, s.rows, s.owners, s.records, k, rec.txId.value, rootCopy, s.proc.held.value);
      MovesTo(c, s, Fulfill(k, rec, s.proc.held));
    }
  }

  lemma RejectCheckDecides(c: Config, s: State, rootCopy: Row, s': State)
    requires Working(c, s) && ProcRejectCheck(s, rootCopy) == Some(s')
    ensures Decided(c, s, s')
  {
    var k, rec := s.proc.k, s.proc.rec;
    if s'.proc.Reject? {
      if rec.txId.Some? {
        RejectGateMeans(c, s.rows, s.owners, s.records, k, rec.txId.value, rootCopy);
      } else {
        assert forall i :: 0 <= i < |s.rows| ==> s.records[s.owners[i]].txId.Some?;
        assert AllFailed(s.rows, s.owners, k);
      }
      PassedRejectCheck(c, s.rows, s.owners, s.records, s.history, s.now, k, rec);
      MovesTo(c, s, Reject(k, rec));
    }
  }

  lemma PassedRejectCheck(c: Config, rows: seq<Row>, owners: seq<nat>, records: seq<Record>, history: History, now: nat,
                          k: nat, rec: Record)
    requires HistoryOk(c, rows, owners, records, history, now) && k < |records| && Mirrors(c, rec, records[k])
    requires !rec.status.WSuccess? && !Finished(records[k]) && AllFailed(rows, owners, k)
    requires rec.txId.None? && rec.status.WPending? ==> now > rec.createdAt + c.timeout
    ensures RejectJustified(c, rows, owners, records[k], k, now)
  {
  }

  lemma TimeoutDecides(c: Config, s: State, rootCopy: Row, s': State)
    requires Working(c, s) && ProcTimeout(s, rootCopy) == Some(s')
    ensures Decided(c, s, s')
  {
    if s.proc.rec.txId.None? {
      PaidHasTransaction(c, s.rows, s.owners, s.records, s.history, s.now, s.proc.k);
      MovesTo(c, s, RejectCheck(s.proc.k, s.proc.rec));
    } else {
      AttachedTimeoutDecides(c, s, rootCopy, s');
    }
  }

  lemma AttachedTimeoutDecides(c: Config, s: State, rootCopy: Row, s': State)
    requires Working(c, s) && ProcTimeout(s, rootCopy) == Some(s') && s.proc.rec.txId.Some?
    ensures Decided(c, s, s')
  {
    var k, rec := s.proc.k, s.proc.rec;
    TimeoutCancelPlace(c, s, rootCopy);
    if s'.proc.Top? {
      MovesTo(c, s, Top(k, rec, None));
    } else if s'.proc.TimeoutCancel? {
      MovesTo(c, s, TimeoutCancel(k, rec, Some(ReadCurrent(s.rows, rec.txId.value, rootCopy))));
    }
  }

  lemma TimeoutCancelPlace(c: Config, s: State, rootCopy: Row)
    requires OwnedOk(c, s.rows, s.owners, s.records) && s.proc.Timeout? && s.proc.k < |s.records|
    requires s.proc.rec == s.records[s.proc.k]
    requires RootRead(s.rows, s.proc.rec, rootCopy)
    ensures HeldOk(s.rows, s.owners, s.proc.k, Some(ReadCurrent(s.rows, s.proc.rec.txId.value, rootCopy)))
  {
    CurrentIsHeld(c, s.rows, s.owners, s.records, s.proc.k, s.proc.rec.txId.value, rootCopy);
  }

  /** Without a live row no retry is created, so the id of a rolled-back row stays unused and every look-up fails. */
  lemma LookUpDecides(c: Config, s: State, s': State)
    requires Working(c, s) && ProcLookUp(c, s) == Some(s')
    ensures Decided(c, s, s')
  {
    if Overdue(c, s.proc.rec, s.now) {
      MovesTo(c, s, Timeout(s.proc.k, s.proc.rec));
    } else {
      MovesTo(c, s, s.proc);
    }
  }

  lemma LoseAttachDecides(c: Config, s: State, s': State)
    requires Working(c, s) && ProcAttachLost(c, s) == Some(s')
    ensures Decided(c, s, s')
  {
    AllTerminal(c, s, s.proc.k);
    MovesTo(c, s, Dangling(s.proc.k, s.proc.rec, |s.rows|));
  }

  lemma ReadDecides(c: Config, s: State, a: ProcStep, s': State)
    requires Working(c, s) && ProcNext(c, s, a) == Some(s')
    requires a.Again? || a.Enter? || a.TopOf? || a.NotAuthorized? || a.LoadRow? || a.PollRow? || a.GateCheck?
             || a.FinishRecord? || a.CheckReject? || a.HandleTimeout?
    ensures Decided(c, s, s')
  {
    match a
    case Again => AgainDecides(c, s, s');
    case Enter => EnterDecides(c, s, s');
    case TopOf(rootCopy) => TopDecides(c, s, rootCopy, s');
    case NotAuthorized(rootCopy) => UnauthorizedDecides(c, s, rootCopy, s');
    case LoadRow(rootCopy) => LoadDecides(c, s, rootCopy, s');
    case PollRow(rootCopy) => PollDecides(c, s, rootCopy, s');
    case GateCheck => GateDecides(c, s, s');
    case FinishRecord(rootCopy) => FinishDecides(c, s, rootCopy, s');
    case CheckReject(rootCopy) => RejectCheckDecides(c, s, rootCopy, s');
    case HandleTimeout(rootCopy) => TimeoutDecides(c, s, rootCopy, s');
  }

  // ---------------------------------------------------------------- rows touched by the processor

  /** A live row means the record was not paid, so it cannot be successful. */
  lemma LiveMeansUnpaid(rows: seq<Row>, owners: seq<nat>, k: nat, id: nat)
    requires |owners| == |rows| && id < |rows| && owners[id] == k && rows[id].status.Pending?
    ensures !IsPaid(rows, owners, k)
  {
  }

  lemma HeldAfterUpdate(rows: seq<Row>, owners: seq<nat>, k: nat, held: Option<Held>, id: nat, r: Row)
    requires |owners| == |rows| && HeldOk(rows, owners, k, held) && id < |rows| && Evolves(rows[id], r)
    ensures HeldOk(rows[id := r], owners, k, held)
  {
    if held.Some? && held.value.id == id {
      EvolvesTransitive(held.value.row, rows[id], r);
    }
  }

  lemma RequestDecides(c: Config, s: State, reason: string, p: Proc, r: Row)
    requires Working(c, s) && (p.Revoking? || p.TimeoutSettle?) && p.k == s.proc.k && p.rec == s.proc.rec
    requires !s.proc.Done?
    requires p.held.Some? && ProcPlaceOk(c, s.rows, s.owners, s.records, s.history, s.now, p)
    requires CasRequestCancellation(s.rows[p.held.value.id], s.now, reason) == Some(r)
    ensures Decided(c, s, s.(rows := s.rows[p.held.value.id := r], proc := p))
  {
    var id := p.held.value.id;
    CancelFacts(s.rows, id, s.now, reason, r);
    HeldAfterUpdate(s.rows, s.owners, p.k, p.held, id, r);
    assert RowCancelled(c, s, s.(rows := s.rows[id := r], proc := p), id, r, reason);
  }

  lemma RevokeDecides(c: Config, s: State, reason: string, s': State)
    requires Working(c, s) && ProcRevoke(s, reason) == Some(s')
    ensures Decided(c, s, s')
  {
    var held := s.proc.held.value;
    var cas := CasRequestCancellation(s.rows[held.id], s.now, reason);
    if Cancellable(held.row) && cas.Some? {
      RequestDecides(c, s, reason, Revoking(s.proc.k, s.proc.rec, s.proc.held), cas.value);
    } else {
      MovesTo(c, s, Revoking(s.proc.k, s.proc.rec, s.proc.held));
    }
  }

  lemma TimeoutCancelDecides(c: Config, s: State, reason: string, s': State)
    requires Working(c, s) && ProcTimeoutCancel(s, reason) == Some(s')
    ensures Decided(c, s, s')
  {
    var cas := CasRequestCancellation(s.rows[s.proc.held.value.id], s.now, reason);
    if cas.Some? {
      RequestDecides(c, s, reason, TimeoutSettle(s.proc.k, s.proc.rec, s.proc.held), cas.value);
    } else {
      MovesTo(c, s, TimeoutSettle(s.proc.k, s.proc.rec, s.proc.held));
    }
  }

  lemma RevokedDecides(c: Config, s: State, s': State)
    requires Working(c, s) && ProcRevoked(s) == Some(s')
    ensures Decided(c, s, s')
  {
    var held := s.proc.held.value;
    var cas := CasCancelRequested(s.rows[held.id]);
    if held.row.status.Pending? && cas.Some? {
      RevokedCancels(c, s, s');
    } else if held.row.status.Pending? {
      MovesTo(c, s, Top(s.proc.k, s.proc.rec, s.proc.held));
    } else if held.row.status.Sending? {
      MovesTo(c, s, Load(s.proc.k, s.proc.rec));
    } else {
      assert MarkedFailed(s, s');
    }
  }

  lemma RevokedCancels(c: Config, s: State, s': State)
    requires Working(c, s) && ProcRevoked(s) == Some(s') && s.proc.held.value.row.status.Pending?
    requires CasCancelRequested(s.rows[s.proc.held.value.id]).Some?
    ensures Decided(c, s, s')
  {
    var id := s.proc.held.value.id;
    var r := CasCancelRequested(s.rows[id]).value;
    CancelFacts(s.rows, id, s.now, "", r);
    assert RowCancelled(c, s, s', id, r, "");
  }

  lemma SettleDecides(c: Config, s: State, s': State)
    requires Working(c, s) && ProcTimeoutSettle(s) == Some(s')
    ensures Decided(c, s, s')
  {
    var held := s.proc.held.value;
    if held.row.status.Pending? && CasCancelRequested(s.rows[held.id]).Some? {
      SettledDecides(c, s, s');
    } else {
      MovesTo(c, s, Entry(s.proc.k, s.proc.rec));
    }
  }

  lemma SettledDecides(c: Config, s: State, s': State)
    requires Working(c, s) && s.proc.TimeoutSettle? && s.proc.held.Some? && s.proc.held.value.id < |s.rows|
    requires CasCancelRequested(s.rows[s.proc.held.value.id]).Some?
    requires s' == s.(rows := s.rows[s.proc.held.value.id := CasCancelRequested(s.rows[s.proc.held.value.id]).value],
                      proc := RejectCheck(s.proc.k, s.proc.rec))
    ensures Decided(c, s, s')
  {
    var id := s.proc.held.value.id;
    var r := CasCancelRequested(s.rows[id]).value;
    LiveMeansUnpaid(s.rows, s.owners, s.proc.k, id);
    var mid := s.(rows := s.rows[id := r]);
    assert ProcPlaceOk(c, mid.rows, mid.owners, mid.records, mid.history, mid.now, RejectCheck(s.proc.k, s.proc.rec));
    assert RowCancelled(c, s, s', id, r, "");
  }

  lemma CancelDecides(c: Config, s: State, a: ProcStep, s': State)
    requires Working(c, s) && ProcNext(c, s, a) == Some(s')
    requires a.Revoke? || a.Revoked? || a.CancelTimeout? || a.SettleTimeout?
    ensures Decided(c, s, s')
  {
    match a
    case Revoke(reason) => RevokeDecides(c, s, reason, s');
    case Revoked => RevokedDecides(c, s, s');
    case CancelTimeout(reason) => TimeoutCancelDecides(c, s, reason, s');
    case SettleTimeout => SettleDecides(c, s, s');
  }

  // ---------------------------------------------------------------- authorisation, gate, attach, debit

  lemma FingerprintKeepsHistory(c: Config, rows: seq<Row>, owners: seq<nat>, records: seq<Record>, history: History,
                                now: nat, k: nat, stamp: string)
    requires HistoryOk(c, rows, owners, records, history, now) && k < |records|
    ensures HistoryOk(c, rows, owners, records[k := records[k].(fingerprint := Some(stamp))], history, now)
  {
    var records' := records[k := records[k].(fingerprint := Some(stamp))];
    forall n | n in history.rejects ensures n < |records'| && RejectJustified(c, rows, owners, records'[n], n, now) {
      assert RejectJustified(c, rows, owners, records[n], n, now);
    }
  }

  lemma FingerprintKeepsFingerprints(c: Config, records: seq<Record>, legacy: set<nat>, k: nat)
    requires FingerprintsOk(c, records, legacy) && k < |records| && Authorised(c, records[k])
    requires forall j :: 0 <= j < |records| && j != k ==> records[j].fingerprint != Some(Fingerprint(c, records[k]))
    ensures FingerprintsOk(c, records[k := records[k].(fingerprint := Some(Fingerprint(c, records[k])))], legacy)
  {
  }

  lemma FingerprintKeepsGates(records: seq<Record>, gates: map<nat, GateSeen>, accounts: map<string, int>,
                              accepted: seq<Log>, k: nat, stamp: string)
    requires GatesOk(records, gates, accounts, accepted) && k < |records|
    ensures GatesOk(records[k := records[k].(fingerprint := Some(stamp))], gates, accounts, accepted)
  {
  }

  lemma StampFrame(c: Config, s: State, s': State)
    requires Inv(c, s) && !s.proc.Resting? && !s'.proc.Resting? && s'.proc.k == s.proc.k && !s'.proc.Done?
    requires !s'.proc.Attach?
    requires var r := s.records[s.proc.k];
             && Authorised(c, r)
             && s' == s.(records := s.records[s.proc.k := r.(fingerprint := Some(Fingerprint(c, r)))], proc := s'.proc)
    requires forall j :: 0 <= j < |s.records| && j != s.proc.k ==>
               s.records[j].fingerprint != Some(Fingerprint(c, s.records[s.proc.k]))
    requires ProcRecordOk(c, s'.records, s'.proc)
    requires ProcPlaceOk(c, s'.rows, s'.owners, s'.records, s'.history, s'.now, s'.proc)
    ensures Inv(c, s')
  {
    var k := s.proc.k;
    var r := s'.records[k];
    WriteKeepsOwned(c, s.rows, s.owners, s.records, k, r);
    WriteKeepsSerial(s.records, k, r);
    WriteKeepsQueue(s.records, s.proc, s'.proc, s.start, s.queue, r);
    FingerprintKeepsHistory(c, s.rows, s.owners, s.records, s.history, s.now, k, Fingerprint(c, s.records[k]));
    FingerprintKeepsFingerprints(c, s.records, s.history.legacy, k);
    FingerprintKeepsGates(s.records, s.history.gates, s.ledger.accounts, s.accepted, k, Fingerprint(c, s.records[k]));
    RecordFrame(c, s, s');
  }

  lemma StampFacts(c: Config, s: State, s': State)
    requires Working(c, s) && ProcAuthorized(c, s) == Some(s') && s.proc.rec.fingerprint.None?
    ensures s.records[s.proc.k] == s.proc.rec && Authorised(c, s.proc.rec)
    ensures s' == s.(records := s.records[s.proc.k := s.proc.rec.(fingerprint := Some(Fingerprint(c, s.proc.rec)))],
                     proc := s'.proc)
    ensures forall j :: 0 <= j < |s.records| && j != s.proc.k ==>
              s.records[j].fingerprint != Some(Fingerprint(c, s.proc.rec))
    ensures !s'.proc.Resting? && s'.proc.k == s.proc.k && !s'.proc.Done? && !s'.proc.Attach?
    ensures ProcRecordOk(c, s'.records, s'.proc)
    ensures ProcPlaceOk(c, s'.rows, s'.owners, s'.records, s'.history, s'.now, s'.proc)
  {
  }

  lemma StampedDecides(c: Config, s: State, s': State)
    requires Working(c, s) && ProcAuthorized(c, s) == Some(s') && s.proc.rec.fingerprint.Some?
    ensures Decided(c, s, s')
  {
    var k, rec := s.proc.k, s.proc.rec;
    assert rec.(fingerprint := Some(Fingerprint(c, rec))) == rec;
    if rec.txId.Some? {
      MovesTo(c, s, Load(k, rec));
    } else {
      MovesTo(c, s, Gate(k, rec));
    }
  }

  lemma AuthorizedKeepsInv(c: Config, s: State, s': State)
    requires Inv(c, s) && ProcAuthorized(c, s) == Some(s')
    ensures Inv(c, s')
  {
    if s.proc.rec.fingerprint.Some? {
      StampedDecides(c, s, s');
      DecidedKeepsInv(c, s, s');
    } else {
      StampFacts(c, s, s');
      StampFrame(c, s, s');
    }
  }

  lemma AttachFrame(c: Config, s: State, s': State)
    requires Inv(c, s)
    requires s' == s.(rows := s'.rows, owners := s'.owners, records := s'.records, history := s'.history,
                      proc := s'.proc)
    requires TableOk(s'.rows) && LimitOk(c, s'.rows) && OwnedOk(c, s'.rows, s'.owners, s'.records)
    requires Serial(s'.records) && FingerprintsOk(c, s'.records, s'.history.legacy)
    requires ChainOk(c, s'.rows, s'.chain) && CursorsOk(s'.rows, s'.cursors)
    requires SenderOk(c, s'.rows, s'.chain.known, s'.sender) && JobsOk(c, s'.rows, s'.chain, s'.jobs)
    requires HistoryOk(c, s'.rows, s'.owners, s'.records, s'.history, s'.now)
    requires ProcRecordOk(c, s'.records, s'.proc)
    requires ProcPlaceOk(c, s'.rows, s'.owners, s'.records, s'.history, s'.now, s'.proc)
    requires QueueOk(s'.records, s'.proc, s'.start, s'.queue)
    requires GatesOk(s'.records, s'.history.gates, s'.ledger.accounts, s'.accepted)
    requires AttachOk(s'.proc, s'.ledger.accounts, s'.accepted)
    ensures Inv(c, s')
  {
  }

  lemma AttachFacts(c: Config, s: State, s': State)
    requires Working(c, s) && TableOk(s.rows) && Serial(s.records) && FingerprintsOk(c, s.records, s.history.legacy)
    requires ProcAttach(c, s) == Some(s')
    requires GatesOk(s.records, s.history.gates, s.ledger.accounts, s.accepted)
    requires AttachOk(s.proc, s.ledger.accounts, s.accepted)
    ensures s' == s.(rows := s'.rows, owners := s'.owners, records := s'.records, history := s'.history,
                     proc := s'.proc)
    ensures Serial(s'.records) && FingerprintsOk(c, s'.records, s'.history.legacy)
    ensures OwnedOk(c, s'.rows, s'.owners, s'.records)
    ensures HistoryOk(c, s'.rows, s'.owners, s'.records, s'.history, s'.now)
    ensures GatesOk(s'.records, s'.history.gates, s'.ledger.accounts, s'.accepted)
    ensures forall i :: 0 <= i < |s.rows| ==> Terminal(s.rows[i])
  {
    var k, rec := s.proc.k, s.proc.rec;
    var row, r := s'.rows[|s.rows|], s'.records[k];
    assert rec == s.records[k] && r == rec.(txId := Some(|s.rows|));
    AllTerminal(c, s, k);
    AttachKeepsOwned(c, s.rows, s.owners, s.records, k, r, row);
    AttachKeepsSerial(s.records, k, r);
    AttachKeepsFingerprints(c, s.records, s.history.legacy, k, r);
    AttachKeepsHistory(c, s.rows, s.owners, s.records, s.history, s.now, k, r, row, s'.history.gates);
    AttachKeepsGates(s.records, s.history.gates, s.ledger.accounts, s.accepted, k, r,
                     GateSeen(s.proc.balance, s.proc.logs));
  }

  lemma AttachPlace(c: Config, s: State, s': State)
    requires Working(c, s) && ProcAttach(c, s) == Some(s') && QueueOk(s.records, s.proc, s.start, s.queue)
    ensures s'.rows == s.rows + [s'.rows[|s.rows|]] && RowOk(s'.rows[|s.rows|])
    ensures var row := s'.rows[|s.rows|]; row.root.None? && row.retryCount == 0 && row.status.Pending?
    ensures |s'.owners| == |s'.rows| && ProcRecordOk(c, s'.records, s'.proc) && s'.proc.Poll?
    ensures ProcPlaceOk(c, s'.rows, s'.owners, s'.records, s'.history, s'.now, s'.proc)
    ensures QueueOk(s'.records, s'.proc, s'.start, s'.queue)
    ensures s'.records == s.records[s.proc.k := s'.records[s.proc.k]]
    ensures Debited(s'.records[s.proc.k]) == Debited(s.records[s.proc.k])
    ensures s'.records[s.proc.k].request == s.records[s.proc.k].request
    ensures s'.records[s.proc.k].fee == s.records[s.proc.k].fee
  {
    WriteKeepsQueue(s.records, s.proc, s'.proc, s.start, s.queue, s'.records[s.proc.k]);
  }

  lemma AttachKeepsInv(c: Config, s: State, s': State)
    requires Inv(c, s) && ProcAttach(c, s) == Some(s')
    ensures Inv(c, s')
  {
    AttachFacts(c, s, s');
    AttachPlace(c, s, s');
    AttachKeepsTable(c, s.rows, s'.rows[|s.rows|], s.chain, s.cursors, s.jobs, s.sender);
    AttachFrame(c, s, s');
  }

  lemma DebitFrame(c: Config, s: State, s': State)
    requires Inv(c, s)
    requires s' == s.(ledger := s.ledger.(accounts := s'.ledger.accounts), records := s'.records, proc := s'.proc)
    requires OwnedOk(c, s'.rows, s'.owners, s'.records) && Serial(s'.records)
    requires FingerprintsOk(c, s'.records, s'.history.legacy)
    requires HistoryOk(c, s'.rows, s'.owners, s'.records, s'.history, s'.now)
    requires ProcRecordOk(c, s'.records, s'.proc)
    requires ProcPlaceOk(c, s'.rows, s'.owners, s'.records, s'.history, s'.now, s'.proc)
    requires QueueOk(s'.records, s'.proc, s'.start, s'.queue)
    requires GatesOk(s'.records, s'.history.gates, s'.ledger.accounts, s'.accepted)
    requires AttachOk(s'.proc, s'.ledger.accounts, s'.accepted)
    ensures Inv(c, s')
  {
  }

  lemma DebitFacts(c: Config, s: State, s': State)
    requires Working(c, s) && Serial(s.records) && FingerprintsOk(c, s.records, s.history.legacy)
    requires QueueOk(s.records, s.proc, s.start, s.queue)
    requires ProcDebit(s) == Some(s') && !s'.proc.Resting?
    ensures s' == s.(ledger := s.ledger.(accounts := s'.ledger.accounts), records := s'.records, proc := s'.proc)
    ensures OwnedOk(c, s'.rows, s'.owners, s'.records) && Serial(s'.records)
    ensures FingerprintsOk(c, s'.records, s'.history.legacy)
    ensures HistoryOk(c, s'.rows, s'.owners, s'.records, s'.history, s'.now)
    ensures QueueOk(s'.records, s'.proc, s'.start, s'.queue)
    ensures GatesOk(s'.records, s'.history.gates, s'.ledger.accounts, s'.accepted)
  {
    var k := s.proc.k;
    var r := s'.records[k];
    assert s.proc.rec == s.records[k];
    assert IsPaid(s.rows, s.owners, k);
    WriteKeepsOwned(c, s.rows, s.owners, s.records, k, r);
    WriteKeepsSerial(s.records, k, r);
    WriteKeepsQueue(s.records, s.proc, s'.proc, s.start, s.queue, r);
    StatusKeepsHistory(c, s.rows, s.owners, s.records, s.history, s.now, k, WSuccess);
    StatusKeepsFingerprints(c, s.records, s.history.legacy, k, WSuccess);
    DebitKeepsGates(s.records, s.history.gates, s'.ledger.accounts, s.accepted, k);
  }

  lemma DebitPlace(c: Config, s: State, s': State)
    requires Working(c, s) && ProcDebit(s) == Some(s') && !s'.proc.Resting?
    ensures ProcRecordOk(c, s'.records, s'.proc) && |s'.owners| == |s'.rows| && s'.proc.Top?
    ensures ProcPlaceOk(c, s'.rows, s'.owners, s'.records, s'.history, s'.now, s'.proc)
    ensures var r := s.records[s.proc.k];
            var a := r.request.address;
            && a in s.ledger.accounts && !Debited(r) && s'.records == SetStatus(s.records, s.proc.k, WSuccess)
            && s'.ledger.accounts == s.ledger.accounts[a := s.ledger.accounts[a] - (r.request.amount + r.fee)]
  {
    assert s.proc.rec == s.records[s.proc.k];
  }

  lemma DebitKeepsInv(c: Config, s: State, s': State)
    requires Inv(c, s) && ProcDebit(s) == Some(s') && !s'.proc.Resting?
    ensures Inv(c, s')
  {
    DebitFacts(c, s, s');
    DebitPlace(c, s, s');
    DebitFrame(c, s, s');
  }

  lemma DebitOrStopKeepsInv(c: Config, s: State, s': State)
    requires Inv(c, s) && ProcDebit(s) == Some(s')
    ensures Inv(c, s')
  {
    if s'.proc.Resting? {
      StopKeepsInv(c, s);
    } else {
      DebitKeepsInv(c, s, s');
    }
  }

  lemma LoseDebitDecides(c: Config, s: State, s': State)
    requires Working(c, s) && ProcDebitLost(c, s) == Some(s')
    ensures Decided(c, s, s')
  {
    assert Moved(c, s, s');
  }

  // ---------------------------------------------------------------- the Relay calls

  lemma HistoryFrame(c: Config, s: State, s': State)
    requires Inv(c, s) && s' == s.(history := s'.history, proc := s'.proc) && s'.history.gates == s.history.gates
    requires s'.history.legacy == s.history.legacy
    requires !s.proc.Resting? && !s'.proc.Resting? && s'.proc.k == s.proc.k && !s'.proc.Attach?
    requires HistoryOk(c, s'.rows, s'.owners, s'.records, s'.history, s'.now)
    requires ProcRecordOk(c, s'.records, s'.proc)
    requires ProcPlaceOk(c, s'.rows, s'.owners, s'.records, s'.history, s'.now, s'.proc)
    ensures Inv(c, s')
  {
    SameRecordQueue(s.records, s.proc, s'.proc, s.start, s.queue);
  }

  lemma FulfillKeepsInv(c: Config, s: State, s': State)
    requires Inv(c, s) && ProcFulfill(s) == Some(s')
    ensures Inv(c, s')
  {
    FulfillFacts(c, s, s');
    HistoryFrame(c, s, s');
  }

  lemma FulfillFacts(c: Config, s: State, s': State)
    requires HistoryOk(c, s.rows, s.owners, s.records, s.history, s.now) && ProcRecordOk(c, s.records, s.proc)
    requires !s.proc.Resting? && ProcPlaceOk(c, s.rows, s.owners, s.records, s.history, s.now, s.proc)
    requires ProcFulfill(s) == Some(s')
    ensures HistoryOk(c, s.rows, s.owners, s.records, s'.history, s.now)
    ensures ProcRecordOk(c, s.records, s'.proc)
    ensures ProcPlaceOk(c, s.rows, s.owners, s.records, s'.history, s.now, s'.proc)
  {
    var k, h := s.proc.k, s.proc.held.value.row.txHash.value;
    assert IsPaidBy(s.rows, s.owners, k, h);
    forall n | 0 <= n < |s.records| && s.records[n].status.WFinished?
      ensures exists x :: (n, x) in s'.history.fulfills
    {
      var x :| (n, x) in s.history.fulfills;
      assert (n, x) in s'.history.fulfills;
    }
  }

  lemma RejectKeepsInv(c: Config, s: State, s': State)
    requires Inv(c, s) && ProcReject(s) == Some(s')
    ensures Inv(c, s')
  {
    RejectFacts(c, s, s');
    HistoryFrame(c, s, s');
  }

  lemma RejectFacts(c: Config, s: State, s': State)
    requires HistoryOk(c, s.rows, s.owners, s.records, s.history, s.now) && ProcRecordOk(c, s.records, s.proc)
    requires !s.proc.Resting? && ProcPlaceOk(c, s.rows, s.owners, s.records, s.history, s.now, s.proc)
    requires ProcReject(s) == Some(s')
    ensures HistoryOk(c, s.rows, s.owners, s.records, s'.history, s.now)
    ensures ProcRecordOk(c, s.records, s'.proc)
    ensures ProcPlaceOk(c, s.rows, s.owners, s.records, s'.history, s.now, s'.proc)
  {
  }

  lemma WriteFinishedKeepsInv(c: Config, s: State, s': State)
    requires Inv(c, s) && ProcFulfillWrite(s) == Some(s')
    ensures Inv(c, s')
  {
    WriteFinishedFacts(c, s, s');
    StatusFrame(c, s, s', WFinished);
  }

  lemma WriteFinishedFacts(c: Config, s: State, s': State)
    requires Working(c, s) && ProcFulfillWrite(s) == Some(s')
    ensures StatusJustified(s.rows, s.owners, s.records, s.history, s.proc.k, WFinished)
    ensures s'.proc.Done? && s'.proc.k == s.proc.k && s'.proc.rec == s.proc.rec.(status := WFinished)
    ensures s'.proc.rec == s'.records[s.proc.k]
    ensures s' == s.(records := SetStatus(s.records, s.proc.k, WFinished), proc := s'.proc)
  {
    assert IsPaid(s.rows, s.owners, s.proc.k);
  }

  lemma WriteRejectedKeepsInv(c: Config, s: State, s': State)
    requires Inv(c, s) && ProcRejectWrite(s) == Some(s')
    ensures Inv(c, s')
  {
    StatusFrame(c, s, s', WFinishedRejected);
  }

  // ---------------------------------------------------------------- all processor steps

  lemma DecisionKeepsInv(c: Config, s: State, a: ProcStep, s': State)
    requires Inv(c, s) && ProcNext(c, s, a) == Some(s') && !s.proc.Resting?
    requires Decides(a)
    ensures Inv(c, s')
  {
    StepDecides(c, s, a, s');
    DecidedKeepsInv(c, s, s');
  }

  predicate Decides(a: ProcStep) {
    || a.Again? || a.Enter? || a.TopOf? || a.NotAuthorized? || a.LoadRow? || a.PollRow? || a.GateCheck?
    || a.FinishRecord? || a.CheckReject? || a.HandleTimeout?
    || a.Revoke? || a.Revoked? || a.CancelTimeout? || a.SettleTimeout? || a.LoseDebit? || a.LookUp? || a.LoseAttach?
  }

  lemma StepDecides(c: Config, s: State, a: ProcStep, s': State)
    requires Working(c, s) && ProcNext(c, s, a) == Some(s') && Decides(a)
    ensures Decided(c, s, s')
  {
    if a.LoseDebit? {
      LoseDebitDecides(c, s, s');
    } else if a.LookUp? {
      LookUpDecides(c, s, s');
    } else if a.LoseAttach? {
      LoseAttachDecides(c, s, s');
    } else if a.Revoke? || a.Revoked? || a.CancelTimeout? || a.SettleTimeout? {
      CancelDecides(c, s, a, s');
    } else {
      ReadDecides(c, s, a, s');
    }
  }

  lemma ProcWriteKeepsInv(c: Config, s: State, a: ProcStep, s': State)
    requires Inv(c, s) && ProcNext(c, s, a) == Some(s')
    requires a.Authorized? || a.AttachRow? || a.DebitAccount?
    ensures Inv(c, s')
  {
    match a
    case Authorized => AuthorizedKeepsInv(c, s, s');
    case AttachRow => AttachKeepsInv(c, s, s');
    case DebitAccount => DebitOrStopKeepsInv(c, s, s');
  }

  lemma ProcRelayKeepsInv(c: Config, s: State, a: ProcStep, s': State)
    requires Inv(c, s) && ProcNext(c, s, a) == Some(s')
    requires a.CallFulfill? || a.WriteFinished? || a.CallReject? || a.WriteRejected?
    ensures Inv(c, s')
  {
    match a
    case CallFulfill => FulfillKeepsInv(c, s, s');
    case WriteFinished => WriteFinishedKeepsInv(c, s, s');
    case CallReject => RejectKeepsInv(c, s, s');
    case WriteRejected => WriteRejectedKeepsInv(c, s, s');
  }

  lemma ProcOtherKeepsInv(c: Config, s: State, a: ProcStep, s': State)
    requires Inv(c, s) && ProcNext(c, s, a) == Some(s') && !Decides(a)
    requires !a.CallFulfill? && !a.WriteFinished? && !a.CallReject? && !a.WriteRejected?
    ensures Inv(c, s')
  {
    if a.FetchBatch? || a.Begin? || a.NextRecord? {
      LoopKeepsInv(c, s, a, s');
    } else if a.Stop? {
      StopKeepsInv(c, s);
    } else {
      ProcWriteKeepsInv(c, s, a, s');
    }
  }

  lemma DecidesInRecord(c: Config, s: State, a: ProcStep)
    requires Decides(a) && ProcNext(c, s, a).Some?
    ensures !s.proc.Resting?
  {
  }

  lemma ProcKeepsInv(c: Config, s: State, a: ProcStep, s': State)
    requires Inv(c, s) && ProcNext(c, s, a) == Some(s')
    ensures Inv(c, s')
  {
    if Decides(a) {
      DecidesInRecord(c, s, a);
      DecisionKeepsInv(c, s, a, s');
    } else if a.CallFulfill? || a.WriteFinished? || a.CallReject? || a.WriteRejected? {
      ProcRelayKeepsInv(c, s, a, s');
    } else {
      ProcOtherKeepsInv(c, s, a, s');
    }
  }
}
