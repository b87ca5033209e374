/**
  The safety theorems of the payout protocol, over every run: any interleaving of the sender, stale
  confirmers, the processor, cancellation, log batches, reorganisations, crashes and restarts.
*/
module Theorems {
  import opened Wrappers
  import opened Transactions
  import opened Chains
  import opened RelayLedger
  import opened Protocol
  import opened Invariants
  import opened EnvironmentProofs
  import opened Evolution
  import Authorization
  import LedgerHistory
  import SenderProofs
  import ConfirmerProofs
  import ProcessorProofs
  import GateProofs
  import TableProofs
  import RecordProofs

  // ---------------------------------------------------------------- the invariant over runs

  lemma EnvKeepsDown(c: Config, s: State, a: EnvStep, s': State)
    requires DownOk(s) && EnvNext(c, s, a) == Some(s')
    ensures DownOk(s')
  {
  }

  lemma NextKeepsDown(c: Config, s: State, step: Step, s': State)
    requires Inv(c, s) && DownOk(s) && Next(c, s, step) == Some(s')
    ensures DownOk(s')
  {
    if step.EnvMoves? {
      EnvKeepsDown(c, s, step.env, s');
    } else {
      StepLater(c, s, step, s');
      assert s'.up;
    }
  }

  lemma NextKeepsInv(c: Config, s: State, step: Step, s': State)
    requires Inv(c, s) && DownOk(s) && Next(c, s, step) == Some(s')
    ensures Inv(c, s')
  {
    match step
    case EnvMoves(a) => EnvKeepsInv(c, s, a, s');
    case SenderMoves(a) => SenderProofs.SenderKeepsInv(c, s, a, s');
    case JobMoves(j, a) => ConfirmerProofs.JobKeepsInv(c, s, j, a, s');
    case ProcMoves(a) => ProcessorProofs.ProcKeepsInv(c, s, a, s');
  }

  /** Every state of every run satisfies the invariant. */
  lemma {:induction false} RunInv(c: Config, states: seq<State>, steps: seq<Step>, n: nat)
    requires Run(c, states, steps) && n < |states|
    ensures Inv(c, states[n]) && DownOk(states[n])
  {
    if n == 0 {
      InitInv(c, states[0]);
    } else {
      RunInv(c, states, steps, n - 1);
      NextKeepsInv(c, states[n - 1], steps[n - 1], states[n]);
      NextKeepsDown(c, states[n - 1], steps[n - 1], states[n]);
    }
  }

  /**
    Any two states of a run: rows and records only move forward, owners, submissions, accepted logs and
    Relay calls only accumulate, and final receipts stay.
  */
  lemma {:induction false} RunLater(c: Config, states: seq<State>, steps: seq<Step>, m: nat, n: nat)
    requires Run(c, states, steps) && m <= n < |states|
    ensures Later(c, states[m], states[n])
    decreases n - m
  {
    RunInv(c, states, steps, m);
    if m == n {
      LaterReflexive(c, states[m]);
    } else {
      StepLater(c, states[m], steps[m], states[m + 1]);
      RunLater(c, states, steps, m + 1, n);
      LaterTransitive(c, states[m], states[m + 1], states[n]);
    }
  }

  // ---------------------------------------------------------------- reachable states

  ghost predicate Reachable(c: Config, s: State) {
    exists states, steps :: Run(c, states, steps) && states[|steps|] == s
  }

  lemma ReachableInv(c: Config, s: State)
    requires Reachable(c, s)
    ensures Inv(c, s) && DownOk(s)
  {
    var states, steps :| Run(c, states, steps) && states[|steps|] == s;
    RunInv(c, states, steps, |steps|);
  }

  /** The payload has been executed successfully on its network. */
  ghost predicate Succeeded(chain: Chain, p: Payload) {
    var key := TxKey(p.order.network, p.hash);
    key in chain.receipts && chain.receipts[key].ok
  }

  /** The head of the network is at least the configured number of blocks above `block`. */
  predicate DeepEnough(c: Config, chain: Chain, network: string, block: nat) {
    && network in c.networks && network in chain.heads
    && chain.heads[network] >= block + c.networks[network].depth
  }

  predicate Irrevocable(c: Config, chain: Chain, key: TxKey) {
    key in chain.receipts && DeepEnough(c, chain, key.network, chain.receipts[key].block)
  }

  /** The payload has been reverted, for good. */
  ghost predicate Reverted(c: Config, chain: Chain, p: Payload) {
    var key := TxKey(p.order.network, p.hash);
    Irrevocable(c, chain, key) && !chain.receipts[key].ok
  }

  /** Submission `x` was made on behalf of record `k`. */
  ghost predicate SentFor(s: State, x: nat, k: nat) {
    x < |s.chain.sends| && s.chain.sends[x].row < |s.owners| && s.owners[s.chain.sends[x].row] == k
  }

  /**
    A failed row counts as proven exactly when the node's revert reason is not, word for word, the text
    reserved for receipt timeouts; either way, if no receipt vanishes, it was reverted for good.
  */
  lemma FailureProvenExactly(c: Config, s: State, i: nat)
    requires Reachable(c, s) && i < |s.rows| && s.rows[i].status.Failed?
    ensures s.rows[i].signedRaw.Some? && (!c.receiptsMayVanish ==> Reverted(c, s.chain, s.rows[i].signedRaw.value))
    ensures IsProvenOnChainFailure(s.rows[i]) <==> s.rows[i].statusMessage != Some(TIMED_OUT)
  {
    ReachableInv(c, s);
    FailedRowReverted(c, s.rows, s.chain, i);
    assert RowOk(s.rows[i]);
  }

  // ---------------------------------------------------------------- no double payout

  lemma FailedRowReverted(c: Config, rows: seq<Row>, chain: Chain, i: nat)
    requires AllRowsOk(rows) && ChainOk(c, rows, chain) && i < |rows| && rows[i].status.Failed?
    ensures rows[i].signedRaw.Some?
    ensures !c.receiptsMayVanish ==> Reverted(c, chain, rows[i].signedRaw.value)
  {
    assert RowOk(rows[i]) && RowOnChain(c, chain, rows[i]);
  }

  lemma EarlierAttemptsFailed(c: Config, s: State, i: nat, j: nat)
    requires TableOk(s.rows) && OwnedOk(c, s.rows, s.owners, s.records) && ChainOk(c, s.rows, s.chain)
    requires i < j < |s.rows| && s.owners[i] == s.owners[j]
    ensures s.rows[i].status.Failed? && s.rows[i].signedRaw.Some?
    ensures !c.receiptsMayVanish ==> Reverted(c, s.chain, s.rows[i].signedRaw.value)
  {
    assert RootOf(s.rows, i) == RootOf(s.rows, j);
    FailedRowReverted(c, s.rows, s.chain, i);
  }

  /** Every attempt of a record except its last is marked failed and, if no receipt vanishes, was reverted for good. */
  lemma AllButLastReverted(c: Config, s: State, i: nat, j: nat)
    requires Reachable(c, s) && i < j < |s.rows| && i < |s.owners| && j < |s.owners| && s.owners[i] == s.owners[j]
    ensures s.rows[i].status.Failed? && s.rows[i].signedRaw.Some?
    ensures !c.receiptsMayVanish ==> Reverted(c, s.chain, s.rows[i].signedRaw.value)
  {
    ReachableInv(c, s);
    EarlierAttemptsFailed(c, s, i, j);
  }

  lemma EarlierSendReverted(c: Config, s: State, k: nat, x: nat, y: nat)
    requires TableOk(s.rows) && OwnedOk(c, s.rows, s.owners, s.records) && ChainOk(c, s.rows, s.chain)
    requires !c.receiptsMayVanish && SentFor(s, x, k) && SentFor(s, y, k) && s.chain.sends[x].row < s.chain.sends[y].row
    ensures Reverted(c, s.chain, s.chain.sends[x].payload)
  {
    EarlierAttemptsFailed(c, s, s.chain.sends[x].row, s.chain.sends[y].row);
  }

  lemma SameRowSamePayload(c: Config, rows: seq<Row>, chain: Chain, x: nat, y: nat)
    requires ChainOk(c, rows, chain) && x < |chain.sends| && y < |chain.sends|
    requires chain.sends[x].row == chain.sends[y].row
    ensures chain.sends[x].payload == chain.sends[y].payload
  {
  }

  /** Of all payloads ever submitted for a record, at most one has succeeded on chain, if no receipt vanishes. */
  lemma NoDoublePayout(c: Config, s: State, k: nat, x: nat, y: nat)
    requires Reachable(c, s) && !c.receiptsMayVanish && SentFor(s, x, k) && SentFor(s, y, k)
    requires Succeeded(s.chain, s.chain.sends[x].payload) && Succeeded(s.chain, s.chain.sends[y].payload)
    ensures s.chain.sends[x].payload == s.chain.sends[y].payload
  {
    ReachableInv(c, s);
    if s.chain.sends[x].row == s.chain.sends[y].row {
      SameRowSamePayload(c, s.rows, s.chain, x, y);
    } else if s.chain.sends[x].row < s.chain.sends[y].row {
      EarlierSendReverted(c, s, k, x, y);
    } else {
      EarlierSendReverted(c, s, k, y, x);
    }
  }

  /** The transfer `o` is what the request asks for, in the asset its network is configured to pay. */
  ghost predicate Serves(c: Config, q: Authorization.Request, o: Order) {
    && o.amount == q.amount && o.network == q.network && q.network in c.networks
    && o.payer == c.networks[q.network].account
    && (q.benefit != "" ==> o.payee == q.benefit) && (q.benefit == "" ==> o.payee == q.address)
    && (o.Native? <==> c.networks[q.network].token.None?)
    && (o.Erc20? ==> c.networks[q.network].token == Some(o.token))
  }

  lemma SendBelongs(c: Config, s: State, x: nat)
    requires AllRowsOk(s.rows) && OwnedOk(c, s.rows, s.owners, s.records) && ChainOk(c, s.rows, s.chain)
    requires x < |s.chain.sends|
    ensures exists k: nat :: SentFor(s, x, k) && k < |s.records|
              && Serves(c, s.records[k].request, s.chain.sends[x].payload.order)
  {
    var i := s.chain.sends[x].row;
    assert RowOk(s.rows[i]);
    assert SentFor(s, x, s.owners[i]);
  }

  /** Every submission pays some record exactly what that record asks for: network, payee, asset and amount. */
  lemma PaysWhatWasAsked(c: Config, s: State, x: nat)
    requires Reachable(c, s) && x < |s.chain.sends|
    ensures exists k: nat :: SentFor(s, x, k) && k < |s.records|
              && Serves(c, s.records[k].request, s.chain.sends[x].payload.order)
  {
    ReachableInv(c, s);
    SendBelongs(c, s, x);
  }

  /** Submissions of different rows have different hashes, so one receipt never settles two of them. */
  lemma SubmissionsDistinct(c: Config, s: State, x: nat, y: nat)
    requires Reachable(c, s) && x < |s.chain.sends| && y < |s.chain.sends|
    ensures s.chain.sends[x].row == s.chain.sends[y].row <==>
              s.chain.sends[x].payload.hash == s.chain.sends[y].payload.hash
  {
    ReachableInv(c, s);
    DistinctSends(c, s.rows, s.chain, x, y);
  }

  lemma DistinctSends(c: Config, rows: seq<Row>, chain: Chain, x: nat, y: nat)
    requires TableOk(rows) && ChainOk(c, rows, chain) && x < |chain.sends| && y < |chain.sends|
    ensures chain.sends[x].row == chain.sends[y].row <==> chain.sends[x].payload.hash == chain.sends[y].payload.hash
  {
    var i, j := chain.sends[x].row, chain.sends[y].row;
    assert RowOk(rows[i]) && RowOk(rows[j]);
    assert i != j ==> rows[i].txHash != rows[j].txHash;
  }

  // ---------------------------------------------------------------- write-ahead

  /** A payload is submitted only while its row is stored as `Broadcasting` with that very payload. */
  lemma WriteAhead(c: Config, states: seq<State>, steps: seq<Step>, n: nat)
    requires Run(c, states, steps) && n < |steps|
    ensures WrittenAhead(states[n].rows, states[n].chain.sends, states[n + 1].chain.sends)
  {
    RunInv(c, states, steps, n);
    StepWritesAhead(c, states[n], steps[n], states[n + 1]);
  }

  lemma StepWritesAhead(c: Config, s: State, step: Step, s': State)
    requires Inv(c, s) && Next(c, s, step) == Some(s')
    ensures WrittenAhead(s.rows, s.chain.sends, s'.chain.sends)
  {
    if s'.chain.sends != s.chain.sends {
      StepSends(c, s, step, s');
    }
  }

  /** Every submission that is in `after` but not in `before` was stored first. */
  ghost predicate WrittenAhead(rows: seq<Row>, before: seq<Send>, after: seq<Send>) {
    && before <= after
    && forall x :: |before| <= x < |after| ==>
         && after[x].row < |rows| && rows[after[x].row].status.Broadcasting?
         && rows[after[x].row].signedRaw == Some(after[x].payload)
  }

  /** A row that was ever submitted keeps that payload and never falls back to a state that could be re-signed. */
  lemma SubmittedStaysCommitted(c: Config, s: State, x: nat)
    requires Reachable(c, s) && x < |s.chain.sends|
    ensures var send := s.chain.sends[x];
            && send.row < |s.rows| && s.rows[send.row].signedRaw == Some(send.payload)
            && !s.rows[send.row].status.Pending? && !s.rows[send.row].status.Sending?
            && !s.rows[send.row].status.Cancelled?
  {
    ReachableInv(c, s);
    assert RowOk(s.rows[s.chain.sends[x].row]);
  }

  lemma UnsentRow(c: Config, rows: seq<Row>, chain: Chain, i: nat)
    requires AllRowsOk(rows) && ChainOk(c, rows, chain) && i < |rows| && rows[i].status.Sending?
    ensures rows[i].txHash.None? && forall x :: 0 <= x < |chain.sends| ==> chain.sends[x].row != i
  {
    assert RowOk(rows[i]);
  }

  /** Startup recovery re-queues or cancels only rows of which nothing was ever submitted. */
  lemma RecoveryTouchesOnlyUnsent(c: Config, s: State, cursors: map<string, nat>, retire: bool, s': State, i: nat)
    requires Reachable(c, s) && Boot(s, cursors, retire) == Some(s') && i < |s.rows| && s'.rows[i] != s.rows[i]
    ensures s.rows[i].txHash.None? && forall x :: 0 <= x < |s.chain.sends| ==> s.chain.sends[x].row != i
  {
    ReachableInv(c, s);
    UnsentRow(c, s.rows, s.chain, i);
  }

  // ---------------------------------------------------------------- reject is final, fulfil is exact, never both

  /** From state `a` to state `b`, the chain of record `k` is frozen: no new row, no change, no submission. */
  ghost predicate ChainFrozen(a: State, b: State, k: nat) {
    && |a.owners| == |a.rows| && |b.owners| == |b.rows|
    && (forall i :: 0 <= i < |b.rows| && b.owners[i] == k ==>
          i < |a.rows| && a.owners[i] == k
          && b.rows[i] == a.rows[i])
    && (forall x: nat :: SentFor(b, x, k) ==> x < |a.chain.sends|)
  }

  lemma ReportedIsFrozen(c: Config, a: State, b: State, k: nat)
    requires HistoryOk(c, a.rows, a.owners, a.records, a.history, a.now)
    requires Later(c, a, b) && Reported(a.history, k) && ChainOk(c, b.rows, b.chain)
    ensures ChainFrozen(a, b, k)
  {
    forall i | 0 <= i < |b.rows| && b.owners[i] == k
      ensures i < |a.rows| && a.owners[i] == k && Terminal(a.rows[i]) && b.rows[i] == a.rows[i]
    {
      assert i < |a.rows|;
      assert Evolves(a.rows[i], b.rows[i]);
      ReportedIsTerminal(c, a.rows, a.owners, a.records, a.history, a.now, i);
    }
  }

  lemma RejectedNeverPaid(c: Config, s: State, k: nat, x: nat)
    requires AllRowsOk(s.rows) && ChainOk(c, s.rows, s.chain)
    requires HistoryOk(c, s.rows, s.owners, s.records, s.history, s.now)
    requires k in s.history.rejects && SentFor(s, x, k)
    ensures s.rows[s.chain.sends[x].row].status.Failed?
    ensures !c.receiptsMayVanish ==> Reverted(c, s.chain, s.chain.sends[x].payload)
  {
    var i := s.chain.sends[x].row;
    assert RejectJustified(c, s.rows, s.owners, s.records[k], k, s.now);
    assert RowOk(s.rows[i]);
    FailedRowReverted(c, s.rows, s.chain, i);
  }

  lemma NotBoth(c: Config, s: State, k: nat, h: Hash)
    requires HistoryOk(c, s.rows, s.owners, s.records, s.history, s.now) && (k, h) in s.history.fulfills
    ensures k !in s.history.rejects
  {
    GateProofs.PaidNotFailed(s.rows, s.owners, k);
  }

  /**
    Once the Relay has been told to reject record `k`, then for ever after nothing more is submitted for
    it, it is never fulfilled, its account is never debited, and, if no receipt vanishes, every payload
    that was ever submitted for it is reverted for good.
  */
  lemma RejectIsFinal(c: Config, states: seq<State>, steps: seq<Step>, m: nat, n: nat, k: nat)
    requires Run(c, states, steps) && m <= n < |states| && k in states[m].history.rejects
    ensures ChainFrozen(states[m], states[n], k)
    ensures !c.receiptsMayVanish ==>
              forall x: nat :: SentFor(states[n], x, k) ==> Reverted(c, states[n].chain,
                                                                     states[n].chain.sends[x].payload)
    ensures forall h :: (k, h) !in states[n].history.fulfills
    ensures k < |states[n].records| && !Debited(states[n].records[k])
  {
    RunLater(c, states, steps, m, n);
    RunInv(c, states, steps, m);
    RunInv(c, states, steps, n);
    RejectSettles(c, states[m], states[n], k);
  }

  lemma RejectSettles(c: Config, a: State, b: State, k: nat)
    requires HistoryOk(c, a.rows, a.owners, a.records, a.history, a.now) && Later(c, a, b) && k in a.history.rejects
    requires AllRowsOk(b.rows) && ChainOk(c, b.rows, b.chain)
    requires HistoryOk(c, b.rows, b.owners, b.records, b.history, b.now)
    ensures ChainFrozen(a, b, k)
    ensures !c.receiptsMayVanish ==> forall x: nat :: SentFor(b, x, k) ==>
              Reverted(c, b.chain, b.chain.sends[x].payload)
    ensures forall h :: (k, h) !in b.history.fulfills
    ensures k < |b.records| && !Debited(b.records[k])
  {
    ReportedIsFrozen(c, a, b, k);
    forall x: nat | SentFor(b, x, k) ensures !c.receiptsMayVanish ==> Reverted(c, b.chain, b.chain.sends[x].payload) {
      RejectedNeverPaid(c, b, k, x);
    }
    if h :| (k, h) in b.history.fulfills {
      NotBoth(c, b, k, h);
    }
  }

  /**
    A Reject call is made only for a record that was not paid: either it never got a transaction and was
    refused or is past its deadline, or every one of its attempts has provably failed.
  */
  lemma RejectHasCause(c: Config, states: seq<State>, steps: seq<Step>, n: nat)
    requires Run(c, states, steps) && n < |steps| && steps[n] == ProcMoves(CallReject)
    ensures states[n].proc.Reject? && Rejectable(c, states[n], states[n].proc.k)
  {
    RunInv(c, states, steps, n);
    RejectStepIs(c, states[n], steps[n], states[n + 1]);
    CausedBy(c, states[n]);
  }

  ghost predicate Rejectable(c: Config, s: State, k: nat) {
    && k < |s.records| && |s.owners| == |s.rows| && !Debited(s.records[k])
    && (s.records[k].txId.None? ==> s.records[k].status.WFailed? || s.now > s.records[k].createdAt + c.timeout)
    && (s.records[k].txId.Some? ==> AllFailed(s.rows, s.owners, k))
  }

  lemma RejectStepIs(c: Config, s: State, step: Step, s': State)
    requires step == ProcMoves(CallReject) && Next(c, s, step) == Some(s')
    ensures s.proc.Reject?
  {
  }

  lemma CausedBy(c: Config, s: State)
    requires ProcRecordOk(c, s.records, s.proc) && |s.owners| == |s.rows| && s.proc.Reject?
    requires ProcPlaceOk(c, s.rows, s.owners, s.records, s.history, s.now, s.proc)
    ensures Rejectable(c, s, s.proc.k)
  {
  }

  lemma NothingRejectedYet(c: Config, s: State)
    requires Init(c, s)
    ensures s.history.rejects == {}
  {
  }

  /** Every rejection on record goes back to such a call. */
  lemma {:induction false} RejectionWasCalled(c: Config, states: seq<State>, steps: seq<Step>, n: nat,
                                              k: nat) returns (m: nat)
    requires Run(c, states, steps) && n < |states| && k in states[n].history.rejects
    ensures m < n && steps[m] == ProcMoves(CallReject) && states[m].proc.Reject? && states[m].proc.k == k
  {
    NothingRejectedYet(c, states[0]);
    if k in states[n - 1].history.rejects {
      m := RejectionWasCalled(c, states, steps, n - 1, k);
    } else {
      m := n - 1;
      RunStepRejects(c, states, steps, m, k);
    }
  }

  lemma RunStepRejects(c: Config, states: seq<State>, steps: seq<Step>, m: nat, k: nat)
    requires Run(c, states, steps) && m < |steps| && k in states[m + 1].history.rejects
    requires k !in states[m].history.rejects
    ensures steps[m] == ProcMoves(CallReject) && states[m].proc.Reject? && states[m].proc.k == k
  {
    RunInv(c, states, steps, m);
    StepRejects(c, states[m], steps[m], states[m + 1]);
  }

  /** Row `i` carries the one payment of record `k`, with hash `h`; if no receipt vanishes, it alone succeeded. */
  ghost predicate SolePayment(c: Config, s: State, k: nat, h: Hash, i: nat) {
    && |s.owners| == |s.rows| && i < |s.rows| && s.owners[i] == k
    && s.rows[i].status.Confirmed? && s.rows[i].txHash == Some(h)
    && (forall j :: 0 <= j < |s.rows| && s.owners[j] == k && j != i ==> IsProvenTerminalFailure(s.rows[j]))
    && (!c.receiptsMayVanish ==>
          && Irrevocable(c, s.chain, KeyOf(s.rows[i])) && s.chain.receipts[KeyOf(s.rows[i])].ok
          && (forall x: nat :: SentFor(s, x, k) && s.chain.sends[x].row != i ==>
                Reverted(c, s.chain, s.chain.sends[x].payload)))
  }

  lemma FulfilledIsPaid(c: Config, s: State, k: nat, h: Hash) returns (i: nat)
    requires AllRowsOk(s.rows) && ChainOk(c, s.rows, s.chain)
    requires HistoryOk(c, s.rows, s.owners, s.records, s.history, s.now)
    requires (k, h) in s.history.fulfills
    ensures SolePayment(c, s, k, h, i)
  {
    i :| Paid(s.rows, s.owners, k, i) && s.rows[i].txHash == Some(h);
    assert RowOnChain(c, s.chain, s.rows[i]);
    forall x: nat | SentFor(s, x, k) && s.chain.sends[x].row != i
      ensures !c.receiptsMayVanish ==> Reverted(c, s.chain, s.chain.sends[x].payload)
    {
      var j := s.chain.sends[x].row;
      assert RowOk(s.rows[j]);
      FailedRowReverted(c, s.rows, s.chain, j);
    }
  }

  /**
    Once the Relay has been told that record `k` was paid by `h`, then for ever after exactly one row of
    the record is confirmed, its hash is `h`, nothing more is submitted, no other hash is ever reported,
    and the record is never rejected; if no receipt vanishes, `h` succeeded and all else was reverted.
  */
  lemma FulfillIsExact(c: Config, states: seq<State>, steps: seq<Step>, m: nat, n: nat, k: nat, h: Hash)
    requires Run(c, states, steps) && m <= n < |states| && (k, h) in states[m].history.fulfills
    ensures exists i: nat :: SolePayment(c, states[n], k, h, i)
    ensures ChainFrozen(states[m], states[n], k)
    ensures k !in states[n].history.rejects && forall h' :: (k, h') in states[n].history.fulfills ==> h' == h
  {
    RunLater(c, states, steps, m, n);
    RunInv(c, states, steps, m);
    RunInv(c, states, steps, n);
    FulfillSettles(c, states[m], states[n], k, h);
  }

  lemma FulfillSettles(c: Config, a: State, b: State, k: nat, h: Hash)
    requires HistoryOk(c, a.rows, a.owners, a.records, a.history, a.now) && Later(c, a, b)
    requires (k, h) in a.history.fulfills
    requires AllRowsOk(b.rows) && ChainOk(c, b.rows, b.chain)
    requires HistoryOk(c, b.rows, b.owners, b.records, b.history, b.now)
    ensures exists i: nat :: SolePayment(c, b, k, h, i)
    ensures ChainFrozen(a, b, k)
    ensures k !in b.history.rejects && forall h' :: (k, h') in b.history.fulfills ==> h' == h
  {
    ReportedIsFrozen(c, a, b, k);
    NotBoth(c, b, k, h);
    var i := FulfilledIsPaid(c, b, k, h);
    forall h' | (k, h') in b.history.fulfills ensures h' == h {
      OneHash(c, b, k, h, h');
    }
  }

  lemma OneHash(c: Config, s: State, k: nat, h: Hash, h': Hash)
    requires HistoryOk(c, s.rows, s.owners, s.records, s.history, s.now)
    requires (k, h) in s.history.fulfills && (k, h') in s.history.fulfills
    ensures h' == h
  {
    var i: nat :| Paid(s.rows, s.owners, k, i) && s.rows[i].txHash == Some(h);
    var j: nat :| Paid(s.rows, s.owners, k, j) && s.rows[j].txHash == Some(h');
    assert i != j ==> IsProvenTerminalFailure(s.rows[j]);
  }

  lemma OutcomeOf(c: Config, s: State, k: nat)
    requires AllRowsOk(s.rows) && ChainOk(c, s.rows, s.chain)
    requires HistoryOk(c, s.rows, s.owners, s.records, s.history, s.now)
    requires k < |s.records|
    ensures s.records[k].status.WFinished? ==>
              exists h, i: nat :: (k, h) in s.history.fulfills && SolePayment(c, s, k, h, i)
    ensures s.records[k].status.WFinishedRejected? ==> k in s.history.rejects
  {
    if s.records[k].status.WFinished? {
      var h :| (k, h) in s.history.fulfills;
      var i := FulfilledIsPaid(c, s, k, h);
    }
  }

  /** What the final status of a record means on chain and at the Relay. */
  lemma FinishedMeans(c: Config, s: State, k: nat)
    requires Reachable(c, s) && k < |s.records|
    ensures s.records[k].status.WFinished? ==>
              exists h, i: nat :: (k, h) in s.history.fulfills && SolePayment(c, s, k, h, i)
    ensures s.records[k].status.WFinishedRejected? ==> k in s.history.rejects
  {
    ReachableInv(c, s);
    OutcomeOf(c, s, k);
  }

  // ---------------------------------------------------------------- one record at a time

  /** A record with a transaction has only finished records before it, and only the newest row can still change. */
  lemma HeadOfLine(c: Config, s: State)
    requires Reachable(c, s)
    ensures forall j, k :: 0 <= j < k < |s.records| && s.records[k].txId.Some? ==>
              s.records[j].status.WFinished? || s.records[j].status.WFinishedRejected?
    ensures forall i :: 0 <= i < |s.rows| - 1 ==>
              s.rows[i].status.Confirmed? || s.rows[i].status.Failed? || s.rows[i].status.Cancelled?
  {
    ReachableInv(c, s);
  }

  lemma OneLiveRow(rows: seq<Row>)
    requires OnlyLastLive(rows)
    ensures forall i, j :: 0 <= i < |rows| && 0 <= j < |rows| && !Terminal(rows[i]) && !Terminal(rows[j]) ==> i == j
  {
  }

  // ---------------------------------------------------------------- the sender

  lemma {:induction false} InFlightBound(rows: seq<Row>, network: string)
    requires OnlyLastLive(rows)
    ensures InFlight(rows, network) <= 1
    ensures (forall i :: 0 <= i < |rows| ==> Terminal(rows[i])) ==> InFlight(rows, network) == 0
    ensures InFlight(rows, network) == 1 ==> rows != [] && rows[|rows| - 1].order.network == network
                                             && (rows[|rows| - 1].status.Sent? || rows[|rows| - 1].status.Broadcasting?)
  {
    if rows != [] {
      var before := rows[..|rows| - 1];
      assert forall i :: 0 <= i < |before| ==> before[i] == rows[i] && Terminal(before[i]);
      InFlightBound(before, network);
    }
  }

  /** The rows of the network that are being broadcast or wait for their receipt. */
  ghost function InFlightIds(rows: seq<Row>, network: string): set<nat> {
    set i | 0 <= i < |rows| && (rows[i].status.Sent? || rows[i].status.Broadcasting?)
            && rows[i].order.network == network
  }

  lemma {:induction false} InFlightCounts(rows: seq<Row>, network: string)
    ensures InFlight(rows, network) == |InFlightIds(rows, network)|
  {
    if rows != [] {
      var n := |rows| - 1;
      InFlightCounts(rows[..n], network);
      var before, hit := InFlightIds(rows[..n], network), InFlightIds(rows, network);
      assert forall i :: 0 <= i < n ==> rows[..n][i] == rows[i];
      assert hit - {n} == before;
      assert n !in hit ==> hit == before;
    }
  }

  /** Per network: one broadcast at a time, nonces strictly increasing, and never more in flight than configured. */
  lemma SenderGuarantees(c: Config, s: State, network: string)
    requires Reachable(c, s)
    ensures forall i, j ::
        (0 <= i < |s.rows| && 0 <= j < |s.rows| && s.rows[i].status.Broadcasting? && s.rows[j].status.Broadcasting?)
        ==> i == j
    ensures forall i, j :: 0 <= i < j < |s.rows| && s.rows[i].order.network == s.rows[j].order.network
              && s.rows[i].signedRaw.Some? && s.rows[j].signedRaw.Some?
              ==> s.rows[i].signedRaw.value.nonce < s.rows[j].signedRaw.value.nonce
    ensures |InFlightIds(s.rows, network)| <= if network in c.networks then c.networks[network].sentLimit else 0
  {
    ReachableInv(c, s);
    SenderBounds(c, s.rows, network);
    InFlightCounts(s.rows, network);
  }

  lemma SenderBounds(c: Config, rows: seq<Row>, network: string)
    requires TableOk(rows) && LimitOk(c, rows)
    ensures forall i, j ::
        (0 <= i < |rows| && 0 <= j < |rows| && rows[i].status.Broadcasting? && rows[j].status.Broadcasting?)
        ==> i == j
    ensures forall i, j :: 0 <= i < j < |rows| && rows[i].order.network == rows[j].order.network
              && rows[i].signedRaw.Some? && rows[j].signedRaw.Some?
              ==> rows[i].signedRaw.value.nonce < rows[j].signedRaw.value.nonce
    ensures InFlight(rows, network) <= SentLimit(c, network)
  {
    OneLiveRow(rows);
    InFlightBound(rows, network);
    assert forall i :: 0 <= i < |rows| ==> RowOk(rows[i]);
  }

  // ---------------------------------------------------------------- cancellation

  /**
    A cancellation request excludes any broadcast, for ever, keeps its time and reason, and leaves the row
    no other way than to `Cancelled`, whoever gets to it first: release, restart or the timeout handler.
    A persisted payload excludes cancellation, for ever, and never changes.
  */
  lemma CancellationHandshake(c: Config, states: seq<State>, steps: seq<Step>, m: nat, n: nat, i: nat)
    requires Run(c, states, steps) && m <= n < |states| && i < |states[m].rows|
    ensures i < |states[n].rows|
    ensures var a, b := states[m].rows[i], states[n].rows[i];
            && (a.cancelRequestedAt.Some? ==>
                  && b.cancelRequestedAt == a.cancelRequestedAt && b.statusMessage == a.statusMessage
                  && !HasCommittedBroadcast(b) && (b.status == a.status || b.status.Cancelled?))
            && (a.signedRaw.Some? ==>
                  && b.signedRaw == a.signedRaw && b.txHash == a.txHash && b.cancelRequestedAt.None?
                  && (b.status.Broadcasting? || b.status.Sent? || b.status.Confirmed? || b.status.Failed?))
            && StatusReaches(a.status, b.status)
  {
    RunLater(c, states, steps, m, n);
    RunInv(c, states, steps, n);
    Handshake(states[m].rows[i], states[n].rows[i]);
  }

  lemma Handshake(a: Row, b: Row)
    requires Evolves(a, b) && RowOk(b)
    ensures a.cancelRequestedAt.Some? ==>
              && b.cancelRequestedAt == a.cancelRequestedAt && b.statusMessage == a.statusMessage
              && !HasCommittedBroadcast(b) && (b.status == a.status || b.status.Cancelled?)
    ensures a.signedRaw.Some? ==>
              && b.signedRaw == a.signedRaw && b.txHash == a.txHash && b.cancelRequestedAt.None?
              && (b.status.Broadcasting? || b.status.Sent? || b.status.Confirmed? || b.status.Failed?)
    ensures StatusReaches(a.status, b.status)
  {
  }

  // ---------------------------------------------------------------- retry chains

  /** The rows of record `k` are exactly those from `root` to the current one, and look like this. */
  ghost predicate ChainShaped(c: Config, rows: seq<Row>, owners: seq<nat>, r: Record, k: nat, root: nat)
    requires root < |rows| && |owners| == |rows|
  {
    var last := CurrentId(rows, root);
    && root <= last < |rows| && last - root <= rows[root].maxRetries <= 255
    && (forall i :: 0 <= i < |rows| ==> (owners[i] == k <==> root <= i <= last))
    && (forall i :: root <= i <= last ==>
          && rows[i].retryCount == i - root && rows[i].maxRetries == rows[root].maxRetries
          && OrderFor(c, r) == Some(rows[i].order))
    && (forall i :: root <= i < last ==> rows[i].status.Failed?)
    && (rows[last].status.Failed? ==> rows[last].retryCount == rows[last].maxRetries)
  }

  lemma ChainShapeOf(c: Config, rows: seq<Row>, owners: seq<nat>, records: seq<Record>, k: nat, root: nat)
    requires TableOk(rows) && OwnedOk(c, rows, owners, records) && k < |records| && records[k].txId == Some(root)
    ensures root < |rows| && rows[root].root.None?
    ensures ChainShaped(c, rows, owners, records[k], k, root)
  {
    var last := CurrentId(rows, root);
    GateProofs.CurrentIsLast(rows, root);
    forall i | 0 <= i < |rows| ensures owners[i] == k <==> root <= i <= last {
      GateProofs.OwnerIsRoot(c, rows, owners, records, k, root, i);
      RootFirst(rows, i);
    }
    forall i | root <= i <= last
      ensures rows[i].retryCount == i - root && rows[i].maxRetries == rows[root].maxRetries
    {
      GateProofs.OwnerIsRoot(c, rows, owners, records, k, root, i);
      RootFirst(rows, i);
    }
    assert RowOk(rows[last]);
  }

  lemma RootFirst(rows: seq<Row>, i: nat)
    requires ChainsOk(rows) && i < |rows|
    ensures RootOf(rows, i) <= i
    ensures rows[i].retryCount == i - RootOf(rows, i) && rows[i].maxRetries == rows[RootOf(rows, i)].maxRetries
  {
    if rows[i].root.Some? {
      assert RetryOk(rows, i);
    }
  }

  /**
    The chain of a record: consecutive ids from its root, retry counts 0, 1, 2, ..., one transfer
    throughout, at most maxRetries + 1 rows, all but the last failed, and the row that the processor
    reads as current is the last one; if that row has failed there are no retries left.
  */
  lemma ChainShape(c: Config, s: State, k: nat, root: nat)
    requires Reachable(c, s) && k < |s.records| && s.records[k].txId == Some(root)
    ensures root < |s.rows| && |s.owners| == |s.rows| && ChainShaped(c, s.rows, s.owners, s.records[k], k, root)
  {
    ReachableInv(c, s);
    ChainShapeOf(c, s.rows, s.owners, s.records, k, root);
  }

  /**
    The pending loop never spins on a lost chain. A failed or cancelled row that it holds is either the
    record's last row, and then this look at it fails the record, or an older one whose successor the next
    read of the chain, now that the root has failed, finds instead; there are at most maxRetries of those.
  */
  lemma LostRowEndsWaiting(c: Config, s: State, rootCopy: Row, s': State)
    requires Reachable(c, s) && ProcPoll(s, rootCopy) == Some(s')
    requires s.proc.held.value.row.status.Failed? || s.proc.held.value.row.status.Cancelled?
    ensures s.proc.k < |s.records| && s.records[s.proc.k].txId.Some? && s.records[s.proc.k].txId.value < |s.rows|
    ensures s.proc.k < |s'.records|
    ensures FailsOrMovesOn(s, s', s.records[s.proc.k].txId.value)
  {
    ReachableInv(c, s);
    PolledIsStored(c, s);
    ChainShapeOf(c, s.rows, s.owners, s.records, s.proc.k, s.records[s.proc.k].txId.value);
    LostRowDecides(c, s, rootCopy, s', s.records[s.proc.k].txId.value);
  }

  /** The last row fails the record; after an earlier one the next read of the chain finds the last. */
  ghost predicate FailsOrMovesOn(s: State, s': State, root: nat)
    requires s.proc.Poll? && s.proc.held.Some? && root < |s.rows| && s.proc.k < |s'.records|
  {
    var last := CurrentId(s.rows, root);
    && last < |s.rows| && s'.proc.Top?
    && (s.proc.held.value.id == last ==> s'.records[s.proc.k].status.WFailed?)
    && (s.proc.held.value.id != last ==>
          && s'.proc.rec.status.WPending? && s.proc.held.value.id < last
          && ReadCurrent(s.rows, root, s.rows[root]) == Held(last, s.rows[last]))
  }

  /** A terminal row in memory is the stored one, and belongs to the record. */
  lemma PolledIsStored(c: Config, s: State)
    requires OwnedOk(c, s.rows, s.owners, s.records) && ProcRecordOk(c, s.records, s.proc) && s.proc.Poll?
    requires s.proc.held.Some?
    requires ProcPlaceOk(c, s.rows, s.owners, s.records, s.history, s.now, s.proc) && Terminal(s.proc.held.value.row)
    ensures s.proc.rec == s.records[s.proc.k] && s.proc.rec.txId.Some? && s.proc.rec.status.WPending?
    ensures var held := s.proc.held.value;
            held.id < |s.rows| && held.row == s.rows[held.id]
            && s.owners[held.id] == s.proc.k
  {
  }

  lemma LostRowDecides(c: Config, s: State, rootCopy: Row, s': State, root: nat)
    requires ProcPoll(s, rootCopy) == Some(s') && root < |s.rows| && |s.owners| == |s.rows|
    requires s.proc.rec.status.WPending?
    requires s.proc.rec == s.records[s.proc.k]
    requires ChainShaped(c, s.rows, s.owners, s.records[s.proc.k], s.proc.k, root)
    requires var held := s.proc.held.value; held.row == s.rows[held.id] && s.owners[held.id] == s.proc.k
    requires s.proc.held.value.row.status.Failed? || s.proc.held.value.row.status.Cancelled?
    ensures s.proc.k < |s'.records| && FailsOrMovesOn(s, s', root)
  {
  }
}
