/**
  When a payout is settled, in blocks: a row is confirmed or failed exactly once its receipt lies as many blocks
  below the head as its network is configured to wait, and until then the receipt may be reorganised away.
*/
module Finality {
  import opened Wrappers
  import opened Transactions
  import opened Protocol
  import opened Invariants
  import opened ProcessorProofs
  import opened Theorems
  import SenderProofs
  import ConfirmerProofs
  import RetryOrder

  // ---------------------------------------------------------------- which step settles a row

  predicate IsSettled(r: Row) {
    r.status.Confirmed? || r.status.Failed?
  }

  /** No row of `rows'` is settled that was not settled in `rows`. */
  ghost predicate SettlesNone(rows: seq<Row>, rows': seq<Row>) {
    forall i :: 0 <= i < |rows'| && IsSettled(rows'[i]) ==> i < |rows| && IsSettled(rows[i])
  }

  lemma SenderWriteSettlesNone(s: State, message: string, s': State)
    requires SenderClaim(s) == Some(s') || SenderAcknowledge(s) == Some(s') || SenderRelease(s, message) == Some(s')
    ensures SettlesNone(s.rows, s'.rows)
  {
  }

  lemma PrepareSettlesNone(s: State, s': State)
    requires SenderPrepare(s) == Some(s')
    ensures SettlesNone(s.rows, s'.rows)
  {
  }

  lemma SenderSettlesNone(c: Config, s: State, a: SenderStep, s': State)
    requires TableOk(s.rows) && CursorsOk(s.rows, s.cursors) && SenderOk(c, s.rows, s.chain.known, s.sender)
    requires SenderNext(c, s, a) == Some(s')
    ensures SettlesNone(s.rows, s'.rows)
  {
    match a
    case Claim => SenderWriteSettlesNone(s, "", s');
    case Acknowledge => SenderWriteSettlesNone(s, "", s');
    case Release(message) => SenderWriteSettlesNone(s, message, s');
    case Prepare => PrepareSettlesNone(s, s');
    case Submit(_, _) => assert s'.rows == s.rows;
    case TakeNonce(_) => assert s'.rows == s.rows;
    case _ => SenderProofs.SenderMoveFacts(c, s, a);
  }

  lemma EnvSettlesNone(c: Config, s: State, a: EnvStep, s': State)
    requires EnvNext(c, s, a) == Some(s')
    ensures SettlesNone(s.rows, s'.rows)
  {
    if a.BootUp? {
      assert forall i :: 0 <= i < |s.rows| ==> s'.rows[i] == RecoverRow(s.rows[i]);
    } else {
      assert s'.rows == s.rows;
    }
  }

  lemma DecidedSettlesNone(c: Config, s: State, s': State)
    requires Decided(c, s, s')
    ensures SettlesNone(s.rows, s'.rows)
  {
  }

  lemma AttachSettlesNone(c: Config, s: State, s': State)
    requires ProcAttach(c, s) == Some(s')
    ensures SettlesNone(s.rows, s'.rows)
  {
  }

  lemma ProcSettlesNone(c: Config, s: State, a: ProcStep, s': State)
    requires s.proc.Resting? || Working(c, s)
    requires ProcNext(c, s, a) == Some(s')
    ensures SettlesNone(s.rows, s'.rows)
  {
    if a.AttachRow? {
      AttachSettlesNone(c, s, s');
    } else if Decides(a) {
      StepDecides(c, s, a, s');
      DecidedSettlesNone(c, s, s');
    } else {
      RetryOrder.OthersKeepRows(c, s, a, s');
    }
  }

  // ---------------------------------------------------------------- settled rows are deep

  /** The head that `s` shows is far enough above the block of the settled row `r`, whose receipt it holds. */
  ghost predicate SettledDeep(c: Config, s: State, r: Row) {
    var network := r.order.network;
    && r.blockNumber.Some? && r.txHash.Some? && DeepEnough(c, s.chain, network, r.blockNumber.value)
    && (!c.receiptsMayVanish ==>
          var key := TxKey(network, r.txHash.value);
          key in s.chain.receipts && s.chain.receipts[key] == Receipt(r.status.Confirmed?, r.blockNumber.value))
  }

  lemma DeepRowSettles(c: Config, s: State, j: nat, r: Row)
    requires AllRowsOk(s.rows) && JobsOk(c, s.rows, s.chain, s.jobs) && ChainOk(c, s.rows, s.chain)
    requires DeepReceipt(c, s, j) && r.order == s.rows[s.jobs[j].id].order && r.txHash == s.rows[s.jobs[j].id].txHash
    requires r.blockNumber == Some(s.jobs[j].receipt.value.block) && r.status.Confirmed? == s.jobs[j].receipt.value.ok
    ensures SettledDeep(c, s, r)
  {
    ConfirmerProofs.DeepIsFinal(c, s, j);
    assert JobOk(c, s.rows, s.chain, s.jobs[j]);
  }

  lemma ConfirmSettles(c: Config, s: State, j: nat, s': State, i: nat)
    requires JobConfirm(c, s, j) == Some(s') && i < |s.rows| && !IsSettled(s.rows[i]) && IsSettled(s'.rows[i])
    ensures DeepReceipt(c, s, j) && s.jobs[j].id == i && s.rows[i].status.Sent? && s.jobs[j].receipt.value.ok
    ensures s'.rows[i] == s.rows[i].(status := Confirmed, blockNumber := Some(s.jobs[j].receipt.value.block))
  {
  }

  lemma FailSettles(c: Config, s: State, j: nat, message: string, s': State, i: nat)
    requires JobFail(c, s, j, message) == Some(s') && i < |s'.rows| && IsSettled(s'.rows[i])
    requires i < |s.rows| ==> !IsSettled(s.rows[i])
    ensures i < |s.rows| && DeepReceipt(c, s, j) && s.jobs[j].id == i && s.rows[i].status.Sent?
    ensures !s.jobs[j].receipt.value.ok
    ensures s'.rows[i] == s.rows[i].(status := Failed, blockNumber := Some(s.jobs[j].receipt.value.block),
                                     statusMessage := Some(message))
  {
  }

  lemma OtherJobSettlesNone(c: Config, s: State, j: nat, a: JobStep, s': State)
    requires JobNext(c, s, j, a) == Some(s') && !a.Confirm? && !a.Fail?
    ensures SettlesNone(s.rows, s'.rows)
  {
  }

  lemma JobSettles(c: Config, s: State, j: nat, a: JobStep, s': State, i: nat)
    requires AllRowsOk(s.rows) && JobsOk(c, s.rows, s.chain, s.jobs) && ChainOk(c, s.rows, s.chain)
    requires JobNext(c, s, j, a) == Some(s') && i < |s'.rows| && IsSettled(s'.rows[i])
    requires i < |s.rows| ==> !IsSettled(s.rows[i])
    ensures i < |s.rows| && s.rows[i].status.Sent? && SettledDeep(c, s, s'.rows[i])
  {
    match a
    case Confirm =>
      ConfirmSettles(c, s, j, s', i);
      DeepRowSettles(c, s, j, s'.rows[i]);
    case Fail(message) =>
      FailSettles(c, s, j, message, s', i);
      DeepRowSettles(c, s, j, s'.rows[i]);
    case _ =>
      OtherJobSettlesNone(c, s, j, a, s');
  }

  /** No step but a confirmer's settles a row. */
  lemma OnlyJobsSettle(c: Config, s: State, step: Step, s': State)
    requires Inv(c, s) && Next(c, s, step) == Some(s') && !step.JobMoves?
    ensures SettlesNone(s.rows, s'.rows)
  {
    match step
    case EnvMoves(a) => EnvSettlesNone(c, s, a, s');
    case SenderMoves(a) => SenderSettlesNone(c, s, a, s');
    case ProcMoves(a) => ProcSettlesNone(c, s, a, s');
  }

  lemma StepSettles(c: Config, s: State, step: Step, s': State, i: nat)
    requires Inv(c, s) && Next(c, s, step) == Some(s') && i < |s'.rows| && IsSettled(s'.rows[i])
    requires i < |s.rows| ==> !IsSettled(s.rows[i])
    ensures i < |s.rows| && s.rows[i].status.Sent? && SettledDeep(c, s, s'.rows[i])
  {
    if step.JobMoves? {
      JobSettles(c, s, step.j, step.job, s', i);
    } else {
      OnlyJobsSettle(c, s, step, s');
    }
  }

  /**
    In every run, whichever step leaves a row confirmed or failed that was not so before finds it sent, and finds
    the head of its network at least the configured depth above the block of its receipt.
  */
  lemma SettledIsDeep(c: Config, states: seq<State>, steps: seq<Step>, n: nat, i: nat)
    requires Run(c, states, steps) && n < |steps| && i < |states[n + 1].rows|
    requires states[n + 1].rows[i].status.Confirmed? || states[n + 1].rows[i].status.Failed?
    requires i < |states[n].rows| ==> !states[n].rows[i].status.Confirmed? && !states[n].rows[i].status.Failed?
    ensures i < |states[n].rows| && states[n].rows[i].status.Sent?
    ensures SettledDeep(c, states[n], states[n + 1].rows[i])
  {
    RunInv(c, states, steps, n);
    StepSettles(c, states[n], steps[n], states[n + 1], i);
  }

  // ---------------------------------------------------------------- deep rows are settled, shallow ones are not

  /** What a confirmer's write makes of the row: settled as the receipt says if it was sent, and untouched otherwise. */
  ghost predicate SettledAs(before: Row, after: Row, receipt: Receipt) {
    if before.status.Sent? then
      && after.blockNumber == Some(receipt.block)
      && (receipt.ok ==> after.status.Confirmed?) && (!receipt.ok ==> after.status.Failed?)
    else after == before
  }

  /** The job's write for its receipt is possible exactly when that is deep enough, and the other write never is. */
  ghost predicate ActsWhenDeep(c: Config, s: State, j: nat, message: string)
    requires j in s.jobs && s.jobs[j].receipt.Some?
  {
    var job, receipt := s.jobs[j], s.jobs[j].receipt.value;
    var step, other := if receipt.ok then Confirm else Fail(message), if receipt.ok then Fail(message) else Confirm;
    && job.id < |s.rows|
    && (JobNext(c, s, j, step).Some? <==> DeepEnough(c, s.chain, job.copy.order.network, receipt.block))
    && JobNext(c, s, j, other).None?
    && (JobNext(c, s, j, step).Some? ==>
          var rows' := JobNext(c, s, j, step).value.rows;
          job.id < |rows'| && SettledAs(s.rows[job.id], rows'[job.id], receipt))
  }

  /**
    A confirmer that holds a receipt can settle its row exactly when the head is deep enough above the receipt,
    as confirmed when the receipt reports success and as failed when it does not.
  */
  lemma SettlesExactlyWhenDeep(c: Config, s: State, j: nat, message: string)
    requires Reachable(c, s) && j in s.jobs && s.jobs[j].receipt.Some?
    ensures ActsWhenDeep(c, s, j, message)
  {
    ReachableInv(c, s);
    JobActsWhenDeep(c, s, j, message);
  }

  lemma JobActsWhenDeep(c: Config, s: State, j: nat, message: string)
    requires AllRowsOk(s.rows) && JobsOk(c, s.rows, s.chain, s.jobs) && |s.owners| == |s.rows|
    requires j in s.jobs && s.jobs[j].receipt.Some?
    ensures ActsWhenDeep(c, s, j, message)
  {
    assert JobOk(c, s.rows, s.chain, s.jobs[j]) && RowOk(s.rows[s.jobs[j].id]);
  }

  /** Some confirmer has read this receipt and not yet acted on it. */
  ghost predicate Awaited(s: State, key: TxKey) {
    exists j :: j in s.jobs && s.jobs[j].receipt.Some? && s.jobs[j].copy.txHash == Some(key.hash)
                && s.jobs[j].copy.order.network == key.network
  }

  /**
    A receipt can be reorganised away exactly while it is not deep enough and, unless receipts may vanish from
    under a confirmer, none has read it; nothing but that receipt is lost.
  */
  lemma ShallowMayVanish(c: Config, s: State, key: TxKey)
    requires Reachable(c, s)
    ensures Next(c, s, EnvMoves(ReorgTx(key))).Some? <==>
            && key in s.chain.receipts && !Irrevocable(c, s.chain, key) && (c.receiptsMayVanish || !Awaited(s, key))
    ensures Next(c, s, EnvMoves(ReorgTx(key))).Some? ==>
              Next(c, s, EnvMoves(ReorgTx(key))).value
              == s.(chain := s.chain.(receipts := s.chain.receipts - {key}))
  {
    ReachableInv(c, s);
    ReorgsWhenShallow(c, s, key);
  }

  lemma ReorgsWhenShallow(c: Config, s: State, key: TxKey)
    requires ChainOk(c, s.rows, s.chain)
    ensures Reorg(c, s, key).Some? <==>
            && key in s.chain.receipts && !Irrevocable(c, s.chain, key) && (c.receiptsMayVanish || !Awaited(s, key))
    ensures Reorg(c, s, key).Some? ==>
              Reorg(c, s, key).value
              == s.(chain := s.chain.(receipts := s.chain.receipts - {key}))
  {
    if Awaited(s, key) {
      var j :| j in s.jobs && s.jobs[j].receipt.Some? && s.jobs[j].copy.txHash == Some(key.hash)
        && s.jobs[j].copy.order.network == key.network;
      assert KeyOf(s.jobs[j].copy) == key;
    }
  }
}
