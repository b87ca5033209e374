/**
  A failed record has nothing left that could pay it. The one step that could break this, the answer to a
  refused authorisation, concerns historical records only: what the wallet itself has let through is never
  refused again. Whether it does break it in some run is decided by the database the run starts from.
*/
module FailedRecords {
  import opened Wrappers
  import opened Transactions
  import opened Chains
  import opened RelayLedger
  import opened Protocol
  import opened Invariants
  import opened Evolution
  import opened ProcessorProofs
  import opened Theorems
  import opened SampleRun
  import Balances

  // ---------------------------------------------------------------- when a record fails

  predicate LostRow(r: Row) {
    r.status.Failed? || r.status.Cancelled?
  }

  /** No attempt of record `k` can pay any more. */
  ghost predicate ChainLost(rows: seq<Row>, owners: seq<nat>, k: nat)
    requires |owners| == |rows|
  {
    forall i :: 0 <= i < |rows| && owners[i] == k ==> LostRow(rows[i])
  }

  ghost predicate Fails(s: State, s': State, k: nat) {
    k < |s.records| && s.records[k].status.WPending? && k < |s'.records| && s'.records[k].status.WFailed?
  }

  lemma EnvFailsNone(c: Config, s: State, a: EnvStep, s': State, k: nat)
    requires EnvNext(c, s, a) == Some(s') && k < |s.records|
    ensures k < |s'.records| && s'.records[k] == s.records[k]
  {
  }

  /** Only these four steps fail a record, and none of them touches a row. */
  ghost predicate FailedBy(s: State, a: ProcStep, s': State, k: nat) {
    && (a.NotAuthorized? || a.GateCheck? || a.PollRow? || a.Revoked?)
    && !s.proc.Resting? && s.proc.k == k && s'.rows == s.rows && s'.owners == s.owners
    && k < |s.records| && s.proc.rec == s.records[k]
    && (a.NotAuthorized? || a.GateCheck? ==> s.records[k].txId.None?)
    && (a.PollRow? || a.Revoked? ==> s.records[k].txId.Some?)
    && (a.Revoked? ==> s.proc.Revoking?)
    && (a.PollRow? ==>
          && s.proc.Poll? && s.proc.held.Some?
          && var r := s.proc.held.value.row; r.status.Cancelled? || (r.status.Failed? && r.retryCount >= r.maxRetries))
  }

  lemma QuietDecision(c: Config, s: State, a: ProcStep, s': State)
    requires ProcNext(c, s, a) == Some(s') && Decides(a)
    requires !a.NotAuthorized? && !a.GateCheck? && !a.PollRow? && !a.Revoked?
    ensures s'.records == s.records
  {
    if a.Again? || a.Enter? || a.TopOf? || a.LoadRow? || a.LoseDebit? || a.LookUp? || a.LoseAttach? {
      MoveKeepsRecords(c, s, a, s');
    } else {
      GateKeepsRecords(c, s, a, s');
    }
  }

  lemma MoveKeepsRecords(c: Config, s: State, a: ProcStep, s': State)
    requires ProcNext(c, s, a) == Some(s')
    requires a.Again? || a.Enter? || a.TopOf? || a.LoadRow? || a.LoseDebit? || a.LookUp? || a.LoseAttach?
    ensures s'.records == s.records
  {
    if a.TopOf? || a.LoadRow? || a.Enter? {
      ReadKeepsRecords(c, s, a, s');
    }
  }

  lemma ReadKeepsRecords(c: Config, s: State, a: ProcStep, s': State)
    requires ProcNext(c, s, a) == Some(s') && (a.TopOf? || a.LoadRow? || a.Enter?)
    ensures s'.records == s.records
  {
  }

  lemma GateKeepsRecords(c: Config, s: State, a: ProcStep, s': State)
    requires ProcNext(c, s, a) == Some(s')
    requires a.FinishRecord? || a.CheckReject? || a.HandleTimeout? || a.Revoke? || a.CancelTimeout? || a.SettleTimeout?
    ensures s'.records == s.records
  {
    match a
    case FinishRecord(rootCopy) => FinishKeepsRecords(s, rootCopy, s');
    case CheckReject(rootCopy) => CheckKeepsRecords(s, rootCopy, s');
    case HandleTimeout(rootCopy) => TimeoutKeepsRecords(s, rootCopy, s');
    case Revoke(reason) => RequestKeepsRecords(s, reason, s');
    case CancelTimeout(reason) => RequestKeepsRecords(s, reason, s');
    case SettleTimeout => SettleKeepsRecords(s, s');
  }

  lemma FinishKeepsRecords(s: State, rootCopy: Row, s': State)
    requires ProcFinish(s, rootCopy) == Some(s')
    ensures s'.records == s.records
  {
  }

  lemma CheckKeepsRecords(s: State, rootCopy: Row, s': State)
    requires ProcRejectCheck(s, rootCopy) == Some(s')
    ensures s'.records == s.records
  {
  }

  lemma TimeoutKeepsRecords(s: State, rootCopy: Row, s': State)
    requires ProcTimeout(s, rootCopy) == Some(s')
    ensures s'.records == s.records
  {
  }

  lemma RequestKeepsRecords(s: State, reason: string, s': State)
    requires ProcRevoke(s, reason) == Some(s') || ProcTimeoutCancel(s, reason) == Some(s')
    ensures s'.records == s.records
  {
  }

  lemma SettleKeepsRecords(s: State, s': State)
    requires ProcTimeoutSettle(s) == Some(s')
    ensures s'.records == s.records
  {
  }

  lemma PollFails(c: Config, s: State, rootCopy: Row, s': State, k: nat)
    requires Working(c, s) && ProcPoll(s, rootCopy) == Some(s') && Fails(s, s', k)
    ensures FailedBy(s, PollRow(rootCopy), s', k)
  {
    PollWrites(s, rootCopy, s');
  }

  lemma PollWrites(s: State, rootCopy: Row, s': State)
    requires ProcPoll(s, rootCopy) == Some(s') && s'.records != s.records
    ensures s.proc.Poll? && s.proc.held.Some? && s.proc.k < |s.records|
    ensures s'.rows == s.rows && s'.owners == s.owners && s'.records == SetStatus(s.records, s.proc.k, WFailed)
    ensures var r := s.proc.held.value.row; r.status.Cancelled? || (r.status.Failed? && r.retryCount >= r.maxRetries)
  {
  }

  lemma RevokedFails(c: Config, s: State, s': State, k: nat)
    requires Working(c, s) && ProcRevoked(s) == Some(s') && Fails(s, s', k)
    ensures FailedBy(s, Revoked, s', k)
  {
    RevokedWrites(s, s');
  }

  lemma RevokedWrites(s: State, s': State)
    requires ProcRevoked(s) == Some(s') && s'.records != s.records
    ensures s.proc.Revoking? && s.proc.k < |s.records|
    ensures s'.rows == s.rows && s'.owners == s.owners && s'.records == SetStatus(s.records, s.proc.k, WFailed)
  {
  }

  lemma UnattachedFails(c: Config, s: State, a: ProcStep, s': State, k: nat)
    requires Working(c, s) && ProcNext(c, s, a) == Some(s') && (a.NotAuthorized? || a.GateCheck?) && Fails(s, s', k)
    ensures FailedBy(s, a, s', k)
  {
    UnattachedWrites(c, s, a, s');
  }

  lemma UnattachedWrites(c: Config, s: State, a: ProcStep, s': State)
    requires ProcNext(c, s, a) == Some(s') && (a.NotAuthorized? || a.GateCheck?) && s'.records != s.records
    ensures (s.proc.Authorize? && s.proc.rec.txId.None?) || s.proc.Gate?
    ensures s.proc.k < |s.records| && s'.rows == s.rows && s'.owners == s.owners
    ensures s'.records == SetStatus(s.records, s.proc.k, WFailed)
  {
  }

  lemma DecisionFails(c: Config, s: State, a: ProcStep, s': State, k: nat)
    requires Working(c, s) && ProcNext(c, s, a) == Some(s') && Decides(a) && Fails(s, s', k)
    ensures FailedBy(s, a, s', k)
  {
    if a.PollRow? {
      PollFails(c, s, a.rootCopy, s', k);
    } else if a.Revoked? {
      RevokedFails(c, s, s', k);
    } else if a.NotAuthorized? || a.GateCheck? {
      UnattachedFails(c, s, a, s', k);
    } else {
      QuietDecision(c, s, a, s');
    }
  }

  lemma WriteFailsNone(c: Config, s: State, a: ProcStep, s': State, k: nat)
    requires ProcNext(c, s, a) == Some(s') && !Decides(a) && k < |s.records|
    requires s.proc.Attach? ==> Working(c, s)
    ensures k < |s'.records| && (s'.records[k].status == s.records[k].status || !s'.records[k].status.WFailed?)
  {
  }

  lemma ProcFails(c: Config, s: State, a: ProcStep, s': State, k: nat)
    requires (s.proc.Resting? || Working(c, s)) && ProcNext(c, s, a) == Some(s') && Fails(s, s', k)
    ensures FailedBy(s, a, s', k)
  {
    if Decides(a) {
      DecidesInRecord(c, s, a);
      DecisionFails(c, s, a, s', k);
    } else {
      WriteFailsNone(c, s, a, s', k);
    }
  }

  lemma StepFails(c: Config, s: State, step: Step, s': State, k: nat)
    requires Inv(c, s) && Next(c, s, step) == Some(s') && Fails(s, s', k)
    ensures step.ProcMoves? && FailedBy(s, step.proc, s', k)
  {
    match step
    case EnvMoves(a) => EnvFailsNone(c, s, a, s', k);
    case SenderMoves(a) => Balances.SenderBooks(c, s, a, s');
    case JobMoves(j, a) => JobTouches(c, s, j, a, s');
    case ProcMoves(a) => ProcFails(c, s, a, s', k);
  }

  lemma PolledChainLost(c: Config, rows: seq<Row>, owners: seq<nat>, records: seq<Record>, k: nat, held: Held)
    requires TableOk(rows) && OwnedOk(c, rows, owners, records) && k < |records| && records[k].txId.Some?
    requires HeldOk(rows, owners, k, Some(held))
    requires held.row.status.Cancelled? || (held.row.status.Failed? && held.row.retryCount >= held.row.maxRetries)
    ensures ChainLost(rows, owners, k)
  {
    var root := records[k].txId.value;
    ChainShapeOf(c, rows, owners, records, k, root);
    assert held.row == rows[held.id] && root <= held.id <= CurrentId(rows, root);
    assert held.id == CurrentId(rows, root);
  }

  lemma UnattachedHasNoRows(c: Config, rows: seq<Row>, owners: seq<nat>, records: seq<Record>, k: nat)
    requires OwnedOk(c, rows, owners, records) && k < |records| && records[k].txId.None?
    ensures ChainLost(rows, owners, k)
  {
    assert forall i :: 0 <= i < |rows| ==> records[owners[i]].txId.Some?;
  }

  lemma ChainLostIffLast(c: Config, rows: seq<Row>, owners: seq<nat>, records: seq<Record>, k: nat)
    requires TableOk(rows) && OwnedOk(c, rows, owners, records) && k < |records| && records[k].txId.Some?
    ensures records[k].txId.value < |rows| && CurrentId(rows, records[k].txId.value) < |rows|
    ensures ChainLost(rows, owners, k) <==> LostRow(rows[CurrentId(rows, records[k].txId.value)])
  {
    ChainShapeOf(c, rows, owners, records, k, records[k].txId.value);
  }

  /**
    A step that fails a pending record leaves it with nothing that could still pay, with one exception: the
    answer to a refused authorisation, when the row it asked to cancel had meanwhile gone out and the stored
    current row is not lost. The exception is exactly that, and it is met by historical records only.
  */
  lemma FailsExactlyWhenLost(c: Config, s: State, step: Step, s': State, k: nat)
    requires Reachable(c, s) && Next(c, s, step) == Some(s') && Fails(s, s', k)
    ensures |s'.owners| == |s'.rows|
    ensures step == ProcMoves(Revoked) ==> k in s.history.legacy && HasCurrent(s, k)
    ensures ChainLost(s'.rows, s'.owners, k) <==> (step == ProcMoves(Revoked) ==> LostRow(CurrentRow(s, k)))
  {
    ReachableInv(c, s);
    FailsWhenLost(c, s, step, s', k);
  }

  lemma FailsWhenLost(c: Config, s: State, step: Step, s': State, k: nat)
    requires Inv(c, s) && Next(c, s, step) == Some(s') && Fails(s, s', k)
    ensures |s'.owners| == |s'.rows|
    ensures step == ProcMoves(Revoked) ==> k in s.history.legacy && HasCurrent(s, k)
    ensures ChainLost(s'.rows, s'.owners, k) <==> (step == ProcMoves(Revoked) ==> LostRow(CurrentRow(s, k)))
  {
    StepFails(c, s, step, s', k);
    FailedChain(c, s, step.proc, s', k);
  }

  ghost predicate HasCurrent(s: State, k: nat) {
    && k < |s.records| && s.records[k].txId.Some? && s.records[k].txId.value < |s.rows|
    && CurrentId(s.rows, s.records[k].txId.value) < |s.rows|
  }

  /** The row that the record stands and falls with. */
  ghost function CurrentRow(s: State, k: nat): Row
    requires HasCurrent(s, k)
  {
    s.rows[CurrentId(s.rows, s.records[k].txId.value)]
  }

  lemma FailedChain(c: Config, s: State, a: ProcStep, s': State, k: nat)
    requires TableOk(s.rows) && OwnedOk(c, s.rows, s.owners, s.records) && FailedBy(s, a, s', k)
    requires s.records[k].status.WPending? && FingerprintsOk(c, s.records, s.history.legacy)
    requires ProcPlaceOk(c, s.rows, s.owners, s.records, s.history, s.now, s.proc)
    ensures a == Revoked ==> k in s.history.legacy && HasCurrent(s, k)
    ensures ChainLost(s'.rows, s'.owners, k) <==> (a == Revoked ==> LostRow(CurrentRow(s, k)))
  {
    if a.PollRow? {
      PolledChainLost(c, s.rows, s.owners, s.records, k, s.proc.held.value);
    } else if a.Revoked? {
      ChainLostIffLast(c, s.rows, s.owners, s.records, k);
    } else {
      UnattachedHasNoRows(c, s.rows, s.owners, s.records, k);
    }
  }

  // ---------------------------------------------------------------- over runs

  /** Every failed record has only rows that cannot pay, historical records aside. */
  ghost predicate FailedLost(s: State) {
    && |s.owners| == |s.rows|
    && forall k :: 0 <= k < |s.records| && s.records[k].status.WFailed? && k !in s.history.legacy
         ==> ChainLost(s.rows, s.owners, k)
  }

  /** A step adds no row, or one for a record that is pending, or for one that had a row in flight. */
  ghost predicate RowsGrow(s: State, s': State) {
    || (|s'.rows| == |s.rows| && s'.owners == s.owners)
    || (|s'.rows| == |s.rows| + 1 && |s'.owners| == |s'.rows| && s.owners == s'.owners[..|s.rows|]
        && var k := s'.owners[|s.rows|];
           || (k < |s'.records| && s'.records[k].status.WPending?)
           || (exists i :: 0 <= i < |s.rows| == |s.owners| && s.owners[i] == k && s.rows[i].status.Sent?))
  }

  lemma JobGrows(c: Config, s: State, j: nat, a: JobStep, s': State)
    requires |s.owners| == |s.rows| && JobNext(c, s, j, a) == Some(s')
    ensures RowsGrow(s, s')
  {
    if a.Fail? {
      FailGrows(c, s, j, a.message, s');
    }
  }

  lemma FailGrows(c: Config, s: State, j: nat, message: string, s': State)
    requires |s.owners| == |s.rows| && JobFail(c, s, j, message) == Some(s')
    ensures RowsGrow(s, s')
  {
    var id := s.jobs[j].id;
    if |s'.rows| != |s.rows| {
      assert s.owners[id] == s'.owners[|s.rows|] && s.rows[id].status.Sent?;
    }
  }

  lemma EnvGrows(c: Config, s: State, a: EnvStep, s': State)
    requires EnvNext(c, s, a) == Some(s')
    ensures RowsGrow(s, s')
  {
  }

  lemma DecidedGrows(c: Config, s: State, s': State)
    requires Decided(c, s, s')
    ensures RowsGrow(s, s')
  {
  }

  lemma AttachGrows(c: Config, s: State, s': State)
    requires Working(c, s) && ProcAttach(c, s) == Some(s')
    ensures RowsGrow(s, s')
  {
  }

  lemma OthersGrow(c: Config, s: State, a: ProcStep, s': State)
    requires ProcNext(c, s, a) == Some(s') && !a.AttachRow? && !Decides(a)
    ensures RowsGrow(s, s')
  {
  }

  lemma ProcGrows(c: Config, s: State, a: ProcStep, s': State)
    requires (s.proc.Resting? || Working(c, s)) && ProcNext(c, s, a) == Some(s')
    ensures RowsGrow(s, s')
  {
    if Decides(a) {
      DecidesInRecord(c, s, a);
      StepDecides(c, s, a, s');
      DecidedGrows(c, s, s');
    } else if a.AttachRow? {
      AttachGrows(c, s, s');
    } else {
      OthersGrow(c, s, a, s');
    }
  }

  lemma SenderGrows(c: Config, s: State, a: SenderStep, s': State)
    requires TableOk(s.rows) && CursorsOk(s.rows, s.cursors) && SenderOk(c, s.rows, s.chain.known, s.sender)
    requires SenderNext(c, s, a) == Some(s')
    ensures RowsGrow(s, s')
  {
    if a.Submit? {
      SubmitSends(c, s, a.reaches, a.acknowledged, s');
    } else {
      Evolution.SenderMoves(c, s, a, s');
    }
  }

  lemma StepGrows(c: Config, s: State, step: Step, s': State)
    requires Inv(c, s) && Next(c, s, step) == Some(s')
    ensures RowsGrow(s, s')
  {
    match step
    case EnvMoves(a) => EnvGrows(c, s, a, s');
    case SenderMoves(a) => SenderGrows(c, s, a, s');
    case JobMoves(j, a) => JobGrows(c, s, j, a, s');
    case ProcMoves(a) => ProcGrows(c, s, a, s');
  }

  lemma LostStaysLost(c: Config, s: State, s': State, k: nat)
    requires Later(c, s, s') && RowsGrow(s, s') && ChainLost(s.rows, s.owners, k)
    requires k < |s'.records| && !s'.records[k].status.WPending?
    ensures ChainLost(s'.rows, s'.owners, k)
  {
    forall i | 0 <= i < |s'.rows| && s'.owners[i] == k ensures LostRow(s'.rows[i]) {
      if i < |s.rows| {
        assert s.owners[i] == k && Evolves(s.rows[i], s'.rows[i]);
      }
    }
  }

  lemma NextKeepsFailedLost(c: Config, s: State, step: Step, s': State)
    requires Inv(c, s) && FailedLost(s) && Next(c, s, step) == Some(s')
    requires OwnedOk(c, s'.rows, s'.owners, s'.records)
    ensures FailedLost(s')
  {
    StepLater(c, s, step, s');
    forall k | 0 <= k < |s'.records| && s'.records[k].status.WFailed? && k !in s'.history.legacy
      ensures ChainLost(s'.rows, s'.owners, k)
    {
      KeepsLost(c, s, step, s', k);
    }
  }

  lemma KeepsLost(c: Config, s: State, step: Step, s': State, k: nat)
    requires Inv(c, s) && FailedLost(s) && Next(c, s, step) == Some(s') && Later(c, s, s')
    requires OwnedOk(c, s'.rows, s'.owners, s'.records)
    requires k < |s'.records| && s'.records[k].status.WFailed? && k !in s'.history.legacy
    ensures ChainLost(s'.rows, s'.owners, k)
  {
    if k >= |s.records| {
      AddedIsUnattached(c, s, step, s', k);
      UnattachedHasNoRows(c, s'.rows, s'.owners, s'.records, k);
    } else if s.records[k].status.WPending? {
      FailsWhenLost(c, s, step, s', k);
    } else {
      StepGrows(c, s, step, s');
      FailedStays(c, s, s', k);
    }
  }

  lemma FailedStays(c: Config, s: State, s': State, k: nat)
    requires FailedLost(s) && Later(c, s, s') && RowsGrow(s, s')
    requires k < |s.records| && !s.records[k].status.WPending?
    requires k < |s'.records| && s'.records[k].status.WFailed? && k !in s'.history.legacy
    ensures ChainLost(s'.rows, s'.owners, k)
  {
    assert RecordEvolves(s.records[k], s'.records[k]);
    LostStaysLost(c, s, s', k);
  }

  lemma EnvAddsUnattached(c: Config, s: State, a: EnvStep, s': State, k: nat)
    requires EnvNext(c, s, a) == Some(s') && |s.records| <= k < |s'.records|
    ensures s'.records[k].txId.None?
  {
  }

  lemma DecidedAddsNone(c: Config, s: State, s': State)
    requires Decided(c, s, s')
    ensures |s'.records| == |s.records|
  {
  }

  lemma OthersAddNone(c: Config, s: State, a: ProcStep, s': State)
    requires ProcNext(c, s, a) == Some(s') && !Decides(a)
    ensures |s'.records| == |s.records|
  {
  }

  lemma ProcAddsNone(c: Config, s: State, a: ProcStep, s': State)
    requires (s.proc.Resting? || Working(c, s)) && ProcNext(c, s, a) == Some(s')
    ensures |s'.records| == |s.records|
  {
    if Decides(a) {
      DecidesInRecord(c, s, a);
      StepDecides(c, s, a, s');
      DecidedAddsNone(c, s, s');
    } else {
      OthersAddNone(c, s, a, s');
    }
  }

  lemma AddedIsUnattached(c: Config, s: State, step: Step, s': State, k: nat)
    requires Inv(c, s) && Next(c, s, step) == Some(s') && |s.records| <= k < |s'.records|
    ensures s'.records[k].txId.None?
  {
    match step
    case EnvMoves(a) => EnvAddsUnattached(c, s, a, s', k);
    case SenderMoves(a) => Balances.SenderBooks(c, s, a, s');
    case JobMoves(j, a) => JobTouches(c, s, j, a, s');
    case ProcMoves(a) => ProcAddsNone(c, s, a, s');
  }

  lemma {:induction false} RunFailedLost(c: Config, states: seq<State>, steps: seq<Step>, n: nat)
    requires Run(c, states, steps) && n < |states|
    ensures FailedLost(states[n])
  {
    if n > 0 {
      RunFailedLost(c, states, steps, n - 1);
      RunInv(c, states, steps, n - 1);
      RunInv(c, states, steps, n);
      NextKeepsFailedLost(c, states[n - 1], steps[n - 1], states[n]);
    }
  }

  /**
    In every reachable state, every row of a failed record is Failed or Cancelled, unless the record had its
    transaction, but no clearance, before the run began.
  */
  lemma FailedMeansLost(c: Config, s: State, k: nat)
    requires Reachable(c, s) && k < |s.records| && s.records[k].status.WFailed?
    ensures |s.owners| == |s.rows| && (k in s.history.legacy || ChainLost(s.rows, s.owners, k))
  {
    var states, steps :| Run(c, states, steps) && states[|steps|] == s;
    RunFailedLost(c, states, steps, |steps|);
  }
}
