/** No retry is ever claimed, signed or sent before every earlier attempt has a proven on-chain failure. */
module RetryOrder {
  import opened Wrappers
  import opened Transactions
  import opened Chains
  import opened Protocol
  import opened Invariants
  import opened Theorems
  import opened ProcessorProofs
  import SenderProofs
  import Evolution

  /** The sender has claimed the row, or gone further with it. */
  predicate Started(r: Row) {
    r.status.Sending? || r.status.Broadcasting? || Acknowledged(r)
  }

  ghost predicate OrderOk(rows: seq<Row>) {
    forall i, j :: 0 <= j < i < |rows| && RootOf(rows, j) == RootOf(rows, i) && Started(rows[i]) ==>
        IsProvenOnChainFailure(rows[j])
  }

  /** A started row was started before, or is the one row `claimed` whose ancestors are proven. */
  ghost predicate StartsOnly(rows: seq<Row>, rows': seq<Row>, claimed: Option<nat>) {
    forall i :: 0 <= i < |rows'| && Started(rows'[i]) ==>
      i < |rows| && (Started(rows[i]) || (claimed == Some(i) && ClaimProven(rows, i)))
  }

  ghost predicate ClaimProven(rows: seq<Row>, i: nat) {
    i < |rows| && (rows[i].root.Some? ==> AncestorsProven(rows, i, rows[i].root.value))
  }

  lemma StepKeepsOrder(rows: seq<Row>, rows': seq<Row>, claimed: Option<nat>)
    requires OrderOk(rows) && ChainsOk(rows) && RowsAdvance(rows, rows') && StartsOnly(rows, rows', claimed)
    ensures OrderOk(rows')
  {
    forall i, j | 0 <= j < i < |rows'| && RootOf(rows', j) == RootOf(rows', i) && Started(rows'[i])
      ensures IsProvenOnChainFailure(rows'[j])
    {
      assert Evolves(rows[i], rows'[i]) && Evolves(rows[j], rows'[j]);
      if !Started(rows[i]) {
        AncestorIsProven(rows, i, j);
      }
    }
  }

  lemma AncestorIsProven(rows: seq<Row>, i: nat, j: nat)
    requires ChainsOk(rows) && j < i < |rows| && RootOf(rows, j) == RootOf(rows, i) && ClaimProven(rows, i)
    ensures IsProvenOnChainFailure(rows[j])
  {
    if rows[i].root.None? && rows[j].root.Some? {
      assert RetryOk(rows, j);
    }
  }

  // ---------------------------------------------------------------- what each actor starts

  lemma ClaimStarts(c: Config, s: State, s': State)
    requires SenderOk(c, s.rows, s.chain.known, s.sender) && SenderClaim(s) == Some(s')
    ensures s.sender.Checked? && StartsOnly(s.rows, s'.rows, Some(s.sender.id))
  {
  }

  lemma SenderStarts(c: Config, s: State, a: SenderStep, s': State)
    requires TableOk(s.rows) && CursorsOk(s.rows, s.cursors) && SenderOk(c, s.rows, s.chain.known, s.sender)
    requires SenderNext(c, s, a) == Some(s')
    ensures exists claimed :: StartsOnly(s.rows, s'.rows, claimed)
  {
    match a
    case Claim =>
      ClaimStarts(c, s, s');
    case Prepare =>
      PrepareStarts(s, s');
    case Acknowledge =>
      AcknowledgeStarts(s, s');
    case Release(message) =>
      ReleaseStarts(s, message, s');
    case Submit(_, _) =>
      assert StartsOnly(s.rows, s'.rows, None);
    case TakeNonce(_) =>
      assert StartsOnly(s.rows, s'.rows, None);
    case _ =>
      SenderProofs.SenderMoveFacts(c, s, a);
      assert StartsOnly(s.rows, s'.rows, None);
  }

  lemma PrepareStarts(s: State, s': State)
    requires SenderPrepare(s) == Some(s')
    ensures StartsOnly(s.rows, s'.rows, None)
  {
  }

  lemma AcknowledgeStarts(s: State, s': State)
    requires SenderAcknowledge(s) == Some(s')
    ensures StartsOnly(s.rows, s'.rows, None)
  {
  }

  lemma ReleaseStarts(s: State, message: string, s': State)
    requires SenderRelease(s, message) == Some(s')
    ensures StartsOnly(s.rows, s'.rows, None)
  {
  }

  lemma FailStarts(c: Config, s: State, j: nat, message: string, s': State)
    requires JobFail(c, s, j, message) == Some(s')
    ensures StartsOnly(s.rows, s'.rows, None)
  {
  }

  lemma ConfirmStarts(c: Config, s: State, j: nat, s': State)
    requires JobConfirm(c, s, j) == Some(s') || JobDelay(s, j) == Some(s')
    ensures StartsOnly(s.rows, s'.rows, None)
  {
  }

  lemma JobStarts(c: Config, s: State, j: nat, a: JobStep, s': State)
    requires JobNext(c, s, j, a) == Some(s')
    ensures StartsOnly(s.rows, s'.rows, None)
  {
    match a
    case Confirm => ConfirmStarts(c, s, j, s');
    case Delay => ConfirmStarts(c, s, j, s');
    case Fail(message) => FailStarts(c, s, j, message, s');
    case _ => assert s'.rows == s.rows;
  }

  lemma EnvStarts(c: Config, s: State, a: EnvStep, s': State)
    requires EnvNext(c, s, a) == Some(s')
    ensures StartsOnly(s.rows, s'.rows, None)
  {
    if a.BootUp? {
      assert forall i :: 0 <= i < |s.rows| ==> s'.rows[i] == RecoverRow(s.rows[i]);
    } else {
      assert s'.rows == s.rows;
    }
  }

  lemma DecidedStarts(c: Config, s: State, s': State)
    requires Decided(c, s, s')
    ensures StartsOnly(s.rows, s'.rows, None)
  {
  }

  lemma AttachStarts(c: Config, s: State, s': State)
    requires ProcAttach(c, s) == Some(s')
    ensures StartsOnly(s.rows, s'.rows, None)
  {
  }

  lemma ProcStarts(c: Config, s: State, a: ProcStep, s': State)
    requires s.proc.Resting? || Working(c, s)
    requires ProcNext(c, s, a) == Some(s')
    ensures StartsOnly(s.rows, s'.rows, None)
  {
    if a.AttachRow? {
      AttachStarts(c, s, s');
    } else if Decides(a) {
      StepDecides(c, s, a, s');
      DecidedStarts(c, s, s');
    } else {
      OthersKeepRows(c, s, a, s');
    }
  }

  lemma OthersKeepRows(c: Config, s: State, a: ProcStep, s': State)
    requires ProcNext(c, s, a) == Some(s') && !a.AttachRow? && !Decides(a)
    ensures s'.rows == s.rows
  {
  }

  lemma StepStarts(c: Config, s: State, step: Step, s': State)
    requires Inv(c, s) && Next(c, s, step) == Some(s')
    ensures exists claimed :: StartsOnly(s.rows, s'.rows, claimed)
  {
    match step
    case EnvMoves(a) => EnvStarts(c, s, a, s');
    case SenderMoves(a) => SenderStarts(c, s, a, s');
    case JobMoves(j, a) => JobStarts(c, s, j, a, s');
    case ProcMoves(a) => ProcStarts(c, s, a, s');
  }

  // ---------------------------------------------------------------- over runs

  lemma {:induction false} RunKeepsOrder(c: Config, states: seq<State>, steps: seq<Step>, n: nat)
    requires Run(c, states, steps) && n < |states|
    ensures OrderOk(states[n].rows)
  {
    if n > 0 {
      RunKeepsOrder(c, states, steps, n - 1);
      RunInv(c, states, steps, n - 1);
      NextKeepsOrder(c, states[n - 1], steps[n - 1], states[n]);
    }
  }

  lemma NextKeepsOrder(c: Config, s: State, step: Step, s': State)
    requires Inv(c, s) && OrderOk(s.rows) && Next(c, s, step) == Some(s')
    ensures OrderOk(s'.rows)
  {
    Evolution.StepLater(c, s, step, s');
    StepStarts(c, s, step, s');
    var claimed :| StartsOnly(s.rows, s'.rows, claimed);
    StepKeepsOrder(s.rows, s'.rows, claimed);
  }

  /** In every reachable state: once a retry has been claimed, every earlier attempt of it is a proven failure. */
  lemma RetriesWaitForProof(c: Config, s: State, i: nat, j: nat)
    requires Reachable(c, s) && j < i < |s.rows| && RootOf(s.rows, j) == RootOf(s.rows, i) && Started(s.rows[i])
    ensures IsProvenOnChainFailure(s.rows[j])
  {
    var states, steps :| Run(c, states, steps) && states[|steps|] == s;
    RunKeepsOrder(c, states, steps, |steps|);
  }
}
