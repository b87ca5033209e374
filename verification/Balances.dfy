/**
  The books: how every step moves the balance equation, and which steps alone put it out of balance.
*/
module Balances {
  import opened Wrappers
  import opened Transactions
  import opened RelayLedger
  import opened Protocol
  import opened Invariants
  import opened Evolution
  import opened EnvironmentProofs
  import opened ProcessorProofs
  import opened RecordProofs
  import opened Theorems
  import SenderProofs

  /** What the account of `a` holds beyond opening balance plus accepted logs minus debited withdrawals. */
  ghost function Imbalance(s: State, a: string): int {
    Balance(s.ledger.accounts, a) - Balance(s.opening, a) - SignedSum(s.accepted, a) + Debits(s.records, a)
  }

  ghost predicate Conserved(s: State) {
    forall a :: Imbalance(s, a) == 0
  }

  // ---------------------------------------------------------------- what a step does to the books

  ghost predicate SameMoney(s: State, s': State) {
    s'.ledger.accounts == s.ledger.accounts && s'.accepted == s.accepted && s'.opening == s.opening
  }

  ghost predicate Quiet(s: State, s': State) {
    SameMoney(s, s') && s'.records == s.records
  }

  /** The record being processed is rewritten, and counts as debited as much as before. */
  ghost predicate Rewritten(s: State, s': State) {
    && SameMoney(s, s') && !s.proc.Resting? && s.proc.k < |s.records| == |s'.records|
    && s'.records == s.records[s.proc.k := s'.records[s.proc.k]]
    && SameRequest(s.records[s.proc.k], s'.records[s.proc.k])
    && Debited(s'.records[s.proc.k]) == Debited(s.records[s.proc.k])
  }

  ghost predicate Added(s: State, s': State) {
    SameMoney(s, s') && exists r :: s'.records == s.records + [r] && !Debited(r)
  }

  ghost predicate Logged(c: Config, s: State, s': State, logs: seq<Log>) {
    && ApplyBatch(c.vestingSigner, s.now, s.ledger, logs).Ok?
    && s'.ledger.accounts == ApplyBatch(c.vestingSigner, s.now, s.ledger, logs).value.accounts
    && s'.accepted == s.accepted + logs && s'.records == s.records && s'.opening == s.opening
  }

  /** The debit transaction commits: the total leaves the account and the record becomes successful. */
  ghost predicate Debiting(s: State, step: Step, s': State) {
    && step == ProcMoves(DebitAccount) && s.proc.Debit? && !s'.proc.Resting? && s.proc.k < |s.records|
    && s.records[s.proc.k].status.WPending? && s'.records == SetStatus(s.records, s.proc.k, WSuccess)
    && s'.accepted == s.accepted && s'.opening == s.opening
    && var r := s.records[s.proc.k];
       var a := r.request.address;
       && a in s.ledger.accounts
       && s'.ledger.accounts == s.ledger.accounts[a := s.ledger.accounts[a] - (r.request.amount + r.fee)]
  }

  /** A record is finished that is stored as pending: its debit was lost. */
  ghost predicate Unbooked(s: State, step: Step) {
    && step == ProcMoves(WriteFinished) && s.proc.FulfillWrite? && s.proc.k < |s.records|
    && s.records[s.proc.k].status.WPending?
  }

  ghost predicate Unbooking(s: State, step: Step, s': State) {
    SameMoney(s, s') && Unbooked(s, step) && s'.records == SetStatus(s.records, s.proc.k, WFinished)
  }

  ghost predicate BooksMove(c: Config, s: State, step: Step, s': State) {
    || Quiet(s, s') || Rewritten(s, s') || Added(s, s') || (exists logs :: Logged(c, s, s', logs))
    || Debiting(s, step, s') || Unbooking(s, step, s')
  }

  lemma EnvBooks(c: Config, s: State, a: EnvStep, s': State)
    requires EnvNext(c, s, a) == Some(s')
    ensures BooksMove(c, s, EnvMoves(a), s')
  {
    if a.Logs? && ApplyBatch(c.vestingSigner, s.now, s.ledger, a.logs).Ok? {
      assert Logged(c, s, s', a.logs);
    } else if a.NewRecord? && !Conflicts(s.records, a.r) {
      assert Added(s, s');
    } else {
      assert Quiet(s, s');
    }
  }

  lemma SenderBooks(c: Config, s: State, a: SenderStep, s': State)
    requires TableOk(s.rows) && CursorsOk(s.rows, s.cursors) && SenderOk(c, s.rows, s.chain.known, s.sender)
    requires SenderNext(c, s, a) == Some(s')
    ensures Quiet(s, s')
  {
    if a.Submit? {
      SubmitSends(c, s, a.reaches, a.acknowledged, s');
    } else {
      Evolution.SenderMoves(c, s, a, s');
    }
  }

  lemma DecidedBooks(c: Config, s: State, s': State)
    requires Working(c, s) && Decided(c, s, s')
    ensures Quiet(s, s') || Rewritten(s, s')
  {
    if MarkedFailed(s, s') {
      FailedBooks(c, s, s');
    }
  }

  lemma FailedBooks(c: Config, s: State, s': State)
    requires ProcRecordOk(c, s.records, s.proc) && MarkedFailed(s, s')
    ensures Rewritten(s, s')
  {
    assert s.proc.rec == s.records[s.proc.k];
  }

  lemma LoopBooks(c: Config, s: State, a: ProcStep, s': State)
    requires ProcNext(c, s, a) == Some(s') && (a.FetchBatch? || a.Begin? || a.NextRecord? || a.Stop?)
    ensures Quiet(s, s')
  {
  }

  lemma DebitBooks(c: Config, s: State, s': State)
    requires Working(c, s) && ProcDebit(s) == Some(s')
    ensures Quiet(s, s') || Debiting(s, ProcMoves(DebitAccount), s')
  {
    DebitTouches(s, s');
    if s'.proc.Resting? {
      assert s' == ProcStop(s).value;
    } else {
      DebitPlace(c, s, s');
    }
  }

  lemma WriteFinishedBooks(c: Config, s: State, s': State)
    requires Working(c, s) && ProcFulfillWrite(s) == Some(s')
    ensures Rewritten(s, s') || Unbooking(s, ProcMoves(WriteFinished), s')
  {
  }

  lemma AuthorizedBooks(c: Config, s: State, s': State)
    requires Working(c, s) && ProcAuthorized(c, s) == Some(s')
    ensures Quiet(s, s') || Rewritten(s, s')
  {
    if s.proc.rec.fingerprint.None? {
      StampFacts(c, s, s');
      assert Rewritten(s, s');
    }
  }

  lemma AttachBooks(c: Config, s: State, s': State)
    requires Working(c, s) && ProcAttach(c, s) == Some(s')
    ensures Rewritten(s, s')
  {
    assert s.proc.rec == s.records[s.proc.k];
  }

  lemma RelayBooks(c: Config, s: State, a: ProcStep, s': State)
    requires Working(c, s) && ProcNext(c, s, a) == Some(s') && (a.CallFulfill? || a.CallReject? || a.WriteRejected?)
    ensures Quiet(s, s') || Rewritten(s, s')
  {
    if a.WriteRejected? {
      WriteRejectedBooks(c, s, s');
    }
  }

  lemma WriteRejectedBooks(c: Config, s: State, s': State)
    requires Working(c, s) && ProcRejectWrite(s) == Some(s')
    ensures Rewritten(s, s')
  {
    assert s.proc.rec == s.records[s.proc.k];
  }

  lemma ProcBooks(c: Config, s: State, a: ProcStep, s': State)
    requires (s.proc.Resting? || Working(c, s)) && ProcNext(c, s, a) == Some(s')
    ensures BooksMove(c, s, ProcMoves(a), s')
  {
    if Decides(a) {
      DecidesInRecord(c, s, a);
      StepDecides(c, s, a, s');
      DecidedBooks(c, s, s');
    } else if a.FetchBatch? || a.Begin? || a.NextRecord? || a.Stop? {
      LoopBooks(c, s, a, s');
    } else {
      ProcWriteBooks(c, s, a, s');
    }
  }

  lemma WritesInRecord(c: Config, s: State, a: ProcStep)
    requires ProcNext(c, s, a).Some?
    requires a.Authorized? || a.AttachRow? || a.DebitAccount? || a.CallFulfill? || a.WriteFinished? || a.CallReject?
               || a.WriteRejected?
    ensures !s.proc.Resting?
  {
  }

  lemma ProcWriteBooks(c: Config, s: State, a: ProcStep, s': State)
    requires (s.proc.Resting? || Working(c, s)) && ProcNext(c, s, a) == Some(s')
    requires a.Authorized? || a.AttachRow? || a.DebitAccount? || a.CallFulfill? || a.WriteFinished? || a.CallReject?
               || a.WriteRejected?
    ensures BooksMove(c, s, ProcMoves(a), s')
  {
    WritesInRecord(c, s, a);
    match a
    case Authorized => AuthorizedBooks(c, s, s');
    case AttachRow => AttachBooks(c, s, s');
    case DebitAccount => DebitBooks(c, s, s');
    case WriteFinished => WriteFinishedBooks(c, s, s');
    case _ => RelayBooks(c, s, a, s');
  }

  /** Every step is one of the six kinds. */
  lemma StepBooks(c: Config, s: State, step: Step, s': State)
    requires Inv(c, s) && Next(c, s, step) == Some(s')
    ensures BooksMove(c, s, step, s')
  {
    match step
    case EnvMoves(a) => EnvBooks(c, s, a, s');
    case SenderMoves(a) => SenderBooks(c, s, a, s');
    case JobMoves(j, a) => JobTouches(c, s, j, a, s');
    case ProcMoves(a) => ProcBooks(c, s, a, s');
  }

  // ---------------------------------------------------------------- the balance equation

  /** What a step leaves unpaid in the account of `a`. */
  ghost function LeftBy(s: State, step: Step, a: string): nat {
    if Unbooked(s, step) && s.records[s.proc.k].request.address == a
    then s.records[s.proc.k].request.amount + s.records[s.proc.k].fee
    else 0
  }

  lemma RecordMoves(s: State, s': State, k: nat, a: string)
    requires SameMoney(s, s') && k < |s.records| == |s'.records| && s'.records == s.records[k := s'.records[k]]
    ensures Imbalance(s', a) == Imbalance(s, a) - DebitOf(s.records[k], a) + DebitOf(s'.records[k], a)
  {
    DebitsUpdate(s.records, k, s'.records[k], a);
  }

  lemma LogsMove(c: Config, s: State, s': State, logs: seq<Log>, a: string)
    requires Logged(c, s, s', logs)
    ensures Imbalance(s', a) == Imbalance(s, a)
  {
    BatchMovesBalances(c.vestingSigner, s.now, s.ledger, logs, a);
    SignedSumConcat(s.accepted, logs, a);
  }

  lemma DebitMoves(s: State, step: Step, s': State, a: string)
    requires Debiting(s, step, s')
    ensures Imbalance(s', a) == Imbalance(s, a)
  {
    DebitsUpdate(s.records, s.proc.k, s'.records[s.proc.k], a);
  }

  lemma AddedMoves(s: State, s': State, a: string)
    requires Added(s, s')
    ensures Imbalance(s', a) == Imbalance(s, a)
  {
    assert s'.records[..|s.records|] == s.records;
  }

  lemma BooksBalance(c: Config, s: State, step: Step, s': State, a: string)
    requires BooksMove(c, s, step, s') && !Unbooked(s, step)
    ensures Imbalance(s', a) == Imbalance(s, a)
  {
    if Rewritten(s, s') {
      RecordMoves(s, s', s.proc.k, a);
    } else if Added(s, s') {
      AddedMoves(s, s', a);
    } else if Debiting(s, step, s') {
      DebitMoves(s, step, s', a);
    } else if logs :| Logged(c, s, s', logs) {
      LogsMove(c, s, s', logs, a);
    }
  }

  lemma UnbookedFinishes(c: Config, s: State, step: Step, s': State)
    requires Unbooked(s, step) && Next(c, s, step) == Some(s')
    ensures Unbooking(s, step, s')
  {
    assert ProcFulfillWrite(s) == Some(s');
  }

  /** A step leaves every balance equation as it was, unless it finishes a record whose debit was lost. */
  lemma StepImbalance(c: Config, s: State, step: Step, s': State, a: string)
    requires Inv(c, s) && Next(c, s, step) == Some(s')
    ensures Imbalance(s', a) == Imbalance(s, a) + LeftBy(s, step, a)
  {
    if Unbooked(s, step) {
      UnbookedFinishes(c, s, step, s');
      RecordMoves(s, s', s.proc.k, a);
    } else {
      StepBooks(c, s, step, s');
      BooksBalance(c, s, step, s', a);
    }
  }

  /** What the first `n` steps have left unpaid in the account of `a`. */
  ghost function Left(states: seq<State>, steps: seq<Step>, n: nat, a: string): nat
    requires n <= |steps| <= |states|
  {
    if n == 0 then 0 else Left(states, steps, n - 1, a) + LeftBy(states[n - 1], steps[n - 1], a)
  }

  lemma RunStepImbalance(c: Config, states: seq<State>, steps: seq<Step>, n: nat, a: string)
    requires Run(c, states, steps) && n < |steps|
    ensures Imbalance(states[n + 1], a) == Imbalance(states[n], a) + LeftBy(states[n], steps[n], a)
  {
    RunInv(c, states, steps, n);
    StepImbalance(c, states[n], steps[n], states[n + 1], a);
  }

  /**
    The balance equation of every run: each account holds its opening balance plus the accepted logs,
    minus amount and fee of the records in Success or Finished, plus exactly the totals of the records
    that were finished after their debit had been lost.
  */
  lemma RunBalances(c: Config, states: seq<State>, steps: seq<Step>, n: nat, a: string)
    requires Run(c, states, steps) && n < |states|
    ensures Balance(states[n].ledger.accounts, a)
         == Balance(states[n].opening, a) + SignedSum(states[n].accepted, a) - Debits(states[n].records, a)
            + Left(states, steps, n, a)
  {
    RunImbalance(c, states, steps, n, a);
  }

  lemma RunImbalance(c: Config, states: seq<State>, steps: seq<Step>, n: nat, a: string)
    requires Run(c, states, steps) && n < |states|
    ensures Imbalance(states[n], a) == Left(states, steps, n, a)
  {
    InitBalanced(c, states[0], a);
    forall m | 0 <= m < n ensures Accrues(states, steps, m, a) {
      RunStepImbalance(c, states, steps, m, a);
    }
    Accumulates(states, steps, n, a);
  }

  ghost predicate Accrues(states: seq<State>, steps: seq<Step>, m: nat, a: string)
    requires m < |steps| && |states| == |steps| + 1
  {
    Imbalance(states[m + 1], a) == Imbalance(states[m], a) + LeftBy(states[m], steps[m], a)
  }

  lemma {:induction false} Accumulates(states: seq<State>, steps: seq<Step>, n: nat, a: string)
    requires n <= |steps| && |states| == |steps| + 1
    requires Imbalance(states[0], a) == 0 && forall m :: 0 <= m < n ==> Accrues(states, steps, m, a)
    ensures Imbalance(states[n], a) == Left(states, steps, n, a)
  {
    if n > 0 {
      Accumulates(states, steps, n - 1, a);
      assert Accrues(states, steps, n - 1, a);
    }
  }

  lemma InitBalanced(c: Config, s: State, a: string)
    requires Init(c, s)
    ensures Imbalance(s, a) == 0
  {
    if s.records != [] {
      assert s.records[..0] == [] && Debits([], a) == 0;
      assert Debits(s.records, a) == 0;
    } else {
      assert Debits(s.records, a) == 0;
    }
  }

  /** No money is left behind by step `m`. */
  ghost predicate Booked(states: seq<State>, steps: seq<Step>, m: nat)
    requires m < |steps| <= |states|
  {
    Unbooked(states[m], steps[m]) ==> var r := states[m].records[states[m].proc.k]; r.request.amount + r.fee == 0
  }

  lemma {:induction false} BookedLeavesNothing(states: seq<State>, steps: seq<Step>, n: nat, a: string)
    requires n <= |steps| <= |states| && forall m :: 0 <= m < n ==> Booked(states, steps, m)
    ensures Left(states, steps, n, a) == 0
  {
    if n > 0 {
      BookedLeavesNothing(states, steps, n - 1, a);
      assert Booked(states, steps, n - 1);
    }
  }

  lemma {:induction false} UnbookedLeaves(states: seq<State>, steps: seq<Step>, n: nat, m: nat)
    requires m < n <= |steps| <= |states| && !Booked(states, steps, m)
    ensures Left(states, steps, n, states[m].records[states[m].proc.k].request.address) > 0
  {
    if m < n - 1 {
      UnbookedLeaves(states, steps, n - 1, m);
    }
  }

  /**
    A run is in balance exactly when none of its steps finished a record, worth anything, whose debit had been lost.
  */
  lemma BalancedExactly(c: Config, states: seq<State>, steps: seq<Step>, n: nat)
    requires Run(c, states, steps) && n < |states|
    ensures Conserved(states[n]) <==> forall m :: 0 <= m < n ==> Booked(states, steps, m)
  {
    forall a ensures Imbalance(states[n], a) == Left(states, steps, n, a) {
      RunImbalance(c, states, steps, n, a);
    }
    BalancedIff(states, steps, n);
  }

  lemma BalancedIff(states: seq<State>, steps: seq<Step>, n: nat)
    requires n <= |steps| && |states| == |steps| + 1
    requires forall a :: Imbalance(states[n], a) == Left(states, steps, n, a)
    ensures Conserved(states[n]) <==> forall m :: 0 <= m < n ==> Booked(states, steps, m)
  {
    if forall m :: 0 <= m < n ==> Booked(states, steps, m) {
      forall a ensures Imbalance(states[n], a) == 0 {
        BookedLeavesNothing(states, steps, n, a);
      }
    } else {
      var m :| 0 <= m < n && !Booked(states, steps, m);
      UnbookedLeaves(states, steps, n, m);
    }
  }

  lemma KeptCommitBooks(c: Config, s: State, step: Step)
    requires !c.commitMayFail && ProcRecordOk(c, s.records, s.proc) && |s.owners| == |s.rows|
    requires ProcPlaceOk(c, s.rows, s.owners, s.records, s.history, s.now, s.proc)
    ensures !Unbooked(s, step)
  {
  }

  // ---------------------------------------------------------------- debited exactly once

  lemma BooksDebit(c: Config, s: State, step: Step, s': State, k: nat)
    requires BooksMove(c, s, step, s') && k < |s'.records| && Debited(s'.records[k])
    requires k < |s.records| ==> !Debited(s.records[k])
    ensures (Debiting(s, step, s') || Unbooking(s, step, s')) && s.proc.k == k
  {
  }

  lemma StepDebits(c: Config, s: State, step: Step, s': State, k: nat)
    requires Inv(c, s) && Next(c, s, step) == Some(s') && !c.commitMayFail
    requires k < |s'.records| && Debited(s'.records[k]) && (k < |s.records| ==> !Debited(s.records[k]))
    ensures Debiting(s, step, s') && s.proc.k == k
  {
    StepBooks(c, s, step, s');
    BooksDebit(c, s, step, s', k);
    KeptCommitBooks(c, s, step);
  }

  lemma RunStepDebits(c: Config, states: seq<State>, steps: seq<Step>, n: nat, k: nat)
    requires Run(c, states, steps) && n < |steps| && !c.commitMayFail
    requires k < |states[n + 1].records| && Debited(states[n + 1].records[k])
    requires k < |states[n].records| ==> !Debited(states[n].records[k])
    ensures Debiting(states[n], steps[n], states[n + 1]) && states[n].proc.k == k
  {
    RunInv(c, states, steps, n);
    StepDebits(c, states[n], steps[n], states[n + 1], k);
  }

  /** Where no commit is lost, a record that counts as debited was debited by an earlier step of the run. */
  lemma {:induction false} DebitedBefore(c: Config, states: seq<State>, steps: seq<Step>, n: nat,
                                         k: nat) returns (m: nat)
    requires Run(c, states, steps) && n < |states| && !c.commitMayFail
    requires k < |states[n].records| && Debited(states[n].records[k])
    ensures m < n && Debiting(states[m], steps[m], states[m + 1]) && states[m].proc.k == k
  {
    if n > 0 && k < |states[n - 1].records| && Debited(states[n - 1].records[k]) {
      m := DebitedBefore(c, states, steps, n - 1, k);
    } else {
      m := n - 1;
      RunStepDebits(c, states, steps, m, k);
    }
  }
}
