/**
  Conservation rests on one assumption: that the commit of the debit is not lost after its body has run.
  UpdateStatus changes the in-memory record inside that body, so a retry would find the record already
  successful and report it without ever debiting the account. This is the run that does so, for every request.
*/
module LostCommit {
  import opened Wrappers
  import opened Transactions
  import opened Chains
  import opened RelayLedger
  import opened Protocol
  import opened Invariants
  import opened Theorems
  import opened SampleRun
  import opened Balances
  import Accounting

  lemma ReachLost(c: Config, q: Record)
    requires CanPay(c, q) && c.commitMayFail
    requires Goes(c, Start(q), Paying(c, q, Attached(q), Debit(0, Attached(q), Some(Payment(c, q)))))
    ensures Goes(c, Start(q), Paying(c, q, Attached(q), Entry(0, Attached(q).(status := WSuccess))))
  {
    var rec := Attached(q);
    Then(c, Start(q), Paying(c, q, rec, Debit(0, rec, Some(Payment(c, q)))), ProcMoves(LoseDebit),
         Paying(c, q, rec, Entry(0, rec.(status := WSuccess))));
  }

  lemma ReachFulfill(c: Config, q: Record)
    requires CanPay(c, q) && Goes(c, Start(q), Paying(c, q, Attached(q), Entry(0, Attached(q).(status := WSuccess))))
    ensures var rec := Attached(q).(status := WSuccess);
            Goes(c, Start(q), Paying(c, q, Attached(q), Fulfill(0, rec, Some(Payment(c, q)))))
  {
    var stored, rec, r := Attached(q), Attached(q).(status := WSuccess), PaidRow(Polling(c, q));
    SoleRowIsPaid(Polling(c, q));
    var t := Paying(c, q, stored, Top(0, rec, None));
    Then(c, Start(q), Paying(c, q, stored, Entry(0, rec)), ProcMoves(Enter), t);
    var u := Paying(c, q, stored, Finish(0, rec, None));
    Then(c, Start(q), t, ProcMoves(TopOf(r)), u);
    ReachKnown(c, q);
  }

  lemma ReachKnown(c: Config, q: Record)
    requires CanPay(c, q)
    requires Goes(c, Start(q), Paying(c, q, Attached(q), Finish(0, Attached(q).(status := WSuccess), None)))
    ensures var rec := Attached(q).(status := WSuccess);
            Goes(c, Start(q), Paying(c, q, Attached(q), Fulfill(0, rec, Some(Payment(c, q)))))
  {
    var stored, rec, r := Attached(q), Attached(q).(status := WSuccess), PaidRow(Polling(c, q));
    SoleRowIsPaid(Polling(c, q));
    var v := Paying(c, q, stored, Finish(0, rec, Some(Payment(c, q))));
    Then(c, Start(q), Paying(c, q, stored, Finish(0, rec, None)), ProcMoves(FinishRecord(r)), v);
    Then(c, Start(q), v, ProcMoves(FinishRecord(r)), Paying(c, q, stored, Fulfill(0, rec, Some(Payment(c, q)))));
  }

  function Unpaid(c: Config, q: Record): State
    requires CanPay(c, q)
  {
    var rec := Attached(q).(status := WFinished);
    Paying(c, q, rec, Done(0, rec)).(history := PaidHistory(q))
  }

  lemma ReachUnpaid(c: Config, q: Record)
    requires CanPay(c, q)
    requires var rec := Attached(q).(status := WSuccess);
             Goes(c, Start(q), Paying(c, q, Attached(q), Fulfill(0, rec, Some(Payment(c, q)))))
    ensures Goes(c, Start(q), Unpaid(c, q))
  {
    var stored, rec, held := Attached(q), Attached(q).(status := WSuccess), Some(Payment(c, q));
    var t := Paying(c, q, stored, FulfillWrite(0, rec, held)).(history := PaidHistory(q));
    assert {} + {(0, FIRST)} == {(0, FIRST)};
    Then(c, Start(q), Paying(c, q, stored, Fulfill(0, rec, held)), ProcMoves(CallFulfill), t);
    assert [stored][0 := rec.(status := WFinished)] == [rec.(status := WFinished)];
    Then(c, Start(q), t, ProcMoves(WriteFinished), Unpaid(c, q));
  }

  /** The record is finished and reported as paid, and its account still holds the money. */
  lemma LostCommitBreaksConservation(c: Config, q: Record)
    requires CanPay(c, q) && c.commitMayFail
    ensures Reachable(c, Unpaid(c, q)) && !Conserved(Unpaid(c, q))
  {
    ReachDue(c, q);
    ReachLost(c, q);
    ReachFulfill(c, q);
    ReachUnpaid(c, q);
    GoesIsReachable(c, Start(q), Unpaid(c, q));
    NotConserved(c, q);
  }

  lemma NotConserved(c: Config, q: Record)
    requires CanPay(c, q)
    ensures !Conserved(Unpaid(c, q))
  {
    var s := Unpaid(c, q);
    assert s.records[..0] == [];
    assert Debits(s.records, q.request.address) == q.request.amount + q.fee;
    assert Imbalance(s, q.request.address) == q.request.amount + q.fee;
  }

  /**
    For a service that can pay at least one request, the books balance in every run exactly when no debit
    commit can be lost.
  */
  lemma ConservationExactly(c: Config, q: Record)
    requires CanPay(c, q)
    ensures (forall s :: Reachable(c, s) ==> Conserved(s)) <==> !c.commitMayFail
  {
    if c.commitMayFail {
      LostCommitBreaksConservation(c, q);
    } else {
      forall s, a | Reachable(c, s) ensures Imbalance(s, a) == 0 {
        Accounting.Conservation(c, s, a);
      }
    }
  }

  /** An attach whose commit is lost does happen: no transaction is stored, and the processor holds the id of one. */
  lemma LostAttachHappens(c: Config, q: Record)
    requires CanPay(c, q) && c.commitMayFail
    ensures Reachable(c, Gated(q).(proc := Dangling(0, q, 0)))
  {
    ReachFetched(c, q);
    ReachGate(c, q, FirstRow(c, q));
    var t := Gated(q).(proc := Protocol.Attach(0, q, q.request.amount + q.fee, 0));
    Then(c, Start(q), Gated(q), ProcMoves(GateCheck), t);
    Then(c, Start(q), t, ProcMoves(LoseAttach), Gated(q).(proc := Dangling(0, q, 0)));
    GoesIsReachable(c, Start(q), Gated(q).(proc := Dangling(0, q, 0)));
  }
}
