/**
  The other way a withdrawal ends: a run, for every request the wallet would accept, in which the deadline passes
  before the sender gets to its row, the row is cancelled, and the Relay is told to return the money.
*/
module RefundRun {
  import opened Wrappers
  import opened Transactions
  import opened Chains
  import opened RelayLedger
  import opened Protocol
  import opened Invariants
  import opened Theorems
  import opened SampleRun

  function TooLate(c: Config, q: Record): nat {
    q.createdAt + c.timeout + 1
  }

  const REASON := "Withdrawal request timed out before broadcast"

  function Flagged(c: Config, q: Record): Row
    requires CanPay(c, q)
  {
    FirstRow(c, q).(cancelRequestedAt := Some(TooLate(c, q)), statusMessage := Some(REASON))
  }

  /** The deadline has passed; the row and the processor are as given. */
  function Late(c: Config, q: Record, r: Row, p: Proc): State
    requires CanPay(c, q)
  {
    Polling(c, q).(now := TooLate(c, q), rows := [r], proc := p)
  }

  lemma ReachLate(c: Config, q: Record)
    requires CanPay(c, q)
    ensures Goes(c, Start(q), Late(c, q, FirstRow(c, q), Timeout(0, Attached(q))))
  {
    var r, rec := FirstRow(c, q), Attached(q);
    ReachUnsent(c, q);
    var t := Late(c, q, r, Polling(c, q).proc);
    Then(c, Start(q), Polling(c, q), EnvMoves(Tick(c.timeout + 1)), t);
    Then(c, Start(q), t, ProcMoves(Again), Late(c, q, r, Entry(0, rec)));
    Then(c, Start(q), Late(c, q, r, Entry(0, rec)), ProcMoves(Enter), Late(c, q, r, Timeout(0, rec)));
  }

  lemma ReachCancelled(c: Config, q: Record)
    requires CanPay(c, q) && Goes(c, Start(q), Late(c, q, FirstRow(c, q), Timeout(0, Attached(q))))
    ensures Goes(c, Start(q), Late(c, q, Flagged(c, q).(status := Cancelled), RejectCheck(0, Attached(q))))
  {
    var r, rec := FirstRow(c, q), Attached(q);
    var held := Some(Held(0, r));
    SoleRow(r);
    Then(c, Start(q), Late(c, q, r, Timeout(0, rec)), ProcMoves(HandleTimeout(r)),
         Late(c, q, r, TimeoutCancel(0, rec, held)));
    ReachFlagged(c, q);
    SettlesCancelled(c, q);
  }

  lemma ReachFlagged(c: Config, q: Record)
    requires CanPay(c, q)
    requires Goes(c, Start(q), Late(c, q, FirstRow(c, q), TimeoutCancel(0, Attached(q), Some(Held(0, FirstRow(c, q))))))
    ensures Goes(c, Start(q), Late(c, q, Flagged(c, q), TimeoutSettle(0, Attached(q), Some(Held(0, FirstRow(c, q))))))
  {
    var r, rec, held := FirstRow(c, q), Attached(q), Some(Held(0, FirstRow(c, q)));
    assert [r][0 := Flagged(c, q)] == [Flagged(c, q)];
    Then(c, Start(q), Late(c, q, r, TimeoutCancel(0, rec, held)), ProcMoves(CancelTimeout(REASON)),
         Late(c, q, Flagged(c, q), TimeoutSettle(0, rec, held)));
  }

  lemma SettlesCancelled(c: Config, q: Record)
    requires CanPay(c, q)
    requires Goes(c, Start(q), Late(c, q, Flagged(c, q), TimeoutSettle(0, Attached(q), Some(Held(0, FirstRow(c, q))))))
    ensures Goes(c, Start(q), Late(c, q, Flagged(c, q).(status := Cancelled), RejectCheck(0, Attached(q))))
  {
    var gone := Flagged(c, q).(status := Cancelled);
    assert [Flagged(c, q)][0 := gone] == [gone];
    Then(c, Start(q), Late(c, q, Flagged(c, q), TimeoutSettle(0, Attached(q), Some(Held(0, FirstRow(c, q))))),
         ProcMoves(SettleTimeout), Late(c, q, gone, RejectCheck(0, Attached(q))));
  }

  /** The Relay has been told, and nothing has been sent or taken. */
  function Refunded(c: Config, q: Record): State
    requires CanPay(c, q)
  {
    var rec := Attached(q).(status := WFinishedRejected);
    Late(c, q, Flagged(c, q).(status := Cancelled), Done(0, rec)).(
    records := [rec], history := Polling(c, q).history.(rejects := {0}))
  }

  lemma SoleRowIsRejectable(r: Row)
    requires r.root.None? && r.status.Cancelled? && !HasCommittedBroadcast(r)
    ensures RejectSafe(Listing([r], 0, r))
  {
    SoleRow(r);
    GatesDisjoint(r, [r]);
  }

  lemma ReachRefunded(c: Config, q: Record)
    requires CanPay(c, q)
    requires Goes(c, Start(q), Late(c, q, Flagged(c, q).(status := Cancelled), RejectCheck(0, Attached(q))))
    ensures Goes(c, Start(q), Refunded(c, q))
  {
    var gone, rec := Flagged(c, q).(status := Cancelled), Attached(q);
    SoleRowIsRejectable(gone);
    Then(c, Start(q), Late(c, q, gone, RejectCheck(0, rec)), ProcMoves(CheckReject(gone)),
         Late(c, q, gone, Reject(0, rec)));
    ReportsRefund(c, q);
  }

  lemma ReportsRefund(c: Config, q: Record)
    requires CanPay(c, q)
    requires Goes(c, Start(q), Late(c, q, Flagged(c, q).(status := Cancelled), Reject(0, Attached(q))))
    ensures Goes(c, Start(q), Refunded(c, q))
  {
    var gone, rec := Flagged(c, q).(status := Cancelled), Attached(q);
    assert {} + {0} == {0};
    Then(c, Start(q), Late(c, q, gone, Reject(0, rec)), ProcMoves(CallReject), Told(c, q));
    WritesRefund(c, q);
  }

  function Told(c: Config, q: Record): State
    requires CanPay(c, q)
  {
    Late(c, q, Flagged(c, q).(status := Cancelled), RejectWrite(0, Attached(q))).(
    history := Polling(c, q).history.(rejects := {0}))
  }

  lemma WritesRefund(c: Config, q: Record)
    requires CanPay(c, q) && Goes(c, Start(q), Told(c, q))
    ensures Goes(c, Start(q), Refunded(c, q))
  {
    var rec := Attached(q);
    assert [rec][0 := rec.(status := WFinishedRejected)] == [rec.(status := WFinishedRejected)];
    Then(c, Start(q), Told(c, q), ProcMoves(WriteRejected), Refunded(c, q));
  }

  /**
    Every request that the wallet would store as pending is refunded by some run: attached to a row, overdue, its
    row cancelled unsent, rejected at the Relay and finished, with nothing submitted and its account untouched.
  */
  lemma RefundCompletes(c: Config, q: Record)
    requires CanPay(c, q)
    ensures Reachable(c, Refunded(c, q))
    ensures var s := Refunded(c, q);
            && s.records == [Attached(q).(status := WFinishedRejected)] && 0 in s.history.rejects
            && |s.rows| == 1 && s.rows[0].status.Cancelled? && s.chain.sends == []
            && s.now == q.createdAt + c.timeout + 1 && s.ledger.accounts == s.opening
  {
    ReachLate(c, q);
    ReachCancelled(c, q);
    ReachRefunded(c, q);
    GoesIsReachable(c, Start(q), Refunded(c, q));
  }
}
