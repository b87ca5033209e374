/**
  A retry chain read from the table and the two gates that judge it
  (ListTransactionChain, ClassifyTransactionChain, ensureWithdrawalRejectSafe, ensureWithdrawalFulfillSafe).
  A row's id is its index in the table, so `ORDER BY id` is table order.
*/
module Chains {
  import opened Wrappers
  import opened Transactions

  function RootOf(rows: seq<Row>, i: nat): nat
    requires i < |rows|
  {
    RootTransactionId(i, rows[i])
  }

  /** Ids of the rows whose `retry_transaction_id` is `root`, in table order. */
  function RetryIds(rows: seq<Row>, root: nat): seq<nat> {
    if rows == [] then []
    else
      var n := |rows| - 1;
      RetryIds(rows[..n], root) + if rows[n].root == Some(root) then [n] else []
  }

  lemma {:induction false} RetryIdsMembers(rows: seq<Row>, root: nat)
    ensures forall m :: 0 <= m < |RetryIds(rows, root)| ==>
              RetryIds(rows, root)[m] < |rows| && rows[RetryIds(rows, root)[m]].root == Some(root)
    ensures forall i :: 0 <= i < |rows| && rows[i].root == Some(root) ==> i in RetryIds(rows, root)
    ensures forall m, n :: 0 <= m < n < |RetryIds(rows, root)| ==> RetryIds(rows, root)[m] < RetryIds(rows, root)[n]
  {
    if rows != [] {
      var n := |rows| - 1;
      RetryIdsMembers(rows[..n], root);
      assert forall i :: 0 <= i < n ==> rows[..n][i] == rows[i];
      var before, ids := RetryIds(rows[..n], root), RetryIds(rows, root);
      assert forall m :: 0 <= m < |before| ==> ids[m] == before[m];
      forall i | 0 <= i < |rows| && rows[i].root == Some(root) ensures i in ids {
        if i < n {
          assert i in before;
        } else {
          assert ids[|before|] == n;
        }
      }
    }
  }

  function Pick(rows: seq<Row>, ids: seq<nat>): seq<Row>
    requires forall m :: 0 <= m < |ids| ==> ids[m] < |rows|
  {
    seq(|ids|, m requires 0 <= m < |ids| => rows[ids[m]])
  }

  function Retries(rows: seq<Row>, root: nat): seq<Row> {
    RetryIdsMembers(rows, root);
    Pick(rows, RetryIds(rows, root))
  }

  /** ListTransactionChain: the root is read first, so its copy may be older than the retries. */
  function Listing(rows: seq<Row>, root: nat, rootCopy: Row): seq<Row> {
    [rootCopy] + Retries(rows, root)
  }

  // ---------------------------------------------------------------- classification

  function ConfirmedCount(list: seq<Row>): nat {
    if list == [] then 0
    else ConfirmedCount(list[..|list| - 1]) + if list[|list| - 1].status.Confirmed? then 1 else 0
  }

  predicate AllProvenFail(list: seq<Row>) {
    forall m :: 0 <= m < |list| ==> IsProvenTerminalFailure(list[m])
  }

  predicate SettledRow(r: Row) {
    r.status.Confirmed? || IsProvenTerminalFailure(r)
  }

  predicate AllSettled(list: seq<Row>) {
    forall m :: 0 <= m < |list| ==> SettledRow(list[m])
  }

  /** The gate in front of the Relay's Reject call. */
  predicate RejectSafe(list: seq<Row>) {
    ConfirmedCount(list) == 0 && AllProvenFail(list)
  }

  /** The gate in front of the debit and of the Relay's Fulfill call. */
  predicate FulfillSafe(current: Row, list: seq<Row>) {
    current.status.Confirmed? && current.txHash.Some? && ConfirmedCount(list) == 1 && AllSettled(list)
  }

  lemma {:induction false} ConfirmedCountPositive(list: seq<Row>, m: nat)
    requires m < |list| && list[m].status.Confirmed?
    ensures ConfirmedCount(list) >= 1
  {
    if m < |list| - 1 {
      ConfirmedCountPositive(list[..|list| - 1], m);
    }
  }

  lemma {:induction false} OneConfirmed(list: seq<Row>, m: nat, n: nat)
    requires m < |list| && n < |list| && list[m].status.Confirmed? && list[n].status.Confirmed?
    requires ConfirmedCount(list) <= 1
    ensures m == n
  {
    var last := |list| - 1;
    if m < last {
      ConfirmedCountPositive(list[..last], m);
    }
    if n < last {
      ConfirmedCountPositive(list[..last], n);
    }
    if m < last && n < last {
      OneConfirmed(list[..last], m, n);
    }
  }

  lemma {:induction false} ConfirmedExists(list: seq<Row>) returns (m: nat)
    requires ConfirmedCount(list) >= 1
    ensures m < |list| && list[m].status.Confirmed?
  {
    var last := |list| - 1;
    if list[last].status.Confirmed? {
      m := last;
    } else {
      m := ConfirmedExists(list[..last]);
    }
  }

  lemma {:induction false} NoneConfirmed(list: seq<Row>)
    requires AllProvenFail(list)
    ensures ConfirmedCount(list) == 0
  {
    if list != [] {
      NoneConfirmed(list[..|list| - 1]);
    }
  }

  /** No chain passes both gates, and the reject gate is exactly "every attempt provably failed". */
  lemma GatesDisjoint(current: Row, list: seq<Row>)
    ensures !(RejectSafe(list) && FulfillSafe(current, list))
    ensures RejectSafe(list) <==> AllProvenFail(list)
  {
    if AllProvenFail(list) {
      NoneConfirmed(list);
    }
  }

  /** getCurrentBlockchainTransaction over the rows as they are now. */
  function CurrentId(rows: seq<Row>, root: nat): nat
    requires root < |rows|
  {
    var ids := RetryIds(rows, root);
    if !rows[root].status.Failed? || ids == [] then root else ids[|ids| - 1]
  }
}
