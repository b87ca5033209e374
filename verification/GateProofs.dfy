/** What the chain gates and the reads of the processor establish about the stored rows. */
module GateProofs {
  import opened Wrappers
  import opened Transactions
  import opened Chains
  import opened RelayLedger
  import opened Protocol
  import opened Invariants

  /** The rows of a record are exactly the rows of its root's chain. */
  lemma OwnerIsRoot(c: Config, rows: seq<Row>, owners: seq<nat>, records: seq<Record>, k: nat, root: nat, i: nat)
    requires OwnedOk(c, rows, owners, records) && k < |records| && records[k].txId == Some(root) && i < |rows|
    ensures owners[i] == k <==> RootOf(rows, i) == root
  {
    assert records[owners[i]].txId == Some(RootOf(rows, i));
  }

  lemma ListingPosition(rows: seq<Row>, root: nat, rootCopy: Row, i: nat) returns (p: nat)
    requires root < |rows| && i < |rows| && RootOf(rows, i) == root && rows[root].root.None?
    ensures p < |Listing(rows, root, rootCopy)|
    ensures if i == root then p == 0 else p > 0 && Listing(rows, root, rootCopy)[p] == rows[i]
    ensures i != root ==> p <= |RetryIds(rows, root)| && RetryIds(rows, root)[p - 1] == i
  {
    RetryIdsMembers(rows, root);
    if i == root {
      p := 0;
    } else {
      assert rows[i].root == Some(root);
      var m :| 0 <= m < |RetryIds(rows, root)| && RetryIds(rows, root)[m] == i;
      p := m + 1;
    }
  }

  /** Passing the reject gate means every attempt of the record has provably failed, for good. */
  lemma RejectGateMeans(c: Config, rows: seq<Row>, owners: seq<nat>, records: seq<Record>, k: nat, root: nat,
                        rootCopy: Row)
    requires OwnedOk(c, rows, owners, records) && k < |records| && records[k].txId == Some(root)
    requires Evolves(rootCopy, rows[root]) && RejectSafe(Listing(rows, root, rootCopy))
    ensures AllFailed(rows, owners, k)
  {
    var list := Listing(rows, root, rootCopy);
    assert IsProvenTerminalFailure(list[0]);
    forall i | 0 <= i < |rows| && owners[i] == k ensures IsProvenTerminalFailure(rows[i]) {
      OwnerIsRoot(c, rows, owners, records, k, root, i);
      var p := ListingPosition(rows, root, rootCopy, i);
      assert IsProvenTerminalFailure(list[p]);
    }
  }

  /** Passing the fulfill gate means the row that was read is the one payment of the record. */
  lemma FulfillGateMeans(c: Config, rows: seq<Row>, owners: seq<nat>, records: seq<Record>, k: nat, root: nat,
                         rootCopy: Row, held: Held)
    requires OwnedOk(c, rows, owners, records) && k < |records| && records[k].txId == Some(root)
    requires Evolves(rootCopy, rows[root]) && HeldOk(rows, owners, k, Some(held))
    requires FulfillSafe(held.row, Listing(rows, root, rootCopy))
    ensures HeldPaid(rows, owners, k, Some(held))
  {
    var list := Listing(rows, root, rootCopy);
    assert SettledRow(list[0]);
    assert list[0] == rows[root];
    OwnerIsRoot(c, rows, owners, records, k, root, held.id);
    var p := ListingPosition(rows, root, rootCopy, held.id);
    forall j | 0 <= j < |rows| && owners[j] == k && j != held.id ensures IsProvenTerminalFailure(rows[j]) {
      OwnerIsRoot(c, rows, owners, records, k, root, j);
      var q := ListingPosition(rows, root, rootCopy, j);
      assert SettledRow(list[q]);
      if rows[j].status.Confirmed? {
        OneConfirmed(list, p, q);
      }
    }
  }

  /** The current row that was read belongs to the record, however old the root's copy was. */
  lemma CurrentIsHeld(c: Config, rows: seq<Row>, owners: seq<nat>, records: seq<Record>, k: nat, root: nat,
                      rootCopy: Row)
    requires OwnedOk(c, rows, owners, records) && k < |records| && records[k].txId == Some(root)
    requires Evolves(rootCopy, rows[root])
    ensures HeldOk(rows, owners, k, Some(ReadCurrent(rows, root, rootCopy)))
  {
    RetryIdsMembers(rows, root);
    var ids := RetryIds(rows, root);
    if ids != [] {
      OwnerIsRoot(c, rows, owners, records, k, root, ids[|ids| - 1]);
    }
  }

  /**
    getCurrentBlockchainTransaction returns the last row of the chain, and a failed current row has no
    retries left, so the processor never waits on a row that will not change.
  */
  lemma CurrentIsLast(rows: seq<Row>, root: nat)
    requires TableOk(rows) && root < |rows| && rows[root].root.None?
    ensures CurrentId(rows, root) < |rows| && RootOf(rows, CurrentId(rows, root)) == root
    ensures forall i :: 0 <= i < |rows| && RootOf(rows, i) == root ==> i <= CurrentId(rows, root)
    ensures rows[CurrentId(rows, root)].status.Failed? ==> rows[CurrentId(rows,
                                                                          root)].retryCount == rows[root].maxRetries
  {
    CurrentIsHighest(rows, root);
    var cur := CurrentId(rows, root);
    LastHasNoSuccessor(rows, root, cur);
    ExhaustedWithoutSuccessor(rows, root, cur);
  }

  lemma CurrentIsHighest(rows: seq<Row>, root: nat)
    requires ChainsOk(rows) && root < |rows| && rows[root].root.None?
    ensures CurrentId(rows, root) < |rows| && RootOf(rows, CurrentId(rows, root)) == root
    ensures forall i :: 0 <= i < |rows| && RootOf(rows, i) == root ==> i <= CurrentId(rows, root)
  {
    RetryIdsMembers(rows, root);
    var ids, cur := RetryIds(rows, root), CurrentId(rows, root);
    forall i | 0 <= i < |rows| && RootOf(rows, i) == root ensures i <= cur {
      if i != root {
        assert rows[i].root == Some(root);
        assert rows[root].status.Failed?;
        var m :| 0 <= m < |ids| && ids[m] == i;
      }
    }
  }

  lemma ExhaustedWithoutSuccessor(rows: seq<Row>, root: nat, cur: nat)
    requires AllRowsOk(rows) && ChainsOk(rows) && RetriesCreated(rows)
    requires cur < |rows| && RootOf(rows, cur) == root && !HasSuccessor(rows, cur)
    ensures root < |rows| && (rows[cur].status.Failed? ==> rows[cur].retryCount == rows[root].maxRetries)
  {
    assert RowOk(rows[cur]);
    if rows[cur].root.Some? {
      assert RetryOk(rows, cur);
    }
  }

  lemma LastHasNoSuccessor(rows: seq<Row>, root: nat, cur: nat)
    requires cur < |rows| && RootOf(rows, cur) == root
    requires forall i :: 0 <= i < |rows| && RootOf(rows, i) == root ==> i <= cur
    ensures !HasSuccessor(rows, cur)
  {
    if cur + 1 < |rows| {
      assert RootOf(rows, cur + 1) != root;
    }
  }

  lemma PaidNotFailed(rows: seq<Row>, owners: seq<nat>, k: nat)
    requires |owners| == |rows| && IsPaid(rows, owners, k)
    ensures !AllFailed(rows, owners, k)
  {
  }

  /** A finished record leaves no row that could still change. */
  lemma FinishedIsTerminal(c: Config, rows: seq<Row>, owners: seq<nat>, records: seq<Record>, history: History,
                           now: nat, i: nat)
    requires HistoryOk(c, rows, owners, records, history, now)
    requires i < |rows| && owners[i] < |records| && Finished(records[owners[i]])
    ensures Terminal(rows[i])
  {
    var k := owners[i];
    if records[k].status.WFinished? {
      var j: nat :| Paid(rows, owners, k, j);
      assert i == j || IsProvenTerminalFailure(rows[i]);
    } else {
      assert RejectJustified(c, rows, owners, records[k], k, now);
    }
  }
}
