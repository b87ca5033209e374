/**
  The methods of models/blockchain_transaction.go in their own form: an in-memory `Transaction` and the
  table it is a copy of. Each method is one conditional UPDATE followed by an update of the copy, and
  is proved to be the `Cas...` function of the state machine, whatever the copy holds.
*/
module TransactionStore {
  import opened Wrappers
  import opened Transactions
  import opened Chains
  import Protocol

  /** All rows are well-formed, and `b` follows from `a` by moving rows forward. */
  ghost predicate Grows(a: seq<Row>, b: seq<Row>) {
    && |a| <= |b| && (forall i :: 0 <= i < |b| ==> RowOk(b[i]))
    && forall i :: 0 <= i < |a| ==> Evolves(a[i], b[i])
  }

  /** The table after a conditional update of row `id`. */
  ghost function After(rows: seq<Row>, id: nat, change: Option<Row>): seq<Row>
    requires id < |rows|
  {
    if change.Some? then rows[id := change.value] else rows
  }

  lemma AfterGrows(rows: seq<Row>, id: nat, change: Option<Row>, now: nat, block: nat, text: string, p: Payload)
    requires id < |rows| && (forall i :: 0 <= i < |rows| ==> RowOk(rows[i])) && block > 0 && p.order == rows[id].order
    requires || change == CasClaim(rows[id]) || change == CasRelease(rows[id], text)
               || change == CasPrepare(rows[id], p)
             || change == CasMarkSent(rows[id], now) || change == CasRequestCancellation(rows[id], now, text)
             || change == CasCancelRequested(rows[id]) || change == CasMarkConfirmed(rows[id], block)
             || change == CasMarkFailedFromSent(rows[id], block, text) || change == CasMarkReceiptDelayed(rows[id])
    ensures Grows(rows, After(rows, id, change))
  {
    if change.Some? {
      CasKeepsRow(rows[id], change.value, now, block, text, p);
    }
  }

  class Database {
    var rows: seq<Row>

    ghost predicate Valid() reads this {
      forall i :: 0 <= i < |rows| ==> RowOk(rows[i])
    }

    constructor ()
      ensures Valid() && rows == []
    {
      rows := [];
    }

    /** RecoverLegacySendingTransactions: two bulk updates, one after the other. */
    method RecoverLegacySending()
      requires Valid()
      modifies this
      ensures Valid() && rows == Protocol.RecoverRows(old(rows)) && Grows(old(rows), rows)
    {
      ghost var before := rows;
      rows := seq(|rows|, i requires 0 <= i < |rows| reads this =>
        if Unclaimed(rows[i]) && rows[i].cancelRequestedAt.None? then rows[i].(status := Pending) else rows[i]);
      rows := seq(|rows|, i requires 0 <= i < |rows| reads this =>
        if Unclaimed(rows[i]) && rows[i].cancelRequestedAt.Some? then rows[i].(status := Cancelled) else rows[i]);
      forall i | 0 <= i < |before|
        ensures rows[i] == RecoverRow(before[i]) && RowOk(rows[i]) && Evolves(before[i], rows[i])
      {
        CasKeepsRow(before[i], RecoverRow(before[i]), 0, 1, "", Payload(0, before[i].order, 0));
      }
    }

    static predicate Unclaimed(r: Row) {
      r.status.Sending? && r.txHash.None? && r.signedRaw.None?
    }
  }

  class Transaction {
    const id: nat
    var row: Row

    constructor (id: nat, row: Row)
      ensures this.id == id && this.row == row
    {
      this.id := id;
      this.row := row;
    }

    method Sync(db: Database)
      requires id < |db.rows|
      modifies this`row
      ensures row == db.rows[id]
    {
      row := db.rows[id];
    }

    /** A lost race still counts when the row is found `Sent`. */
    method MarkSent(db: Database, now: nat) returns (ok: bool)
      requires db.Valid() && id < |db.rows|
      modifies this`row, db
      ensures db.rows == After(old(db.rows), id, CasMarkSent(old(db.rows)[id], now)) && Grows(old(db.rows), db.rows)
      ensures ok <==> CasMarkSent(old(db.rows)[id], now).Some? || old(db.rows)[id].status.Sent?
      ensures row == if CasMarkSent(old(db.rows)[id], now).Some? then old(row).(status := Sent, sentAt := Some(now))
                     else old(db.rows)[id]
    {
      var r := db.rows[id];
      AfterGrows(db.rows, id, CasMarkSent(r, now), now, 1, "", Payload(0, r.order, 0));
      if r.status.Broadcasting? && r.txHash.Some? && r.signedRaw.Some? {
        db.rows := db.rows[id := r.(status := Sent, sentAt := Some(now))];
        row := row.(status := Sent, sentAt := Some(now));
        ok := true;
      } else {
        Sync(db);
        ok := row.status.Sent?;
      }
    }

    /**
      A retry is claimed only when every earlier member of its chain has a proven on-chain failure;
      `unsafe` is the error that reports the opposite.
    */
    method ClaimForSending(db: Database) returns (claimed: bool, unsafe: bool)
      requires db.Valid() && id < |db.rows|
      requires row.root == db.rows[id].root
      requires (row.root.Some? ==> row.root.value < id && db.rows[row.root.value].root.None?)
      modifies this`row, db
      ensures unsafe <==> old(row).root.Some? && !Protocol.AncestorsProven(old(db.rows), id, old(row).root.value)
      ensures db.rows == After(old(db.rows), id, if unsafe then None else CasClaim(old(db.rows)[id]))
      ensures Grows(old(db.rows), db.rows)
      ensures claimed <==> !unsafe && CasClaim(old(db.rows)[id]).Some?
      ensures row == if claimed then old(row).(status := Sending) else old(row)
    {
      claimed, unsafe := false, false;
      assert forall i :: 0 <= i < |db.rows| ==> Evolves(db.rows[i], db.rows[i]);
      if row.root.Some? {
        var chain := ListTransactionChain(db, row.root.value);
        var n := 0;
        ChainAncestors(db.rows, chain, row.root.value, id);
        while n < |chain| && chain[n] != id && !unsafe
          invariant n <= |chain|
          invariant unsafe <==> exists m :: 0 <= m < n && !IsProvenOnChainFailure(db.rows[chain[m]])
          invariant unsafe ==> n > 0 && forall m :: 0 <= m < n ==> chain[m] != id
          invariant forall m :: 0 <= m < n ==> chain[m] != id
          invariant db.rows == old(db.rows) && row == old(row)
        {
          unsafe := !IsProvenOnChainFailure(db.rows[chain[n]]);
          n := n + 1;
        }
        AncestorsChecked(db.rows, chain, row.root.value, id, n, unsafe);
      }
      var r := db.rows[id];
      AfterGrows(db.rows, id, CasClaim(r), 0, 1, "", Payload(0, r.order, 0));
      if !unsafe && r.status.Pending? && r.txHash.None? && r.signedRaw.None? && r.cancelRequestedAt.None? {
        db.rows := db.rows[id := r.(status := Sending)];
        row := row.(status := Sending);
        claimed := true;
      }
    }

    /** Gives a claimed row back, or completes a cancellation requested meanwhile. */
    method ReleaseSending(db: Database, message: string)
      requires db.Valid() && id < |db.rows|
      modifies this`row, db
      ensures db.rows == After(old(db.rows), id, CasRelease(old(db.rows)[id], message)) && Grows(old(db.rows), db.rows)
      ensures row == if CasRelease(old(db.rows)[id], message).Some? then db.rows[id] else old(row)
    {
      var r := db.rows[id];
      AfterGrows(db.rows, id, CasRelease(r, message), 0, 1, message, Payload(0, r.order, 0));
      if r.status.Sending? && r.txHash.None? && r.signedRaw.None? {
        var requested := r.cancelRequestedAt.Some?;
        var status := if requested then Cancelled else Pending;
        var text := if message != "" && !requested then Some(message) else r.statusMessage;
        db.rows := db.rows[id := r.(status := status, statusMessage := text)];
        Sync(db);
      }
    }

    method PrepareBroadcast(db: Database, p: Payload) returns (ok: bool)
      requires db.Valid() && id < |db.rows| && p.order == db.rows[id].order
      modifies this`row, db
      ensures db.rows == After(old(db.rows), id, CasPrepare(old(db.rows)[id], p)) && Grows(old(db.rows), db.rows)
      ensures ok <==> CasPrepare(old(db.rows)[id], p).Some?
      ensures row == if ok then old(row).(status := Broadcasting, txHash := Some(p.hash), nonce := Some(p.nonce),
                                          signedRaw := Some(p))
                     else old(db.rows)[id]
    {
      var r := db.rows[id];
      AfterGrows(db.rows, id, CasPrepare(r, p), 0, 1, "", p);
      ok := r.status.Sending? && r.txHash.None? && r.signedRaw.None? && r.cancelRequestedAt.None?;
      if ok {
        db.rows := db.rows[id := r.(status := Broadcasting, txHash := Some(p.hash), nonce := Some(p.nonce),
                                    signedRaw := Some(p))];
        row := row.(status := Broadcasting, txHash := Some(p.hash), nonce := Some(p.nonce), signedRaw := Some(p));
      } else {
        Sync(db);
      }
    }

    method RequestCancellation(db: Database, now: nat, reason: string) returns (ok: bool)
      requires db.Valid() && id < |db.rows|
      modifies this`row, db
      ensures db.rows == After(old(db.rows), id, CasRequestCancellation(old(db.rows)[id], now, reason))
      ensures Grows(old(db.rows), db.rows)
      ensures ok <==> CasRequestCancellation(old(db.rows)[id], now, reason).Some?
      ensures row == if ok then old(row).(cancelRequestedAt := Some(now), statusMessage := Some(reason)) else old(row)
    {
      var r := db.rows[id];
      AfterGrows(db.rows, id, CasRequestCancellation(r, now, reason), now, 1, reason, Payload(0, r.order, 0));
      ok := (r.status.Pending? || r.status.Sending?)
            && r.txHash.None? && r.signedRaw.None? && r.cancelRequestedAt.None?;
      if ok {
        db.rows := db.rows[id := r.(cancelRequestedAt := Some(now), statusMessage := Some(reason))];
        row := row.(cancelRequestedAt := Some(now), statusMessage := Some(reason));
      }
    }

    method CancelRequestedUnbroadcasted(db: Database) returns (ok: bool)
      requires db.Valid() && id < |db.rows|
      modifies this`row, db
      ensures db.rows == After(old(db.rows), id, CasCancelRequested(old(db.rows)[id])) && Grows(old(db.rows), db.rows)
      ensures ok <==> CasCancelRequested(old(db.rows)[id]).Some?
      ensures row == if ok then old(row).(status := Cancelled) else old(row)
    {
      var r := db.rows[id];
      AfterGrows(db.rows, id, CasCancelRequested(r), 0, 1, "", Payload(0, r.order, 0));
      ok := r.status.Pending? && r.txHash.None? && r.signedRaw.None? && r.cancelRequestedAt.Some?;
      if ok {
        db.rows := db.rows[id := r.(status := Cancelled)];
        row := row.(status := Cancelled);
      }
    }

    /** A lost race still counts when the row is found `Confirmed`. */
    method MarkConfirmed(db: Database, block: nat) returns (ok: bool)
      requires db.Valid() && id < |db.rows| && block > 0
      modifies this`row, db
      ensures db.rows == After(old(db.rows), id, CasMarkConfirmed(old(db.rows)[id], block))
      ensures Grows(old(db.rows), db.rows)
      ensures ok <==> CasMarkConfirmed(old(db.rows)[id], block).Some? || old(db.rows)[id].status.Confirmed?
      ensures row == if CasMarkConfirmed(old(db.rows)[id], block).Some?
                     then old(row).(status := Confirmed, blockNumber := Some(block))
                     else old(db.rows)[id]
    {
      var r := db.rows[id];
      AfterGrows(db.rows, id, CasMarkConfirmed(r, block), 0, block, "", Payload(0, r.order, 0));
      if r.status.Sent? {
        db.rows := db.rows[id := r.(status := Confirmed, blockNumber := Some(block))];
        row := row.(status := Confirmed, blockNumber := Some(block));
        ok := true;
      } else {
        Sync(db);
        ok := row.status.Confirmed?;
      }
    }

    method MarkFailedFromSent(db: Database, block: nat, message: string) returns (ok: bool)
      requires db.Valid() && id < |db.rows| && block > 0
      modifies this`row, db
      ensures db.rows == After(old(db.rows), id, CasMarkFailedFromSent(old(db.rows)[id], block, message))
      ensures Grows(old(db.rows), db.rows)
      ensures ok <==> CasMarkFailedFromSent(old(db.rows)[id], block, message).Some?
      ensures row == if ok then old(row).(status := Failed, blockNumber := Some(block),
                                          statusMessage := Some(message)) else old(row)
    {
      var r := db.rows[id];
      AfterGrows(db.rows, id, CasMarkFailedFromSent(r, block, message), 0, block, message, Payload(0, r.order, 0));
      ok := r.status.Sent? && r.txHash.Some?;
      if ok {
        db.rows := db.rows[id := r.(status := Failed, blockNumber := Some(block), statusMessage := Some(message))];
        row := row.(status := Failed, blockNumber := Some(block), statusMessage := Some(message));
      }
    }

    method MarkReceiptDelayed(db: Database) returns (ok: bool)
      requires db.Valid() && id < |db.rows|
      modifies this`row, db
      ensures db.rows == After(old(db.rows), id, CasMarkReceiptDelayed(old(db.rows)[id]))
      ensures Grows(old(db.rows), db.rows)
      ensures ok <==> CasMarkReceiptDelayed(old(db.rows)[id]).Some?
      ensures row == if ok then old(row).(statusMessage := Some(RECEIPT_DELAYED)) else old(row)
    {
      var r := db.rows[id];
      AfterGrows(db.rows, id, CasMarkReceiptDelayed(r), 0, 1, "", Payload(0, r.order, 0));
      ok := r.status.Sent? && r.statusMessage != Some(RECEIPT_DELAYED);
      if ok {
        db.rows := db.rows[id := r.(statusMessage := Some(RECEIPT_DELAYED))];
        row := row.(statusMessage := Some(RECEIPT_DELAYED));
      }
    }

    /** The retry repeats the transfer, one count further, under the same root. */
    method CreateRetryTransaction(db: Database)
      requires db.Valid() && row.retryCount < row.maxRetries <= 255
      modifies db
      ensures db.rows == old(db.rows) + [RetryRow(id, row)] && Grows(old(db.rows), db.rows)
    {
      var root := if row.root.Some? then row.root.value else id;
      db.rows := db.rows + [NewRow(row.order, row.maxRetries).(retryCount := (row.retryCount + 1) % 256,
                                                               root := Some(root))];
    }

    /** handleFailedTransaction: whoever wins the transition, and only they, create the one retry. */
    method HandleFailed(db: Database, block: nat, message: string)
      requires db.Valid() && id < |db.rows| && block > 0 && row.maxRetries <= 255
      modifies this`row, db
      ensures var change := CasMarkFailedFromSent(old(db.rows)[id], block, message);
              db.rows == if change.None? then old(db.rows)
                         else old(db.rows)[id := change.value]
                              + if old(row).retryCount < old(row).maxRetries then [RetryRow(id, old(row))] else []
      ensures Grows(old(db.rows), db.rows)
    {
      var marked := MarkFailedFromSent(db, block, message);
      ghost var mid := db.rows;
      if marked && row.retryCount < row.maxRetries {
        CreateRetryTransaction(db);
        assert forall i :: 0 <= i < |mid| ==> db.rows[i] == mid[i];
      }
    }
  }

  // ---------------------------------------------------------------- listing a chain

  /** The ids of a chain in listing order: the root, then its retries by id. */
  method ListTransactionChain(db: Database, root: nat) returns (chain: seq<nat>)
    requires root < |db.rows|
    ensures chain == [root] + RetryIds(db.rows, root)
  {
    var retries, n := [], 0;
    while n < |db.rows|
      invariant n <= |db.rows| && retries == RetryIds(db.rows[..n], root)
    {
      assert db.rows[..n + 1][..n] == db.rows[..n];
      if db.rows[n].root == Some(root) {
        retries := retries + [n];
      }
      n := n + 1;
    }
    assert db.rows[..n] == db.rows;
    chain := [root] + retries;
  }

  /** The listing holds exactly the members of the chain, in id order. */
  lemma ChainAncestors(rows: seq<Row>, chain: seq<nat>, root: nat, id: nat)
    requires root < id < |rows| && rows[root].root.None? && chain == [root] + RetryIds(rows, root)
    ensures forall m :: 0 <= m < |chain| ==> chain[m] < |rows| && RootOf(rows, chain[m]) == root
    ensures forall j :: 0 <= j < |rows| && RootOf(rows, j) == root ==> j in chain
    ensures forall m, n :: 1 <= m < n < |chain| ==> chain[m] < chain[n]
  {
    RetryIdsMembers(rows, root);
    forall j | 0 <= j < |rows| && RootOf(rows, j) == root ensures j in chain {
      if j != root {
        assert j in RetryIds(rows, root);
      }
    }
  }

  lemma AncestorsChecked(rows: seq<Row>, chain: seq<nat>, root: nat, id: nat, n: nat, unsafe: bool)
    requires root < id < |rows| && rows[root].root.None? && rows[id].root == Some(root)
    requires |chain| > 0 && chain[0] == root && n <= |chain|
    requires forall m :: 0 <= m < |chain| ==> chain[m] < |rows| && RootOf(rows, chain[m]) == root
    requires forall j :: 0 <= j < |rows| && RootOf(rows, j) == root ==> j in chain
    requires forall m, k :: 1 <= m < k < |chain| ==> chain[m] < chain[k]
    requires unsafe <==> exists m :: 0 <= m < n && !IsProvenOnChainFailure(rows[chain[m]])
    requires forall m :: 0 <= m < n ==> chain[m] != id
    requires unsafe || n == |chain| || chain[n] == id
    ensures unsafe <==> !Protocol.AncestorsProven(rows, id, root)
  {
    assert RootOf(rows, id) == root;
    var p :| 0 <= p < |chain| && chain[p] == id;
    forall m | 0 <= m < n ensures chain[m] < id {
      assert n <= p;
    }
    forall j | 0 <= j < id && RootOf(rows, j) == root && !unsafe ensures IsProvenOnChainFailure(rows[j]) {
      var m :| 0 <= m < |chain| && chain[m] == j;
      assert n == p && m < n;
    }
  }

  // ---------------------------------------------------------------- classification and the gates

  /** `Blocking` is the first member that is neither confirmed nor provably failed. */
  datatype Outcome = Outcome(confirmed: nat, blocking: Option<nat>, allProvenFail: bool)

  predicate FirstUnsettled(list: seq<Row>, m: nat) {
    m < |list| && !SettledRow(list[m]) && forall k :: 0 <= k < m ==> SettledRow(list[k])
  }

  method ClassifyTransactionChain(list: seq<Row>) returns (o: Outcome)
    ensures o.confirmed == ConfirmedCount(list)
    ensures o.allProvenFail <==> AllProvenFail(list)
    ensures o.blocking.None? <==> AllSettled(list)
    ensures o.blocking.Some? ==> FirstUnsettled(list, o.blocking.value)
  {
    o := Outcome(0, None, true);
    var n := 0;
    while n < |list|
      invariant n <= |list| && o.confirmed == ConfirmedCount(list[..n])
      invariant o.allProvenFail <==> forall m :: 0 <= m < n ==> IsProvenTerminalFailure(list[m])
      invariant o.blocking.None? <==> forall m :: 0 <= m < n ==> SettledRow(list[m])
      invariant o.blocking.Some? ==> FirstUnsettled(list, o.blocking.value)
    {
      assert list[..n + 1][..n] == list[..n];
      var r := list[n];
      if r.status.Confirmed? {
        o := o.(confirmed := o.confirmed + 1, allProvenFail := false);
      } else if !IsProvenTerminalFailure(r) {
        o := o.(allProvenFail := false);
        if IsBlockingUncertainty(r) || r.status.Pending? || r.status.Sending? {
          if o.blocking.None? {
            o := o.(blocking := Some(n));
          }
        }
      }
      n := n + 1;
    }
    assert list[..n] == list;
  }

  /** The gate in front of the Relay's Reject call; an unattached record passes. */
  method EnsureRejectSafe(attached: Option<nat>, list: seq<Row>) returns (ok: bool)
    ensures ok <==> attached.None? || RejectSafe(list)
  {
    if attached.None? {
      return true;
    }
    var o := ClassifyTransactionChain(list);
    if o.confirmed > 0 {
      return false;
    }
    ok := o.allProvenFail;
  }

  /** The gate in front of the debit and of the Relay's Fulfill call. */
  method EnsureFulfillSafe(attached: Option<nat>, current: Option<Row>, list: seq<Row>) returns (ok: bool)
    ensures ok <==> attached.Some? && current.Some? && FulfillSafe(current.value, list)
  {
    if attached.None? || current.None? || !current.value.status.Confirmed? || current.value.txHash.None? {
      return false;
    }
    var o := ClassifyTransactionChain(list);
    if o.confirmed != 1 {
      return false;
    }
    var n := 0;
    ok := true;
    while n < |list| && ok
      invariant n <= |list|
      invariant ok <==> forall m :: 0 <= m < n ==> SettledRow(list[m])
    {
      ok := list[n].status.Confirmed? || IsProvenTerminalFailure(list[n]);
      n := n + 1;
    }
  }
}
