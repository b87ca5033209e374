/** The nonce cursor of one network's client (blockchain/client.go): unset, or the next nonce to use. */
module NonceCursor {
  import opened Wrappers
  import opened Transactions
  import opened Protocol
  import opened Invariants
  import opened Theorems

  /** One network's entry in the state machine's cursors. */
  function Cell(cursors: map<string, nat>, network: string): Option<nat> {
    if network in cursors then Some(cursors[network]) else None
  }

  /** `nonce` is above everything acknowledged. */
  ghost predicate Above(acknowledged: set<nat>, nonce: nat) {
    forall n :: n in acknowledged ==> n < nonce
  }

  class Client {
    var next: Option<nat>

    /** The nonces of all payloads acknowledged through this client. */
    ghost var acknowledged: set<nat>

    /** A cursor that is set lies above every acknowledged nonce. */
    ghost predicate Valid() reads this {
      next.Some? ==> Above(acknowledged, next.value)
    }

    constructor ()
      ensures Valid() && next == None && acknowledged == {}
    {
      next := None;
      acknowledged := {};
    }

    /**
      The nonce handed out was never acknowledged before, whether it is remembered or comes from the node;
      asking again before the next acknowledgement or error gives the same one.
    */
    method GetNonce(pending: nat) returns (nonce: nat)
      requires Valid() && Above(acknowledged, pending)
      modifies this`next
      ensures Valid() && Above(acknowledged, nonce) && nonce !in acknowledged
      ensures next == Some(nonce) && (old(next).Some? ==> next == old(next)) && (old(next).None? ==> nonce == pending)
    {
      if next.None? {
        next := Some(pending);
      }
      nonce := next.value;
    }

    /**
      An acknowledged nonce is never handed out again, and the cursor never moves back. A forgotten cursor needs the
      newest nonce.
    */
    method AdvanceNoncePast(nonce: nat)
      requires Valid() && (next.None? ==> Above(acknowledged, nonce + 1))
      modifies this
      ensures Valid() && acknowledged == old(acknowledged) + {nonce}
      ensures next.Some? && next.value > nonce && (old(next).Some? ==> next.value >= old(next).value)
      ensures next.value == nonce + 1 || next == old(next)
    {
      if next.None? || next.value < nonce + 1 {
        next := Some(nonce + 1);
      }
      acknowledged := acknowledged + {nonce};
    }

    /** Forgetting the cursor after a nonce error loses no acknowledgement: the next answer is above them all. */
    method ProcessSendingTxError(isNonceError: bool)
      requires Valid()
      modifies this`next
      ensures Valid() && acknowledged == old(acknowledged)
      ensures if isNonceError then next.None? else next == old(next)
    {
      if isNonceError {
        next := None;
      }
    }
  }

  // ---------------------------------------------------------------- the same cursor in the state machine

  /** Only the entry of `network` may differ. */
  ghost predicate OnlyCell(before: map<string, nat>, after: map<string, nat>, network: string) {
    forall other :: other != network ==> Cell(after, other) == Cell(before, other)
  }

  /** Taking a nonce is `GetNonce` on the network's entry, with the acknowledged rows as the acknowledged nonces. */
  lemma TakeIsGetNonce(s: State, pending: nat, s': State)
    requires CursorsOk(s.rows, s.cursors) && SenderTakeNonce(s, pending) == Some(s')
    ensures s'.sender.HasNonce?
    ensures var network, nonce := s.sender.copy.order.network, s'.sender.nonce;
            && AboveAcknowledged(s.rows, network, nonce) && Cell(s'.cursors, network) == Some(nonce)
            && (Cell(s.cursors, network).Some? ==> Cell(s'.cursors, network) == Cell(s.cursors, network))
            && (Cell(s.cursors, network).None? ==> nonce == pending)
            && OnlyCell(s.cursors, s'.cursors, network)
  {
  }

  /** An acknowledgement is `AdvanceNoncePast` on the network's entry. */
  lemma AcknowledgeIsAdvance(cursors: map<string, nat>, network: string, nonce: nat)
    ensures var after := AdvancePast(cursors, network, nonce);
            && Cell(after, network).Some? && Cell(after, network).value > nonce
            && (network in cursors ==> Cell(after, network).value >= cursors[network])
            && (Cell(after, network) == Some(nonce + 1) || after == cursors)
            && OnlyCell(cursors, after, network)
  {
  }

  /** What the sender acknowledges is always the newest nonce of its network, so a forgotten cursor does no harm. */
  lemma AcknowledgesNewest(c: Config, s: State)
    requires Reachable(c, s) && s.sender.Acknowledging? && s.sender.copy.nonce.Some?
    ensures AboveAcknowledged(s.rows, s.sender.copy.order.network, s.sender.copy.nonce.value)
  {
    ReachableInv(c, s);
    NewestIsLast(s.rows, s.sender.id, s.sender.copy);
  }

  lemma NewestIsLast(rows: seq<Row>, id: nat, copy: Row)
    requires OnlyLastLive(rows) && NoncesIncrease(rows) && Committed(rows, id, copy) && copy.nonce.Some?
    ensures AboveAcknowledged(rows, copy.order.network, copy.nonce.value)
  {
    assert id == |rows| - 1 && rows[id].nonce == copy.nonce;
  }

  /** Forgetting a nonce is `ProcessSendingTxError` with a nonce error, and touches no row. */
  lemma ForgetIsError(s: State, network: string, s': State)
    requires SenderForgetNonce(s, network) == Some(s')
    ensures Cell(s'.cursors, network) == None && OnlyCell(s.cursors, s'.cursors, network) && s'.rows == s.rows
  {
  }
}
