/**
  Runs built step by step: how the sender takes a waiting row to the network, how a confirmer settles it, and,
  for every request the wallet would accept, one complete payout. Other modules continue these runs to show
  that a state can really be reached.
*/
module SampleRun {
  import opened Wrappers
  import opened Transactions
  import opened Chains
  import opened RelayLedger
  import opened Protocol
  import opened Invariants
  import opened Theorems

  // ---------------------------------------------------------------- building runs

  ghost function Exec(c: Config, s: State, steps: seq<Step>): Option<State> {
    if steps == [] then Some(s)
    else
      match Exec(c, s, steps[..|steps| - 1])
      case None => None
      case Some(t) => Next(c, t, steps[|steps| - 1])
  }

  ghost predicate Goes(c: Config, s: State, t: State) {
    exists steps :: Exec(c, s, steps) == Some(t)
  }

  lemma Here(c: Config, s: State)
    ensures Goes(c, s, s)
  {
    assert Exec(c, s, []) == Some(s);
  }

  lemma Then(c: Config, s: State, t: State, step: Step, u: State)
    requires Goes(c, s, t) && Next(c, t, step) == Some(u)
    ensures Goes(c, s, u)
  {
    var steps :| Exec(c, s, steps) == Some(t);
    assert (steps + [step])[..|steps|] == steps && (steps + [step])[|steps|] == step;
    assert Exec(c, s, steps + [step]) == Some(u);
  }

  lemma {:induction false} ExecRuns(c: Config, s: State, steps: seq<Step>) returns (states: seq<State>)
    requires Init(c, s) && Exec(c, s, steps).Some?
    ensures Run(c, states, steps) && states[0] == s && states[|steps|] == Exec(c, s, steps).value
  {
    if steps == [] {
      states := [s];
    } else {
      var n := |steps| - 1;
      var before := ExecRuns(c, s, steps[..n]);
      states := before + [Exec(c, s, steps).value];
      forall i | 0 <= i < |steps| ensures Next(c, states[i], steps[i]) == Some(states[i + 1]) {
        if i < n {
          assert Next(c, before[i], steps[..n][i]) == Some(before[i + 1]);
        }
      }
    }
  }

  lemma GoesIsReachable(c: Config, s: State, t: State)
    requires Init(c, s) && Goes(c, s, t)
    ensures Reachable(c, t)
  {
    var steps :| Exec(c, s, steps) == Some(t);
    var states := ExecRuns(c, s, steps);
  }

  // ---------------------------------------------------------------- how the sender takes a row to the network

  /** Row `id` can be claimed: it is untouched, nothing else is in flight, and its ancestors are proven failures. */
  ghost predicate Ready(c: Config, s: State, id: nat) {
    && s.up && s.sender.Idle? && id < |s.rows|
    && s.rows[id].status.Pending? && s.rows[id].txHash.None? && s.rows[id].signedRaw.None?
    && s.rows[id].cancelRequestedAt.None?
    && (forall i :: 0 <= i < |s.rows| ==> !s.rows[i].status.Sent? && !s.rows[i].status.Broadcasting?)
    && (s.rows[id].root.Some? ==> AncestorsProven(s.rows, id, s.rows[id].root.value))
    && SentLimit(c, s.rows[id].order.network) >= 1
  }

  lemma {:induction false} NoneInFlight(rows: seq<Row>, network: string)
    requires forall i :: 0 <= i < |rows| ==> !rows[i].status.Sent? && !rows[i].status.Broadcasting?
    ensures InFlight(rows, network) == 0
  {
    if rows != [] {
      NoneInFlight(rows[..|rows| - 1], network);
    }
  }

  lemma SendClaims(c: Config, start: State, s: State, id: nat)
    requires Goes(c, start, s) && Ready(c, s, id)
    ensures var r := s.rows[id].(status := Sending);
            Goes(c, start, s.(rows := s.rows[id := r], sender := Claimed(id, r)))
  {
    var r := s.rows[id];
    Then(c, start, s, SenderMoves(Sync(id)), s.(sender := Synced(id, r)));
    Then(c, start, s.(sender := Synced(id, r)), SenderMoves(Check), s.(sender := Checked(id, r)));
    var claimed := r.(status := Sending);
    Then(c, start, s.(sender := Checked(id, r)), SenderMoves(Claim),
         s.(rows := s.rows[id := claimed], sender := Claimed(id, claimed)));
  }

  /** The claimed row is signed with nonce and hash that are free. */
  ghost predicate Signable(s: State, id: nat, p: Payload) {
    && s.up && id < |s.rows| && s.rows[id].status.Sending? && s.sender == Claimed(id, s.rows[id])
    && s.rows[id].txHash.None? && s.rows[id].signedRaw.None? && s.rows[id].cancelRequestedAt.None?
    && p.order == s.rows[id].order && AboveAcknowledged(s.rows, p.order.network, p.nonce) && !HashTaken(s.rows, p.hash)
    && (p.order.network in s.cursors ==> s.cursors[p.order.network] == p.nonce)
  }

  lemma SendSigns(c: Config, start: State, s: State, id: nat, p: Payload)
    requires Goes(c, start, s) && Signable(s, id, p) && SentLimit(c, p.order.network) >= 1
    requires forall i :: 0 <= i < |s.rows| ==> !s.rows[i].status.Sent? && !s.rows[i].status.Broadcasting?
    ensures Goes(c, start, s.(sender := Signed(id, s.rows[id], p), cursors := s.cursors[p.order.network := p.nonce]))
  {
    var r, cursors := s.rows[id], s.cursors[p.order.network := p.nonce];
    NoneInFlight(s.rows, p.order.network);
    Then(c, start, s, SenderMoves(CheckLimit), s.(sender := Allowed(id, r)));
    var t := s.(sender := HasNonce(id, r, p.nonce), cursors := cursors);
    Then(c, start, s.(sender := Allowed(id, r)), SenderMoves(TakeNonce(p.nonce)), t);
    Then(c, start, t, SenderMoves(Sign(p)), s.(sender := Signed(id, r, p), cursors := cursors));
  }

  function Prepare(r: Row, p: Payload): Row {
    r.(status := Broadcasting, txHash := Some(p.hash), nonce := Some(p.nonce), signedRaw := Some(p))
  }

  lemma SendPrepares(c: Config, start: State, s: State, id: nat, p: Payload)
    requires s.up && id < |s.rows| && s.rows[id].status.Sending?
    requires Goes(c, start, s.(sender := Signed(id, s.rows[id], p)))
    requires s.rows[id].txHash.None? && s.rows[id].signedRaw.None? && s.rows[id].cancelRequestedAt.None?
    requires !HashTaken(s.rows, p.hash)
    ensures var r := Prepare(s.rows[id], p);
            Goes(c, start, s.(rows := s.rows[id := r], sender := Prepared(id, r)))
  {
    var r := Prepare(s.rows[id], p);
    Then(c, start, s.(sender := Signed(id, s.rows[id], p)), SenderMoves(SenderStep.Prepare),
         s.(rows := s.rows[id := r], sender := Prepared(id, r)));
  }

  /** The blockchain after `p` has been submitted for row `id` and has reached the network. */
  function Reached(chain: Chain, id: nat, p: Payload): Chain {
    chain.(known := chain.known + {TxKey(p.order.network, p.hash)}, sends := chain.sends + [Send(id, p)])
  }

  lemma SendSubmits(c: Config, start: State, s: State, id: nat, p: Payload)
    requires s.up && id < |s.rows| && p.order == s.rows[id].order
    requires var r := Prepare(s.rows[id], p); Goes(c, start, s.(rows := s.rows[id := r], sender := Prepared(id, r)))
    requires p.order.network in s.cursors && s.cursors[p.order.network] == p.nonce
    ensures var r := Prepare(s.rows[id], p).(status := Sent, sentAt := Some(s.now));
            Goes(c, start, s.(rows := s.rows[id := r], sender := Idle, chain := Reached(s.chain, id, p),
                              cursors := s.cursors[p.order.network := p.nonce + 1]))
  {
    var r := Prepare(s.rows[id], p);
    var rows, chain := s.rows[id := r], Reached(s.chain, id, p);
    assert rows[id] == r && KeyOf(r) == TxKey(p.order.network, p.hash);
    var t := s.(rows := rows, sender := Acknowledging(id, r), chain := chain);
    Then(c, start, s.(rows := rows, sender := Prepared(id, r)), SenderMoves(Submit(true, true)), t);
    var sent := r.(status := Sent, sentAt := Some(s.now));
    assert rows[id := sent] == s.rows[id := sent];
    Then(c, start, t, SenderMoves(Acknowledge),
         s.(rows := s.rows[id := sent], sender := Idle, chain := chain,
            cursors := s.cursors[p.order.network := p.nonce + 1]));
  }

  /** The state after the sender has taken row `id` to the network with payload `p`. */
  function Delivered(s: State, id: nat, p: Payload): State
    requires id < |s.rows|
  {
    var r := Prepare(s.rows[id], p).(status := Sent, sentAt := Some(s.now));
    s.(rows := s.rows[id := r], chain := Reached(s.chain, id, p), cursors := s.cursors[p.order.network := p.nonce + 1])
  }

  lemma Sends(c: Config, start: State, s: State, id: nat, p: Payload)
    requires Goes(c, start, s) && Ready(c, s, id)
    requires p.order == s.rows[id].order && AboveAcknowledged(s.rows, p.order.network, p.nonce)
    requires !HashTaken(s.rows, p.hash)
    requires p.order.network in s.cursors ==> s.cursors[p.order.network] == p.nonce
    ensures Goes(c, start, Delivered(s, id, p))
  {
    SendClaims(c, start, s, id);
    var r := s.rows[id].(status := Sending);
    var t := s.(rows := s.rows[id := r], sender := Claimed(id, r));
    assert forall i :: 0 <= i < |s.rows| && i != id ==> t.rows[i] == s.rows[i];
    SendSigns(c, start, t, id, p);
    var u := t.(cursors := t.cursors[p.order.network := p.nonce]);
    SendPrepares(c, start, u, id, p);
    SendSubmits(c, start, u, id, p);
    DeliveredIs(s, id, p);
  }

  lemma DeliveredIs(s: State, id: nat, p: Payload)
    requires id < |s.rows| && s.sender.Idle?
    ensures var r := s.rows[id].(status := Sending);
            var u := s.(rows := s.rows[id := r], sender := Claimed(id, r),
                        cursors := s.cursors[p.order.network := p.nonce]);
            var sent := Prepare(u.rows[id], p).(status := Sent, sentAt := Some(u.now));
            u.(rows := u.rows[id := sent], sender := Idle, chain := Reached(u.chain, id, p),
               cursors := u.cursors[p.order.network := p.nonce + 1]) == Delivered(s, id, p)
  {
    var r := s.rows[id].(status := Sending);
    var sent := Prepare(r, p).(status := Sent, sentAt := Some(s.now));
    assert s.rows[id := r][id := sent] == s.rows[id := sent];
    var network := p.order.network;
    assert s.cursors[network := p.nonce][network := p.nonce + 1] == s.cursors[network := p.nonce + 1];
  }

  // ---------------------------------------------------------------- how the network and a confirmer settle it

  /** The state after `key` has been mined and buried as deep as its network requires. */
  function Buried(c: Config, s: State, key: TxKey, ok: bool): State {
    var block := Head(s.chain, key.network) + 1;
    s.(chain := s.chain.(heads := s.chain.heads[key.network := block + Depth(c, key.network)],
                         receipts := s.chain.receipts[key := Receipt(ok, block)]))
  }

  lemma Mines(c: Config, start: State, s: State, key: TxKey, ok: bool)
    requires Goes(c, start, s) && key in s.chain.known && key !in s.chain.receipts
    ensures Goes(c, start, Buried(c, s, key, ok))
  {
    var block := Head(s.chain, key.network) + 1;
    var t := s.(chain := s.chain.(heads := s.chain.heads[key.network := block],
                                  receipts := s.chain.receipts[key := Receipt(ok, block)]));
    Then(c, start, s, EnvMoves(MineTx(key, ok)), t);
    var deep := block + Depth(c, key.network);
    assert t.chain.heads[key.network := deep] == s.chain.heads[key.network := deep];
    Then(c, start, t, EnvMoves(GrowChain(key.network, Depth(c, key.network))), Buried(c, s, key, ok));
  }

  /** A confirmer that starts now finds a receipt that is deep enough. */
  ghost predicate Settleable(c: Config, s: State, id: nat) {
    && s.up && s.jobs == map[] && id < |s.rows| && |s.owners| == |s.rows|
    && s.rows[id].status.Sent? && s.rows[id].txHash.Some? && s.rows[id].sentAt.Some?
    && Irrevocable(c, s.chain, KeyOf(s.rows[id]))
  }

  lemma ReadsReceipt(c: Config, start: State, s: State, id: nat)
    requires Goes(c, start, s) && Settleable(c, s, id)
    ensures Goes(c, start, s.(jobs := map[0 := Job(id, s.rows[id], Some(s.chain.receipts[KeyOf(s.rows[id])]))]))
  {
    var job := Job(id, s.rows[id], Some(s.chain.receipts[KeyOf(s.rows[id])]));
    var t := s.(jobs := map[0 := Job(id, s.rows[id], None)]);
    Then(c, start, s, JobMoves(0, Fetch(id)), t);
    assert t.jobs[0 := job] == map[0 := job];
    Then(c, start, t, JobMoves(0, ReadReceipt), s.(jobs := map[0 := job]));
  }

  lemma Confirms(c: Config, start: State, s: State, id: nat)
    requires Goes(c, start, s) && Settleable(c, s, id) && s.chain.receipts[KeyOf(s.rows[id])].ok
    ensures var r := s.rows[id].(status := Confirmed, blockNumber := Some(s.chain.receipts[KeyOf(s.rows[id])].block));
            Goes(c, start, s.(rows := s.rows[id := r]))
  {
    ReadsReceipt(c, start, s, id);
    var receipt := s.chain.receipts[KeyOf(s.rows[id])];
    var r := s.rows[id].(status := Confirmed, blockNumber := Some(receipt.block));
    var t := s.(jobs := map[0 := Job(id, s.rows[id], Some(receipt))]);
    assert t.jobs - {0} == map[];
    Then(c, start, t, JobMoves(0, Confirm), s.(rows := s.rows[id := r]));
  }

  /** The state after row `id` has failed with this receipt and reason, its retry included. */
  function Lost(s: State, id: nat, block: nat, reason: string): State
    requires id < |s.rows| == |s.owners|
  {
    var r := s.rows[id].(status := Failed, blockNumber := Some(block), statusMessage := Some(reason));
    if r.retryCount < r.maxRetries
    then s.(rows := s.rows[id := r] + [RetryRow(id, s.rows[id])], owners := s.owners + [s.owners[id]])
    else s.(rows := s.rows[id := r])
  }

  lemma FailsHeld(c: Config, start: State, s: State, id: nat, receipt: Receipt, reason: string)
    requires s.up && id < |s.rows| == |s.owners| && s.rows[id].status.Sent? && s.rows[id].txHash.Some? && !receipt.ok
    requires Goes(c, start, s.(jobs := map[0 := Job(id, s.rows[id], Some(receipt))])) && s.jobs == map[]
    requires var w := s.rows[id].order.network;
             w in c.networks && Head(s.chain, w) >= receipt.block + c.networks[w].depth
    ensures Goes(c, start, Lost(s, id, receipt.block, reason))
  {
    var t := s.(jobs := map[0 := Job(id, s.rows[id], Some(receipt))]);
    assert t.jobs - {0} == map[];
    Then(c, start, t, JobMoves(0, Fail(reason)), Lost(s, id, receipt.block, reason));
  }

  // ---------------------------------------------------------------- the first row, from unsent to confirmed

  const FIRST := 1

  /** Nothing has been sent yet; the one row waits, and the processor may be anywhere. */
  ghost predicate Unsent(c: Config, b: State) {
    && b.up && b.sender.Idle? && b.jobs == map[] && b.cursors == map[] && b.chain == Chain(map[], {}, map[], [])
    && |b.rows| == 1 && b.rows[0] == NewRow(b.rows[0].order, b.rows[0].maxRetries) && b.owners == [0]
    && SentLimit(c, Net(b)) >= 1
  }

  function Net(b: State): string
    requires |b.rows| == 1
  {
    b.rows[0].order.network
  }

  function Signature(b: State): Payload
    requires |b.rows| == 1
  {
    Payload(FIRST, b.rows[0].order, 0)
  }

  function FirstKey(b: State): TxKey
    requires |b.rows| == 1
  {
    TxKey(Net(b), FIRST)
  }

  function SentRow(b: State): Row
    requires |b.rows| == 1
  {
    Prepare(b.rows[0], Signature(b)).(status := Sent, sentAt := Some(b.now))
  }

  function SentChain(b: State): Chain
    requires |b.rows| == 1
  {
    Chain(map[], {FirstKey(b)}, map[], [Send(0, Signature(b))])
  }

  function Submitted(b: State): State
    requires |b.rows| == 1
  {
    b.(rows := [SentRow(b)], chain := SentChain(b), cursors := map[Net(b) := 1])
  }

  lemma ReachSubmitted(c: Config, start: State, b: State)
    requires Unsent(c, b) && Goes(c, start, b)
    ensures Goes(c, start, Submitted(b))
  {
    Sends(c, start, b, 0, Signature(b));
    assert {} + {FirstKey(b)} == {FirstKey(b)} && [] + [Send(0, Signature(b))] == [Send(0, Signature(b))];
    assert b.rows[0 := SentRow(b)] == [SentRow(b)] && map[][Net(b) := 1] == map[Net(b) := 1];
    assert Delivered(b, 0, Signature(b)) == Submitted(b);
  }

  function DeepChain(c: Config, b: State, ok: bool): Chain
    requires |b.rows| == 1
  {
    SentChain(b).(heads := map[Net(b) := 1 + Depth(c, Net(b))], receipts := map[FirstKey(b) := Receipt(ok, 1)])
  }

  lemma ReachBuried(c: Config, start: State, b: State, ok: bool)
    requires |b.rows| == 1 && Goes(c, start, Submitted(b))
    ensures Goes(c, start, Submitted(b).(chain := DeepChain(c, b, ok)))
  {
    Mines(c, start, Submitted(b), FirstKey(b), ok);
    assert map[][Net(b) := 1 + Depth(c, Net(b))] == map[Net(b) := 1 + Depth(c, Net(b))];
    assert map[][FirstKey(b) := Receipt(ok, 1)] == map[FirstKey(b) := Receipt(ok, 1)];
  }

  function PaidRow(b: State): Row
    requires |b.rows| == 1
  {
    SentRow(b).(status := Confirmed, blockNumber := Some(1))
  }

  /** The row is confirmed; everything else is as in `b`. */
  function Settled(c: Config, b: State): State
    requires |b.rows| == 1
  {
    Submitted(b).(rows := [PaidRow(b)], chain := DeepChain(c, b, true))
  }

  lemma ReachSettled(c: Config, start: State, b: State)
    requires Unsent(c, b) && Goes(c, start, b)
    ensures Goes(c, start, Settled(c, b))
  {
    ReachSubmitted(c, start, b);
    ReachBuried(c, start, b, true);
    Confirms(c, start, Submitted(b).(chain := DeepChain(c, b, true)), 0);
    assert [SentRow(b)][0 := PaidRow(b)] == [PaidRow(b)];
  }

  lemma SoleRow(r: Row)
    requires r.root.None?
    ensures Listing([r], 0, r) == [r] && ReadCurrent([r], 0, r) == Held(0, r) && CurrentId([r], 0) == 0
  {
    assert RetryIds([r], 0) == RetryIds([], 0) by {
      assert [r][..0] == [];
    }
  }

  lemma SoleRowIsPaid(b: State)
    requires |b.rows| == 1 && b.rows[0].root.None?
    ensures var r := PaidRow(b);
            Listing([r], 0, r) == [r] && FulfillSafe(r, [r])
            && ReadCurrent([r], 0, r) == Held(0, r)
  {
    SoleRow(PaidRow(b));
    assert [PaidRow(b)][..0] == [];
  }

  // ---------------------------------------------------------------- from a request to a waiting row

  /** The wallet would store `q` as pending, and can pay on its network. */
  predicate CanPay(c: Config, q: Record) {
    c.batchSize >= 1 && Storable(c, q) && q.status.WPending? && c.networks[q.request.network].sentLimit >= 1
  }

  function Attached(q: Record): Record {
    q.(txId := Some(0))
  }

  function FirstRow(c: Config, q: Record): Row
    requires CanPay(c, q)
  {
    NewRow(OrderFor(c, q).value, c.networks[q.request.network].maxRetries)
  }

  /** An empty database, with an account that covers the request. */
  function Start(q: Record): State {
    var accounts := map[q.request.address := (q.request.amount + q.fee) as int];
    State([], [], [], Ledger(accounts, map[], [], Checkpoint(0, 0)), [], accounts, Chain(map[], {}, map[], []),
          Idle, map[], map[], Resting, 0, [], false, q.createdAt, History({}, {}, map[], {}))
  }

  function Fetched(q: Record): State {
    Start(q).(up := true, records := [q], queue := [Ticket(0, q)])
  }

  lemma BatchOfOne(c: Config, r: Record)
    requires c.batchSize >= 1 && !Finished(r)
    ensures Unfinished([r], 0, c.batchSize) == [Ticket(0, r)]
  {
    assert Unfinished([r], 1, c.batchSize - 1) == [];
  }

  lemma ReachFetched(c: Config, q: Record)
    requires CanPay(c, q)
    ensures Goes(c, Start(q), Fetched(q))
  {
    var s := Start(q);
    Here(c, s);
    assert RecoverRows([]) == [] && [] + [q] == [q];
    Then(c, s, s, EnvMoves(BootUp(map[], false)), s.(up := true));
    Then(c, s, s.(up := true), EnvMoves(NewRecord(q)), s.(up := true, records := [q]));
    BatchOfOne(c, q);
    Then(c, s, s.(up := true, records := [q]), ProcMoves(FetchBatch), Fetched(q));
  }

  function Gated(q: Record): State {
    Start(q).(up := true, records := [q], proc := Gate(0, q))
  }

  lemma ReachGate(c: Config, q: Record, any: Row)
    requires CanPay(c, q) && Goes(c, Start(q), Fetched(q))
    ensures Goes(c, Start(q), Gated(q))
  {
    var s := Start(q);
    var t := Fetched(q).(queue := [], proc := Entry(0, q));
    assert Fetched(q).queue[1..] == [] && q.(fingerprint := Some(Fingerprint(c, q))) == q;
    Then(c, s, Fetched(q), ProcMoves(Begin), t);
    Then(c, s, t, ProcMoves(Enter), t.(proc := Top(0, q, None)));
    Then(c, s, t.(proc := Top(0, q, None)), ProcMoves(TopOf(any)), t.(proc := Authorize(0, q)));
    Then(c, s, t.(proc := Authorize(0, q)), ProcMoves(Authorized), Gated(q));
  }

  /** The record has got its row, and the processor polls it. */
  function Polling(c: Config, q: Record): State
    requires CanPay(c, q)
  {
    Start(q).(up := true, records := [Attached(q)], rows := [FirstRow(c, q)], owners := [0],
              history := History({}, {}, map[0 := GateSeen(q.request.amount + q.fee, 0)], {}),
              proc := Poll(0, Attached(q), Some(Held(0, FirstRow(c, q)))))
  }

  lemma ReachPoll(c: Config, q: Record)
    requires CanPay(c, q) && Goes(c, Start(q), Gated(q))
    ensures Goes(c, Start(q), Polling(c, q))
  {
    var t := Gated(q).(proc := Attach(0, q, q.request.amount + q.fee, 0));
    Then(c, Start(q), Gated(q), ProcMoves(GateCheck), t);
    assert [] + [FirstRow(c, q)] == [FirstRow(c, q)] && [] + [0] == [0] && [q][0 := Attached(q)] == [Attached(q)];
    assert map[][0 := GateSeen(q.request.amount + q.fee, 0)] == map[0 := GateSeen(q.request.amount + q.fee, 0)];
    Then(c, Start(q), t, ProcMoves(AttachRow), Polling(c, q));
  }

  lemma ReachUnsent(c: Config, q: Record)
    requires CanPay(c, q)
    ensures Goes(c, Start(q), Polling(c, q)) && Unsent(c, Polling(c, q)) && Net(Polling(c, q)) == q.request.network
  {
    ReachFetched(c, q);
    ReachGate(c, q, FirstRow(c, q));
    ReachPoll(c, q);
  }

  // ---------------------------------------------------------------- the payout

  /** The row is confirmed, the record and the processor are as given. */
  function Paying(c: Config, q: Record, rec: Record, p: Proc): State
    requires CanPay(c, q)
  {
    Settled(c, Polling(c, q)).(records := [rec], proc := p)
  }

  function Payment(c: Config, q: Record): Held
    requires CanPay(c, q)
  {
    Held(0, PaidRow(Polling(c, q)))
  }

  /** The row is confirmed and the processor is about to debit. */
  lemma ReachDue(c: Config, q: Record)
    requires CanPay(c, q)
    ensures Goes(c, Start(q), Paying(c, q, Attached(q), Debit(0, Attached(q), Some(Payment(c, q)))))
  {
    var b, rec := Polling(c, q), Attached(q);
    ReachUnsent(c, q);
    ReachSettled(c, Start(q), b);
    SoleRowIsPaid(b);
    var t := Paying(c, q, rec, Poll(0, rec, Some(Payment(c, q))));
    Then(c, Start(q), Settled(c, b), ProcMoves(PollRow(PaidRow(b))), t);
    Then(c, Start(q), t, ProcMoves(PollRow(PaidRow(b))), Paying(c, q, rec, Debit(0, rec, Some(Payment(c, q)))));
  }

  /** As `Paying`, after the debit. */
  function Drained(c: Config, q: Record, rec: Record, p: Proc): State
    requires CanPay(c, q)
  {
    var s := Paying(c, q, rec, p);
    s.(ledger := s.ledger.(accounts := map[q.request.address := 0]))
  }

  lemma ReachDebited(c: Config, q: Record)
    requires CanPay(c, q) && Goes(c, Start(q), Paying(c, q, Attached(q), Debit(0, Attached(q), Some(Payment(c, q)))))
    ensures var rec := Attached(q).(status := WSuccess);
            Goes(c, Start(q), Drained(c, q, rec, Top(0, rec, Some(Payment(c, q)))))
  {
    var rec, held := Attached(q), Some(Payment(c, q));
    var rec' := rec.(status := WSuccess);
    var a := q.request.address;
    assert [rec][0 := rec'] == [rec'] && map[a := (q.request.amount + q.fee) as int][a := 0] == map[a := 0];
    Then(c, Start(q), Paying(c, q, rec, Debit(0, rec, held)), ProcMoves(DebitAccount),
         Drained(c, q, rec', Top(0, rec', held)));
  }

  lemma ReachReport(c: Config, q: Record)
    requires CanPay(c, q)
    requires var rec := Attached(q).(status := WSuccess);
             Goes(c, Start(q), Drained(c, q, rec, Top(0, rec, Some(Payment(c, q)))))
    ensures var rec := Attached(q).(status := WSuccess);
            Goes(c, Start(q), Drained(c, q, rec, Fulfill(0, rec, Some(Payment(c, q)))))
  {
    var rec, held, r := Attached(q).(status := WSuccess), Some(Payment(c, q)), PaidRow(Polling(c, q));
    SoleRowIsPaid(Polling(c, q));
    var t := Drained(c, q, rec, Finish(0, rec, held));
    Then(c, Start(q), Drained(c, q, rec, Top(0, rec, held)), ProcMoves(TopOf(r)), t);
    Then(c, Start(q), t, ProcMoves(FinishRecord(r)), Drained(c, q, rec, Fulfill(0, rec, held)));
  }

  function PaidHistory(q: Record): History {
    History({}, {(0, FIRST)}, map[0 := GateSeen(q.request.amount + q.fee, 0)], {})
  }

  function PaidOut(c: Config, q: Record): State
    requires CanPay(c, q)
  {
    var rec := Attached(q).(status := WFinished);
    Drained(c, q, rec, Done(0, rec)).(history := PaidHistory(q))
  }

  lemma ReachPaidOut(c: Config, q: Record)
    requires CanPay(c, q)
    requires var rec := Attached(q).(status := WSuccess);
             Goes(c, Start(q), Drained(c, q, rec, Fulfill(0, rec, Some(Payment(c, q)))))
    ensures Goes(c, Start(q), PaidOut(c, q))
  {
    var rec, held := Attached(q).(status := WSuccess), Some(Payment(c, q));
    var t := Drained(c, q, rec, FulfillWrite(0, rec, held)).(history := PaidHistory(q));
    assert {} + {(0, FIRST)} == {(0, FIRST)};
    Then(c, Start(q), Drained(c, q, rec, Fulfill(0, rec, held)), ProcMoves(CallFulfill), t);
    ReachWritten(c, q);
  }

  lemma ReachWritten(c: Config, q: Record)
    requires CanPay(c, q)
    requires var rec := Attached(q).(status := WSuccess);
             Goes(c, Start(q), Drained(c, q, rec, FulfillWrite(0, rec,
                                                               Some(Payment(c, q)))).(history := PaidHistory(q)))
    ensures Goes(c, Start(q), PaidOut(c, q))
  {
    var rec, held := Attached(q).(status := WSuccess), Some(Payment(c, q));
    var t := Drained(c, q, rec, FulfillWrite(0, rec, held)).(history := PaidHistory(q));
    assert [rec][0 := rec.(status := WFinished)] == [rec.(status := WFinished)];
    Then(c, Start(q), t, ProcMoves(WriteFinished), PaidOut(c, q));
  }

  /**
    Every request that the wallet would store as pending, on a network it can pay on, is taken by some run from
    its arrival to Fulfill: claimed, signed, submitted, mined, confirmed, debited once and finished.
  */
  lemma PayoutCompletes(c: Config, q: Record)
    requires CanPay(c, q)
    ensures Reachable(c, PaidOut(c, q))
    ensures var s := PaidOut(c, q);
            && s.records == [Attached(q).(status := WFinished)] && (0, FIRST) in s.history.fulfills
            && s.rows[0].status.Confirmed? && Serves(c, q.request, s.rows[0].order)
            && Balance(s.ledger.accounts, q.request.address)
               == Balance(s.opening, q.request.address) - q.request.amount - q.fee
  {
    ReachDue(c, q);
    ReachDebited(c, q);
    ReachReport(c, q);
    ReachPaidOut(c, q);
    GoesIsReachable(c, Start(q), PaidOut(c, q));
  }
}
