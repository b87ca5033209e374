/**
  One payout per record rests on one assumption about the blockchain: that a receipt does not vanish between
  a confirmer's read of it and its read of the chain head. A reverted receipt that has been reorganised away
  then passes for deep enough, its row is failed and retried, and both payloads succeed. This is that run.
*/
module PaidTwice {
  import opened Wrappers
  import opened Transactions
  import opened Chains
  import opened RelayLedger
  import opened Protocol
  import opened Invariants
  import opened Theorems
  import opened SampleRun

  const REASON := "reverted"

  /** The wallet can pay `q`, retries at least once, and waits for at least one block before it believes a receipt. */
  predicate CanRetry(c: Config, q: Record) {
    && CanPay(c, q)
    && c.networks[q.request.network].maxRetries >= 1 && c.networks[q.request.network].depth >= 1
  }

  /** The first row has been sent and polling goes on. */
  function Confirming(c: Config, q: Record): State
    requires CanRetry(c, q)
  {
    Submitted(Polling(c, q))
  }

  function Reading(c: Config, q: Record): map<nat, Job>
    requires CanRetry(c, q)
  {
    map[0 := Job(0, SentRow(Polling(c, q)), Some(Receipt(false, 1)))]
  }

  function Key1(c: Config, q: Record): TxKey
    requires CanRetry(c, q)
  {
    FirstKey(Polling(c, q))
  }

  /** The payload has been reverted in the newest block. */
  function MinedChain(c: Config, q: Record): Chain
    requires CanRetry(c, q)
  {
    SentChain(Polling(c, q)).(heads := map[q.request.network := 1], receipts := map[Key1(c, q) := Receipt(false, 1)])
  }

  /** The receipt has been read and is gone; the head has moved on by the required depth. */
  function Vanished(c: Config, q: Record): State
    requires CanRetry(c, q)
  {
    var w := q.request.network;
    Confirming(c, q).(chain := SentChain(Polling(c, q)).(heads := map[w := 1 + c.networks[w].depth]))
  }

  lemma ReachRead(c: Config, q: Record)
    requires CanRetry(c, q) && Goes(c, Start(q), Confirming(c, q))
    ensures Goes(c, Start(q), Confirming(c, q).(chain := MinedChain(c, q), jobs := Reading(c, q)))
  {
    var s, mined := Confirming(c, q), MinedChain(c, q);
    assert map[][q.request.network := 1] == map[q.request.network := 1];
    assert map[][Key1(c, q) := Receipt(false, 1)] == map[Key1(c, q) := Receipt(false, 1)];
    Then(c, Start(q), s, EnvMoves(MineTx(Key1(c, q), false)), s.(chain := mined));
    var t := s.(chain := mined, jobs := map[0 := Job(0, SentRow(Polling(c, q)), None)]);
    Then(c, Start(q), s.(chain := mined), JobMoves(0, Fetch(0)), t);
    assert t.jobs[0 := Reading(c, q)[0]] == Reading(c, q);
    Then(c, Start(q), t, JobMoves(0, ReadReceipt), s.(chain := mined, jobs := Reading(c, q)));
  }

  lemma ReachGone(c: Config, q: Record)
    requires CanRetry(c, q) && c.receiptsMayVanish
    requires Goes(c, Start(q), Confirming(c, q).(chain := MinedChain(c, q), jobs := Reading(c, q)))
    ensures Goes(c, Start(q), Vanished(c, q).(jobs := Reading(c, q)))
  {
    var mined := MinedChain(c, q);
    var u := Confirming(c, q).(chain := mined, jobs := Reading(c, q));
    var gone := mined.(receipts := map[]);
    assert mined.receipts - {Key1(c, q)} == map[];
    Then(c, Start(q), u, EnvMoves(ReorgTx(Key1(c, q))), u.(chain := gone));
    ReachGrown(c, q);
  }

  lemma ReachGrown(c: Config, q: Record)
    requires CanRetry(c, q)
    requires Goes(c, Start(q), Confirming(c, q).(chain := MinedChain(c, q).(receipts := map[]), jobs := Reading(c, q)))
    ensures Goes(c, Start(q), Vanished(c, q).(jobs := Reading(c, q)))
  {
    var w, gone := q.request.network, MinedChain(c, q).(receipts := map[]);
    var deep := 1 + c.networks[w].depth;
    var u := Confirming(c, q).(jobs := Reading(c, q));
    assert gone.heads[w := deep] == map[w := deep] && Head(gone, w) + c.networks[w].depth == deep;
    assert gone.(heads := map[w := deep]) == Vanished(c, q).chain;
    Then(c, Start(q), u.(chain := gone), EnvMoves(GrowChain(w, c.networks[w].depth)),
         u.(chain := Vanished(c, q).chain));
  }

  function FailedRow(c: Config, q: Record): Row
    requires CanRetry(c, q)
  {
    SentRow(Polling(c, q)).(status := Failed, blockNumber := Some(1), statusMessage := Some(REASON))
  }

  function Retry(c: Config, q: Record): Row
    requires CanRetry(c, q)
  {
    RetryRow(0, SentRow(Polling(c, q)))
  }

  /** The first row has been failed and retried, and the first payload has been mined after all. */
  function Revived(c: Config, q: Record): State
    requires CanRetry(c, q)
  {
    Buried(c, Vanished(c, q).(rows := [FailedRow(c, q), Retry(c, q)], owners := [0, 0]), Key1(c, q), true)
  }

  lemma ReachRevived(c: Config, q: Record)
    requires CanRetry(c, q) && Goes(c, Start(q), Vanished(c, q).(jobs := Reading(c, q)))
    ensures Goes(c, Start(q), Revived(c, q))
  {
    var s, sent := Vanished(c, q), SentRow(Polling(c, q));
    FailsHeld(c, Start(q), s, 0, Receipt(false, 1), REASON);
    assert [sent][0 := FailedRow(c, q)] + [Retry(c, q)] == [FailedRow(c, q), Retry(c, q)] && [0] + [0] == [0, 0];
    var t := s.(rows := [FailedRow(c, q), Retry(c, q)], owners := [0, 0]);
    assert Lost(s, 0, 1, REASON) == t;
    Mines(c, Start(q), t, Key1(c, q), true);
  }

  function Second(c: Config, q: Record): Payload
    requires CanRetry(c, q)
  {
    Signature(Polling(c, q)).(hash := 2, nonce := 1)
  }

  /** Both payloads have been submitted for record 0, and both have succeeded. */
  function Twice(c: Config, q: Record): State
    requires CanRetry(c, q)
  {
    Buried(c, Delivered(Revived(c, q), 1, Second(c, q)), TxKey(q.request.network, 2), true)
  }

  lemma RetryIsReady(c: Config, q: Record)
    requires CanRetry(c, q)
    ensures var s, w := Revived(c, q), q.request.network;
            && Ready(c, s, 1) && Second(c, q).order == s.rows[1].order && !HashTaken(s.rows, 2)
            && AboveAcknowledged(s.rows, w, 1) && (w in s.cursors ==> s.cursors[w] == 1)
  {
    var s := Revived(c, q);
    assert RootOf(s.rows, 0) == 0 && IsProvenOnChainFailure(s.rows[0]);
  }

  lemma ReachTwice(c: Config, q: Record)
    requires CanRetry(c, q) && Goes(c, Start(q), Revived(c, q))
    ensures Goes(c, Start(q), Twice(c, q))
  {
    RetryIsReady(c, q);
    Sends(c, Start(q), Revived(c, q), 1, Second(c, q));
    Mines(c, Start(q), Delivered(Revived(c, q), 1, Second(c, q)), TxKey(q.request.network, 2), true);
  }

  /** Two different payloads submitted for record `k` have both succeeded. */
  ghost predicate PaidTwiceOver(s: State, k: nat) {
    exists x: nat, y: nat ::
      && SentFor(s, x, k) && SentFor(s, y, k)
      && s.chain.sends[x].payload != s.chain.sends[y].payload
      && Succeeded(s.chain, s.chain.sends[x].payload) && Succeeded(s.chain, s.chain.sends[y].payload)
  }

  lemma TwiceIsTwice(c: Config, q: Record)
    requires CanRetry(c, q)
    ensures PaidTwiceOver(Twice(c, q), 0)
  {
    var s := Twice(c, q);
    assert s.chain.sends == [Send(0, Signature(Polling(c, q))), Send(1, Second(c, q))];
    assert s.owners == [0, 0];
    assert SentFor(s, 0, 0) && SentFor(s, 1, 0);
    assert Succeeded(s.chain, s.chain.sends[0].payload) && Succeeded(s.chain, s.chain.sends[1].payload);
  }

  /** Where receipts may vanish, some run pays a record twice. */
  lemma VanishedReceiptPaysTwice(c: Config, q: Record)
    requires CanRetry(c, q) && c.receiptsMayVanish
    ensures Reachable(c, Twice(c, q)) && PaidTwiceOver(Twice(c, q), 0)
  {
    ReachUnsent(c, q);
    ReachSubmitted(c, Start(q), Polling(c, q));
    ReachRead(c, q);
    ReachGone(c, q);
    ReachRevived(c, q);
    ReachTwice(c, q);
    GoesIsReachable(c, Start(q), Twice(c, q));
    TwiceIsTwice(c, q);
  }

  lemma NeverTwice(c: Config, s: State, k: nat)
    requires Reachable(c, s) && !c.receiptsMayVanish
    ensures !PaidTwiceOver(s, k)
  {
    if x: nat, y: nat :|
      SentFor(s, x, k) && SentFor(s, y, k) && s.chain.sends[x].payload != s.chain.sends[y].payload
      && Succeeded(s.chain, s.chain.sends[x].payload) && Succeeded(s.chain, s.chain.sends[y].payload) {
      NoDoublePayout(c, s, k, x, y);
    }
  }

  /**
    For a service that can pay and retry, no record is ever paid twice exactly when no receipt vanishes between
    a confirmer's two reads.
  */
  lemma PaidOnceExactly(c: Config, q: Record)
    requires CanRetry(c, q)
    ensures (forall s, k :: Reachable(c, s) ==> !PaidTwiceOver(s, k)) <==> !c.receiptsMayVanish
  {
    if c.receiptsMayVanish {
      VanishedReceiptPaysTwice(c, q);
    } else {
      forall s, k | Reachable(c, s) ensures !PaidTwiceOver(s, k) {
        NeverTwice(c, s, k);
      }
    }
  }

  // ---------------------------------------------------------------- one given run

  /** This step takes a receipt away while a confirmer holds it. */
  ghost predicate TakesHeld(s: State, step: Step) {
    step.EnvMoves? && step.env.ReorgTx? && HeldByJob(s.jobs, step.env.key)
  }

  /** The same service, where receipts do not vanish. */
  function Steady(c: Config): Config {
    c.(receiptsMayVanish := false)
  }

  lemma SameFinal(c: Config, chain: Chain, key: TxKey)
    ensures Final(Steady(c), chain, key) == Final(c, chain, key)
  {
  }

  lemma SameEnv(c: Config, s: State, a: EnvStep)
    requires !TakesHeld(s, EnvMoves(a))
    ensures EnvNext(Steady(c), s, a) == EnvNext(c, s, a)
  {
    if a.ReorgTx? {
      SameFinal(c, s.chain, a.key);
    }
  }

  lemma SameSender(c: Config, s: State, a: SenderStep)
    ensures SenderNext(Steady(c), s, a) == SenderNext(c, s, a)
  {
  }

  lemma SameJob(c: Config, s: State, j: nat, a: JobStep)
    ensures JobNext(Steady(c), s, j, a) == JobNext(c, s, j, a)
  {
  }

  lemma SameProc(c: Config, s: State, a: ProcStep)
    ensures ProcNext(Steady(c), s, a) == ProcNext(c, s, a)
  {
  }

  /** Any other step is one that the steady service can make as well. */
  lemma SameNext(c: Config, s: State, step: Step)
    requires !TakesHeld(s, step)
    ensures Next(Steady(c), s, step) == Next(c, s, step)
  {
    match step
    case EnvMoves(a) => SameEnv(c, s, a);
    case SenderMoves(a) => SameSender(c, s, a);
    case JobMoves(j, a) => SameJob(c, s, j, a);
    case ProcMoves(a) => SameProc(c, s, a);
  }

  lemma SteadyRun(c: Config, states: seq<State>, steps: seq<Step>, n: nat)
    requires Run(c, states, steps) && n < |states| && forall m :: 0 <= m < n ==> !TakesHeld(states[m], steps[m])
    ensures Run(Steady(c), states[..n + 1], steps[..n])
  {
    forall m | 0 <= m < n ensures Next(Steady(c), states[m], steps[m]) == Some(states[m + 1]) {
      SameNext(c, states[m], steps[m]);
    }
  }

  /**
    Whatever the service admits, a run in which no step has taken away a receipt that a confirmer held has paid
    no record twice.
  */
  lemma TwiceOnlyAfterVanishing(c: Config, states: seq<State>, steps: seq<Step>, n: nat, k: nat)
    requires Run(c, states, steps) && n < |states| && PaidTwiceOver(states[n], k)
    ensures exists m :: 0 <= m < n && TakesHeld(states[m], steps[m])
  {
    if forall m :: 0 <= m < n ==> !TakesHeld(states[m], steps[m]) {
      SteadyRun(c, states, steps, n);
      assert states[..n + 1][|steps[..n]|] == states[n];
      NeverTwice(Steady(c), states[n], k);
    }
  }
}
