/** What every run does to the money: conservation, single debits, sufficient balances, single authorisations. */
module Accounting {
  import opened Wrappers
  import opened Transactions
  import opened RelayLedger
  import opened Protocol
  import opened Invariants
  import opened Evolution
  import opened Theorems
  import Authorization
  import LedgerHistory
  import RecordProofs
  import Balances

  // ---------------------------------------------------------------- conservation

  /** Balance = opening + accepted logs - what the records in Success or Finished took, for every address. */
  lemma Conservation(c: Config, s: State, a: string)
    requires Reachable(c, s) && !c.commitMayFail
    ensures Balance(s.ledger.accounts, a) == Balance(s.opening, a) + SignedSum(s.accepted, a) - Debits(s.records, a)
  {
    var states, steps :| Run(c, states, steps) && states[|steps|] == s;
    RunConserves(c, states, steps, |steps|);
    assert Balances.Imbalance(s, a) == 0;
  }

  lemma RunConserves(c: Config, states: seq<State>, steps: seq<Step>, n: nat)
    requires Run(c, states, steps) && n < |states| && !c.commitMayFail
    ensures Balances.Conserved(states[n])
  {
    forall m | 0 <= m < n ensures Balances.Booked(states, steps, m) {
      RunInv(c, states, steps, m);
      Balances.KeptCommitBooks(c, states[m], steps[m]);
    }
    Balances.BalancedExactly(c, states, steps, n);
  }

  /** Step `n` of the run takes the total of record `k` from its account. */
  ghost predicate DebitsAt(c: Config, states: seq<State>, steps: seq<Step>, n: nat, k: nat)
    requires Run(c, states, steps) && n < |steps|
  {
    && steps[n] == ProcMoves(DebitAccount) && states[n].proc.Debit? && states[n].proc.k == k
    && !states[n + 1].proc.Resting?
  }

  lemma DebitWrites(c: Config, s: State, s': State)
    requires ProcRecordOk(c, s.records, s.proc) && OwnedOk(c, s.rows, s.owners, s.records)
    requires ProcPlaceOk(c, s.rows, s.owners, s.records, s.history, s.now, s.proc)
    requires ProcDebit(s) == Some(s') && !s'.proc.Resting?
    ensures s.proc.k < |s.records| && s.records[s.proc.k].status.WPending?
    ensures s.proc.k < |s'.records| && s'.records[s.proc.k].status.WSuccess?
    ensures var r := s.records[s.proc.k];
            Balance(s'.ledger.accounts, r.request.address)
            == Balance(s.ledger.accounts, r.request.address) - r.request.amount - r.fee
  {
  }

  lemma DebitedAfter(c: Config, states: seq<State>, steps: seq<Step>, n: nat, k: nat)
    requires Run(c, states, steps) && n < |steps| && DebitsAt(c, states, steps, n, k)
    ensures k < |states[n].records| && states[n].records[k].status.WPending?
    ensures k < |states[n + 1].records| && states[n + 1].records[k].status.WSuccess?
  {
    DebitStepIs(c, states[n], steps[n], states[n + 1]);
    RunInv(c, states, steps, n);
    DebitWrites(c, states[n], states[n + 1]);
  }

  lemma DebitStepIs(c: Config, s: State, step: Step, s': State)
    requires step == ProcMoves(DebitAccount) && Next(c, s, step) == Some(s')
    ensures ProcDebit(s) == Some(s')
  {
  }

  lemma SuccessNotPending(a: seq<Record>, b: seq<Record>, k: nat)
    requires RecordsEvolve(a, b) && k < |a| && a[k].status.WSuccess?
    ensures k < |b| && !b[k].status.WPending?
  {
    assert RecordEvolves(a[k], b[k]);
  }

  /** No record is ever debited twice, whether or not commits can fail. */
  lemma DebitedAtMostOnce(c: Config, states: seq<State>, steps: seq<Step>, m: nat, n: nat, k: nat)
    requires Run(c, states, steps) && m < n < |steps| && DebitsAt(c, states, steps, m, k)
    ensures !DebitsAt(c, states, steps, n, k)
  {
    DebitedAfter(c, states, steps, m, k);
    RunLater(c, states, steps, m + 1, n);
    SuccessNotPending(states[m + 1].records, states[n].records, k);
    if DebitsAt(c, states, steps, n, k) {
      DebitedAfter(c, states, steps, n, k);
    }
  }

  /** Where no commit is lost, every record in Success or Finished has been debited by exactly one step of the run. */
  lemma DebitedExactlyOnce(c: Config, states: seq<State>, steps: seq<Step>, n: nat, k: nat) returns (m: nat)
    requires Run(c, states, steps) && n < |states| && !c.commitMayFail
    requires k < |states[n].records| && Debited(states[n].records[k])
    ensures m < n && DebitsAt(c, states, steps, m, k)
    ensures forall i :: 0 <= i < |steps| && DebitsAt(c, states, steps, i, k) ==> i == m
  {
    m := Balances.DebitedBefore(c, states, steps, n, k);
    forall i | 0 <= i < |steps| && DebitsAt(c, states, steps, i, k) ensures i == m {
      if i < m {
        DebitedAtMostOnce(c, states, steps, i, m, k);
      } else if m < i {
        DebitedAtMostOnce(c, states, steps, m, i, k);
      }
    }
  }

  /**
    The balance check after confirmation fails exactly when the logs applied since the execution gate
    have eaten up the reserve the gate saw; in particular their sum is then negative.
  */
  lemma DebitSufficiency(c: Config, s: State, s': State)
    requires Reachable(c, s) && ProcDebit(s) == Some(s')
    ensures s.proc.k in s.history.gates
    ensures var seen, a := s.history.gates[s.proc.k], s.proc.rec.request.address;
            var total := s.proc.rec.request.amount + s.proc.rec.fee;
            && seen.logs <= |s.accepted| && seen.balance >= total
            && (s'.proc.Resting? <==> seen.balance + SignedSum(s.accepted[seen.logs..], a) < total)
            && (s'.proc.Resting? ==> SignedSum(s.accepted[seen.logs..], a) < 0)
  {
    ReachableInv(c, s);
    GateStillHolds(c, s, s');
  }

  lemma GateStillHolds(c: Config, s: State, s': State)
    requires ProcRecordOk(c, s.records, s.proc) && OwnedOk(c, s.rows, s.owners, s.records) && ProcDebit(s) == Some(s')
    requires ProcPlaceOk(c, s.rows, s.owners, s.records, s.history, s.now, s.proc)
    requires GatesOk(s.records, s.history.gates, s.ledger.accounts, s.accepted)
    ensures s.proc.k in s.history.gates
    ensures var seen, a := s.history.gates[s.proc.k], s.proc.rec.request.address;
            var total := s.proc.rec.request.amount + s.proc.rec.fee;
            && seen.logs <= |s.accepted| && seen.balance >= total
            && (s'.proc.Resting? <==> seen.balance + SignedSum(s.accepted[seen.logs..], a) < total)
  {
    assert s.proc.rec == s.records[s.proc.k];
  }

  // ---------------------------------------------------------------- one payout per authorisation

  lemma FingerprintsSeparate(c: Config, records: seq<Record>, legacy: set<nat>, j: nat, k: nat)
    requires FingerprintsOk(c, records, legacy) && j < |records| && k < |records| && j != k
    requires records[j].txId.Some? && records[k].txId.Some? && j !in legacy && k !in legacy
    ensures Authorization.Message(records[j].request) != Authorization.Message(records[k].request)
  {
  }

  /**
    Two records that both have a transaction never share a signed message, unless one of them had its
    transaction, but no clearance, before the run began: a message that pays once never pays again.
  */
  lemma OnePayoutPerAuthorization(c: Config, s: State, j: nat, k: nat)
    requires Reachable(c, s) && j < |s.records| && k < |s.records| && j != k
    requires s.records[j].txId.Some? && s.records[k].txId.Some?
    ensures || j in s.history.legacy || k in s.history.legacy
            || Authorization.Message(s.records[j].request) != Authorization.Message(s.records[k].request)
  {
    ReachableInv(c, s);
    if j !in s.history.legacy && k !in s.history.legacy {
      FingerprintsSeparate(c, s.records, s.history.legacy, j, k);
    }
  }

  /**
    In every reachable state a record that is pending or has a transaction is authorised and stored with its
    own fingerprint, so checking its authorisation again can neither fail nor write; historical records aside.
  */
  lemma PendingIsCleared(c: Config, s: State, k: nat)
    requires Reachable(c, s) && k < |s.records| && (s.records[k].status.WPending? || s.records[k].txId.Some?)
    ensures k !in s.history.legacy ==>
              var r := s.records[k];
              && r.request.timestamp != 0 && r.signature != "" && c.signs(r.request, r.signature)
              && r.fingerprint == Some(c.digest(Authorization.Message(r.request)))
  {
    ReachableInv(c, s);
  }

  /**
    What the wallet itself has let through is never refused: the check of such a record succeeds whenever it is
    made, and stores nothing, so no failed query or write can turn it into a refusal.
  */
  lemma ClearedNeverRefused(c: Config, s: State, rootCopy: Row)
    requires Reachable(c, s) && s.proc.Authorize? && s.proc.k !in s.history.legacy
    ensures ProcUnauthorized(c, s, rootCopy).None?
    ensures ProcAuthorized(c, s).Some? && ProcAuthorized(c, s).value == s.(proc := ProcAuthorized(c, s).value.proc)
  {
    ReachableInv(c, s);
    AuthorizesCleared(c, s, rootCopy);
  }

  lemma AuthorizesCleared(c: Config, s: State, rootCopy: Row)
    requires ProcRecordOk(c, s.records, s.proc) && s.proc.Authorize? && s.proc.k !in s.history.legacy
    requires s.proc.rec.status.WPending? && FingerprintsOk(c, s.records, s.history.legacy)
    ensures ProcUnauthorized(c, s, rootCopy).None?
    ensures ProcAuthorized(c, s).Some? && ProcAuthorized(c, s).value == s.(proc := ProcAuthorized(c, s).value.proc)
  {
    assert s.proc.rec == s.records[s.proc.k];
  }

  /** Stored fingerprints are pairwise distinct in every reachable state. */
  lemma FingerprintsDistinct(c: Config, s: State, j: nat, k: nat)
    requires Reachable(c, s) && j < |s.records| && k < |s.records| && j != k && s.records[j].fingerprint.Some?
    ensures s.records[j].fingerprint != s.records[k].fingerprint
  {
    ReachableInv(c, s);
  }

  // ---------------------------------------------------------------- the relay ledger over runs

  /**
    In every reachable state: deposits are the accepted deposit logs, each identity once, and their total
    is what they credited; every grant has released between nothing and its total, is completed exactly
    when all is released, has paid out what was released beyond its opening amount, and no accepted
    release ran ahead of its schedule.
  */
  lemma LedgerOverRuns(c: Config, s: State)
    requires Reachable(c, s)
    ensures LedgerHistory.LedgerMatches(s.ledger, s.accepted)
  {
    ReachableInv(c, s);
  }

  /**
    Between any two states of a run: schedules never change, released amounts never shrink, settled grants are frozen.
  */
  lemma GrantsOnlyGrow(c: Config, states: seq<State>, steps: seq<Step>, m: nat, n: nat, id: nat)
    requires Run(c, states, steps) && m <= n < |states| && id in states[m].ledger.grants
    ensures id in states[n].ledger.grants
    ensures LedgerHistory.GrantEvolves(states[m].ledger.grants[id], states[n].ledger.grants[id])
  {
    RunLater(c, states, steps, m, n);
  }

  lemma EnvKeepsCreations(c: Config, s: State, a: EnvStep, s': State)
    requires LedgerHistory.CreationsBound(c.vestingSigner, s.ledger.grants, s.accepted) && EnvNext(c, s, a) == Some(s')
    ensures LedgerHistory.CreationsBound(c.vestingSigner, s'.ledger.grants, s'.accepted)
  {
    if a.Logs? {
      if ApplyBatch(c.vestingSigner, s.now, s.ledger, a.logs).Ok? {
        LedgerHistory.BatchKeepsCreations(c.vestingSigner, s.now, s.ledger, s.accepted, a.logs);
      }
    } else if a.BootUp? {
      LedgerHistory.DeprecateKeepsCreations(c.vestingSigner, s.ledger.grants, s.accepted);
    } else {
      assert SameGrants(s, s');
    }
  }

  lemma NextKeepsCreations(c: Config, s: State, step: Step, s': State)
    requires Inv(c, s) && LedgerHistory.CreationsBound(c.vestingSigner, s.ledger.grants, s.accepted)
    requires Next(c, s, step) == Some(s')
    ensures LedgerHistory.CreationsBound(c.vestingSigner, s'.ledger.grants, s'.accepted)
  {
    if step.EnvMoves? {
      EnvKeepsCreations(c, s, step.env, s');
    } else {
      StepLater(c, s, step, s');
      assert SameGrants(s, s');
    }
  }

  /**
    In every state of every run each accepted creation carries the configured signer's signature, and its
    grant is stored under exactly the schedule that was signed, whatever was created or released since.
  */
  lemma {:induction false} CreationsStayBound(c: Config, states: seq<State>, steps: seq<Step>, n: nat)
    requires Run(c, states, steps) && n < |states|
    ensures LedgerHistory.CreationsBound(c.vestingSigner, states[n].ledger.grants, states[n].accepted)
  {
    if n > 0 {
      CreationsStayBound(c, states, steps, n - 1);
      RunInv(c, states, steps, n - 1);
      NextKeepsCreations(c, states[n - 1], steps[n - 1], states[n]);
    }
  }

  // ---------------------------------------------------------------- a lost attach

  /**
    The id that a lost attach leaves in memory never becomes a row: every look-up of it fails, and at the
    deadline the record, still without a transaction, is read afresh. Nothing is paid on such an id.
  */
  lemma LostAttachPaysNothing(c: Config, s: State, s': State)
    requires Reachable(c, s) && ProcLookUp(c, s) == Some(s')
    ensures s.proc.id >= |s.rows| && s.proc.k < |s.records| && s.records[s.proc.k].txId.None?
    ensures s' == if s.now > s.records[s.proc.k].createdAt + c.timeout
                  then s.(proc := Timeout(s.proc.k, s.records[s.proc.k])) else s
  {
    ReachableInv(c, s);
    LookUpFinds(c, s, s');
  }

  lemma LookUpFinds(c: Config, s: State, s': State)
    requires ProcRecordOk(c, s.records, s.proc) && |s.owners| == |s.rows| && ProcLookUp(c, s) == Some(s')
    requires ProcPlaceOk(c, s.rows, s.owners, s.records, s.history, s.now, s.proc)
    ensures s.proc.id >= |s.rows| && s.proc.k < |s.records| && s.records[s.proc.k].txId.None?
    ensures s' == if s.now > s.records[s.proc.k].createdAt + c.timeout
                  then s.(proc := Timeout(s.proc.k, s.records[s.proc.k])) else s
  {
  }
}
