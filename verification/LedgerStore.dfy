/**
  The loops of tasks/sync_task_fee_logs.go over the stored tables. Each phase updates its table in place
  and may leave it half written when it fails; the surrounding transaction rolls everything back. The
  whole batch is proved to be `ApplyBatch`, and so, by `BatchIsFold`, the log-by-log fold.
*/
module LedgerStore {
  import opened Wrappers
  import opened RelayLedger
  import opened LedgerHistory

  // ---------------------------------------------------------------- errors stick

  lemma {:induction false} MergeErrorSticks(logs: seq<Log>, n: nat)
    requires n <= |logs| && Merge(logs[..n]).Err?
    ensures Merge(logs) == Merge(logs[..n])
    decreases |logs|
  {
    if n == |logs| {
      assert logs[..n] == logs;
    } else {
      assert logs[..|logs| - 1][..n] == logs[..n];
      MergeErrorSticks(logs[..|logs| - 1], n);
    }
  }

  lemma {:induction false} VestingErrorSticks(signer: string, now: nat, grants: map<nat, Grant>, logs: seq<Log>, n: nat)
    requires n <= |logs| && ApplyVesting(signer, now, grants, logs[..n]).Err?
    ensures ApplyVesting(signer, now, grants, logs) == ApplyVesting(signer, now, grants, logs[..n])
    decreases |logs|
  {
    if n == |logs| {
      assert logs[..n] == logs;
    } else {
      assert logs[..|logs| - 1][..n] == logs[..n];
      VestingErrorSticks(signer, now, grants, logs[..|logs| - 1], n);
    }
  }

  /** Without vesting events the signer is never consulted. */
  lemma {:induction false} NoVestingEvents(signer: string, now: nat, grants: map<nat, Grant>, logs: seq<Log>)
    requires forall i :: 0 <= i < |logs| ==> !IsVestingEvent(logs[i].kind)
    ensures ApplyVesting(signer, now, grants, logs) == Ok(grants)
  {
    if logs != [] {
      NoVestingEvents(signer, now, grants, logs[..|logs| - 1]);
    }
  }

  /** Without a signer the first vesting event fails the batch. */
  lemma {:induction false} NoSigner(now: nat, grants: map<nat, Grant>, logs: seq<Log>)
    requires exists i :: 0 <= i < |logs| && IsVestingEvent(logs[i].kind)
    ensures ApplyVesting("", now, grants, logs) == Err(VestingSignerMismatch)
  {
    var before := logs[..|logs| - 1];
    if exists i :: 0 <= i < |before| && IsVestingEvent(before[i].kind) {
      NoSigner(now, grants, before);
    } else {
      NoVestingEvents("", now, grants, before);
    }
  }

  // ---------------------------------------------------------------- merging

  lemma MergeNext(logs: seq<Log>, n: nat, merged: map<string, int>)
    requires n < |logs| && Merge(logs[..n]) == Ok(merged)
    ensures !Mergeable(logs[n]) ==> Merge(logs[..n + 1]) == Err(MergeError(logs[n]))
    ensures Mergeable(logs[n]) && IsBalanceIgnored(logs[n].kind) ==> Merge(logs[..n + 1]) == Ok(merged)
    ensures Mergeable(logs[n]) && !IsBalanceIgnored(logs[n].kind) ==>
              var a := logs[n].address;
              Merge(logs[..n + 1]) == Ok(merged[a := AddTo(Balance(merged, a), logs[n].kind, logs[n].amount.value)])
  {
    assert logs[..n + 1][..n] == logs[..n];
  }

  /** Starting a new address from zero gives the same sums. */
  lemma MovedOnce(merged: map<string, int>, log: Log)
    requires Mergeable(log) && !IsBalanceIgnored(log.kind)
    ensures var a := log.address;
            var started := if a in merged then merged else merged[a := 0];
            var amount := log.amount.value;
            && (log.kind.TaskPayment? ==>
                  started[a := started[a] - amount] == merged[a := AddTo(Balance(merged, a), log.kind, amount)])
            && (!log.kind.TaskPayment? ==>
                  started[a := started[a] + amount] == merged[a := AddTo(Balance(merged, a), log.kind, amount)])
  {
    var a, amount := log.address, log.amount.value;
    assert merged[a := 0][a := 0 - amount] == merged[a := 0 - amount];
    assert merged[a := 0][a := 0 + amount] == merged[a := 0 + amount];
  }

  /** mergeTaskFeeLogs: one entry per touched address, holding the signed sum of its logs. */
  method MergeTaskFeeLogs(logs: seq<Log>) returns (r: Result<map<string, int>, LogError>)
    ensures r == Merge(logs)
    ensures r.Ok? <==> forall i :: 0 <= i < |logs| ==> Acceptable(logs[i])
    ensures r.Ok? ==> forall a :: a in r.value <==> Touched(logs, a)
    ensures r.Ok? ==> forall a :: Balance(r.value, a) == SignedSum(logs, a)
  {
    MergeMeans(logs);
    var merged: map<string, int> := map[];
    var n := 0;
    while n < |logs|
      invariant n <= |logs| && Merge(logs[..n]) == Ok(merged)
    {
      var log := logs[n];
      MergeNext(logs, n, merged);
      if log.kind.Unknown? {
        MergeErrorSticks(logs, n + 1);
        return Err(UnknownEventType);
      }
      if !IsBalanceIgnored(log.kind) {
        if log.amount.None? {
          MergeErrorSticks(logs, n + 1);
          return Err(AmountInvalid);
        }
        ghost var before := merged;
        MovedOnce(before, log);
        if log.address !in merged {
          merged := merged[log.address := 0];
        }
        if log.kind.TaskPayment? {
          merged := merged[log.address := merged[log.address] - log.amount.value];
        } else {
          merged := merged[log.address := merged[log.address] + log.amount.value];
        }
      }
      n := n + 1;
    }
    assert logs[..n] == logs;
    r := Ok(merged);
  }

  // ---------------------------------------------------------------- deposit records

  predicate Buildable(log: Log) {
    log.kind.Deposit? ==> log.amount.Some? && DepositPayloadOk(log)
  }

  ghost predicate AllBuildable(logs: seq<Log>) {
    forall i :: 0 <= i < |logs| ==> Buildable(logs[i])
  }

  function DepositError(log: Log): LogError {
    if log.amount.None? then AmountInvalid else DepositPayloadInvalid
  }

  /** `e` is what is wrong with the first malformed deposit. */
  ghost predicate FirstDepositError(logs: seq<Log>, e: LogError) {
    exists i :: 0 <= i < |logs| && !Buildable(logs[i]) && e == DepositError(logs[i]) && forall j :: 0 <= j < i ==>
        Buildable(logs[j])
  }

  /** buildDepositRecords: every deposit log becomes a record, or the first malformed one is an error. */
  method BuildDepositRecords(logs: seq<Log>) returns (r: Result<seq<DepositRecord>, LogError>)
    ensures r.Ok? <==> AllBuildable(logs)
    ensures r.Err? ==> FirstDepositError(logs, r.error)
    ensures r.Ok? ==> r.value == DepositsOf(logs)
  {
    var records, n := [], 0;
    while n < |logs|
      invariant n <= |logs| && AllBuildable(logs[..n]) && records == DepositsOf(logs[..n])
    {
      assert logs[..n + 1][..n] == logs[..n];
      var log := logs[n];
      if log.kind.Deposit? {
        assert forall j :: 0 <= j < n ==> Buildable(logs[..n][j]);
        if log.amount.None? {
          return Err(AmountInvalid);
        }
        if !DepositPayloadOk(log) {
          return Err(DepositPayloadInvalid);
        }
        records := records + [DepositOf(log)];
      }
      n := n + 1;
    }
    assert logs[..n] == logs;
    r := Ok(records);
  }

  /** No built record collides with a stored one or with another of the batch. */
  ghost predicate Fresh(deposits: seq<DepositRecord>, records: seq<DepositRecord>) {
    forall i :: 0 <= i < |records| ==> !HasKey(deposits + records[..i], DepositKey(records[i]))
  }

  lemma FreshPrefix(deposits: seq<DepositRecord>, records: seq<DepositRecord>, d: DepositRecord)
    ensures Fresh(deposits, records + [d]) <==> Fresh(deposits, records) && !HasKey(deposits + records, DepositKey(d))
  {
    var more := records + [d];
    assert more[..|records|] == records;
    assert forall i :: 0 <= i < |records| ==> more[i] == records[i] && more[..i] == records[..i];
    if Fresh(deposits, more) {
      assert !HasKey(deposits + more[..|records|], DepositKey(more[|records|]));
      forall i | 0 <= i < |records| ensures !HasKey(deposits + records[..i], DepositKey(records[i])) {
        assert !HasKey(deposits + more[..i], DepositKey(more[i]));
      }
    }
  }

  /** Saving succeeds exactly when all deposits are well-formed and fresh, and appends them in order. */
  lemma {:induction false} SavingMeans(deposits: seq<DepositRecord>, logs: seq<Log>)
    ensures SaveDeposits(deposits, logs).Ok? <==>
            AllBuildable(logs) && Fresh(deposits, DepositsOf(logs))
    ensures SaveDeposits(deposits, logs).Ok? ==> SaveDeposits(deposits, logs).value == deposits + DepositsOf(logs)
  {
    if logs != [] {
      var before, log := logs[..|logs| - 1], logs[|logs| - 1];
      SavingMeans(deposits, before);
      assert AllBuildable(logs) <==> AllBuildable(before) && Buildable(log) by {
        assert forall i :: 0 <= i < |before| ==> before[i] == logs[i];
      }
      if !log.kind.Deposit? {
        assert DepositsOf(logs) == DepositsOf(before);
      } else if AllBuildable(logs) {
        FreshPrefix(deposits, DepositsOf(before), DepositOf(log));
        assert deposits + DepositsOf(before) + [DepositOf(log)] == deposits + DepositsOf(logs);
      }
    }
  }

  // ---------------------------------------------------------------- writing balances

  /** The merged sums of all addresses outside `todo` have been added. */
  ghost predicate Written(before: map<string, int>, after: map<string, int>, merged: map<string, int>,
                          todo: set<string>) {
    && (forall a :: a in after <==> a in before || (a in merged && a !in todo))
    && (forall a :: a in after ==> after[a] == Balance(before, a) + if a in merged && a !in todo then merged[a] else 0)
  }

  lemma WriteOne(before: map<string, int>, after: map<string, int>, merged: map<string, int>, todo: set<string>,
                 a: string)
    requires Written(before, after, merged, todo) && a in todo && a in merged
    ensures Written(before, after[a := if a in before then before[a] + merged[a] else merged[a]], merged, todo - {a})
  {
  }

  lemma WriteAll(before: map<string, int>, after: map<string, int>, merged: map<string, int>)
    requires Written(before, after, merged, {})
    ensures after == WriteMerged(before, merged)
  {
    assert after.Keys == before.Keys + merged.Keys;
  }

  // ---------------------------------------------------------------- the stored tables

  class Store {
    var accounts: map<string, int>
    var grants: map<nat, Grant>
    var deposits: seq<DepositRecord>
    var checkpoint: Checkpoint

    ghost function Contents(): Ledger reads this {
      Ledger(accounts, grants, deposits, checkpoint)
    }

    constructor ()
      ensures Contents() == Ledger(map[], map[], [], Checkpoint(0, 0))
    {
      accounts, grants, deposits, checkpoint := map[], map[], [], Checkpoint(0, 0);
    }

    /** saveDepositRecords: inserts that conflict are skipped, and the affected rows are counted afterwards. */
    method SaveDepositRecords(logs: seq<Log>) returns (r: Result<bool, LogError>)
      modifies this`deposits
      ensures r.Ok? <==> SaveDeposits(old(deposits), logs).Ok?
      ensures r.Err? && !AllBuildable(logs) ==> FirstDepositError(logs, r.error)
      ensures r.Err? && AllBuildable(logs) ==> r.error == DepositTxHashDuplicate
      ensures r.Ok? ==> deposits == SaveDeposits(old(deposits), logs).value
    {
      SavingMeans(deposits, logs);
      var built := BuildDepositRecords(logs);
      if built.Err? {
        return Err(built.error);
      }
      var records, affected, n := built.value, 0, 0;
      assert deposits == deposits + records[..0];
      while n < |records|
        invariant n <= |records| && affected <= n
        invariant affected == n <==> Fresh(old(deposits), records[..n])
        invariant affected == n ==> deposits == old(deposits) + records[..n]
      {
        assert records[..n + 1] == records[..n] + [records[n]];
        FreshPrefix(old(deposits), records[..n], records[n]);
        if !HasKey(deposits, DepositKey(records[n])) {
          deposits := deposits + [records[n]];
          affected := affected + 1;
        }
        n := n + 1;
      }
      assert records[..n] == records;
      if affected != |records| {
        return Err(DepositTxHashDuplicate);
      }
      r := Ok(true);
    }

    /** applyVestingLogs: a batch with vesting events needs a configured signer; then log by log. */
    method ApplyVestingLogs(signer: string, now: nat, logs: seq<Log>) returns (r: Result<bool, LogError>)
      modifies this`grants
      ensures match ApplyVesting(signer, now, old(grants), logs)
              case Ok(g) => r.Ok? && grants == g
              case Err(e) => r == Err(e)
    {
      var hasVestingEvents, n := false, 0;
      while n < |logs|
        invariant n <= |logs|
        invariant hasVestingEvents <==> exists i :: 0 <= i < n && IsVestingEvent(logs[i].kind)
      {
        if IsVestingEvent(logs[n].kind) {
          hasVestingEvents := true;
        }
        n := n + 1;
      }
      if !hasVestingEvents {
        NoVestingEvents(signer, now, grants, logs);
        return Ok(true);
      }
      if signer == "" {
        NoSigner(now, grants, logs);
        return Err(VestingSignerMismatch);
      }
      n := 0;
      while n < |logs|
        invariant n <= |logs| && ApplyVesting(signer, now, old(grants), logs[..n]) == Ok(grants)
      {
        assert logs[..n + 1][..n] == logs[..n];
        if IsVestingEvent(logs[n].kind) {
          var created := logs[n].kind.VestingCreated?;
          var step := if created then CreateGrant(signer, grants, logs[n]) else ReleaseGrant(now, grants, logs[n]);
          if step.Err? {
            VestingErrorSticks(signer, now, old(grants), logs, n + 1);
            return Err(step.error);
          }
          grants := step.value;
        }
        n := n + 1;
      }
      assert logs[..n] == logs;
      r := Ok(true);
    }

    /** processTaskFeeLogs: existing accounts get their new absolute balance, unknown addresses become accounts. */
    method ProcessTaskFeeLogs(logs: seq<Log>) returns (r: Result<bool, LogError>)
      modifies this`accounts
      ensures match Merge(logs)
              case Ok(merged) => r.Ok? && accounts == WriteMerged(old(accounts), merged)
              case Err(e) => r == Err(e)
    {
      var merging := MergeTaskFeeLogs(logs);
      if merging.Err? {
        return Err(merging.error);
      }
      var merged := merging.value;
      var existing := map a | a in accounts && a in merged :: accounts[a];
      var todo := merged.Keys;
      while todo != {}
        invariant todo <= merged.Keys && Written(old(accounts), accounts, merged, todo)
      {
        var a :| a in todo;
        WriteOne(old(accounts), accounts, merged, todo, a);
        accounts := accounts[a := if a in existing then existing[a] + merged[a] else merged[a]];
        todo := todo - {a};
      }
      WriteAll(old(accounts), accounts, merged);
      r := Ok(true);
    }

    /** applyTaskFeeLogBatch: all three phases and the cursor, or nothing at all. */
    method ApplyTaskFeeLogBatch(signer: string, now: nat, logs: seq<Log>) returns (r: Result<bool, LogError>)
      requires logs != []
      modifies this
      ensures match ApplyBatch(signer, now, old(Contents()), logs)
              case Ok(l) => r.Ok? && Contents() == l
              case Err(_) => r.Err? && Contents() == old(Contents())
    {
      var a, g, d := accounts, grants, deposits;
      r := SaveDepositRecords(logs);
      if r.Ok? {
        r := ApplyVestingLogs(signer, now, logs);
      }
      if r.Ok? {
        r := ProcessTaskFeeLogs(logs);
      }
      if r.Err? {
        accounts, grants, deposits := a, g, d;
        return;
      }
      checkpoint := Checkpoint(logs[|logs| - 1].id, logs[|logs| - 1].createdAt);
    }
  }
}
