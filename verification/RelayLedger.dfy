/**
  The local ledger rebuilt from relay account logs (tasks/sync_task_fee_logs.go).

  A batch is applied in three phases inside one database transaction: deposit records, vesting
  records, then balances merged per address. `ApplyBatch` is that order; `Fold` applies the logs one
  at a time and is what the batch is proved to mean.
*/
module RelayLedger {
  import opened Wrappers
  import Vesting

  datatype LogType =
    | TaskIncome | DaoTaskShare | WithdrawalFeeIncome | Deposit | TaskPayment | TaskRefund
    | Withdraw | WithdrawRefund | UserDelegation | VestingCreated | VestingRelease
    | Unknown(code: int)

  /** The parsed JSON payload; numbers given as text are `None` when they do not parse. */
  datatype LogPayload =
    | NoPayload
    | DepositPayload(network: string, txHash: string)
    | GrantPayload(id: nat, address: string, total: Option<int>, released: Option<int>,
                   start: int, days: nat, kind: string, signer: Option<string>)
    | ReleasePayload(id: nat)

  datatype Log = Log(id: nat, createdAt: nat, address: string, amount: Option<int>,
                     kind: LogType, payload: LogPayload)

  datatype VestingStatus = Active | Completed | Deprecated

  datatype Grant = Grant(address: string, total: int, released: int, start: int, days: nat,
                         kind: string, status: VestingStatus)

  datatype DepositRecord = DepositRecord(network: string, txHash: string, payer: string, amount: int, eventId: nat)

  datatype Checkpoint = Checkpoint(id: nat, timestamp: nat)

  datatype Ledger = Ledger(accounts: map<string, int>, grants: map<nat, Grant>,
                           deposits: seq<DepositRecord>, checkpoint: Checkpoint)

  datatype LogError =
    | UnknownEventType | AmountInvalid | DepositPayloadInvalid | DepositTxHashDuplicate
    | VestingPayloadInvalid | VestingSignatureInvalid | VestingSignerMismatch
    | VestingRecordNotFound | VestingReleaseInvalid

  const MAX_FUTURE_DRIFT := 3600

  predicate IsBalanceIgnored(t: LogType) {
    t.Withdraw? || t.WithdrawRefund? || t.VestingCreated?
  }

  predicate IsVestingEvent(t: LogType) {
    t.VestingCreated? || t.VestingRelease?
  }

  function Balance(accounts: map<string, int>, a: string): int {
    if a in accounts then accounts[a] else 0
  }

  // ---------------------------------------------------------------- what each log means for balances

  datatype Bearing = Credited | Charged | Unmoved | Refused

  /** How a log of each type bears on the balance of its address. */
  function BearingOf(kind: LogType): Bearing {
    match kind
    case TaskIncome => Credited
    case DaoTaskShare => Credited
    case WithdrawalFeeIncome => Credited
    case Deposit => Credited
    case TaskPayment => Charged
    case TaskRefund => Credited
    case Withdraw => Unmoved
    case WithdrawRefund => Unmoved
    case UserDelegation => Credited
    case VestingCreated => Unmoved
    case VestingRelease => Credited
    case Unknown(_) => Refused
  }

  /** A log that moves a balance must state a readable amount. */
  predicate Acceptable(log: Log) {
    match BearingOf(log.kind)
    case Refused => false
    case Unmoved => true
    case Credited => log.amount.Some?
    case Charged => log.amount.Some?
  }

  predicate Moves(log: Log, a: string) {
    log.address == a && (BearingOf(log.kind).Credited? || BearingOf(log.kind).Charged?)
  }

  /** What one log adds to the balance of `a`. */
  function Signed(log: Log, a: string): int {
    if log.address != a || log.amount.None? then 0
    else
      match BearingOf(log.kind)
      case Credited => log.amount.value
      case Charged => -log.amount.value
      case Unmoved => 0
      case Refused => 0
  }

  function SignedSum(logs: seq<Log>, a: string): int {
    if logs == [] then 0 else SignedSum(logs[..|logs| - 1], a) + Signed(logs[|logs| - 1], a)
  }

  predicate Touched(logs: seq<Log>, a: string) {
    exists i :: 0 <= i < |logs| && Moves(logs[i], a)
  }

  // ---------------------------------------------------------------- merging

  predicate Mergeable(log: Log) {
    !log.kind.Unknown? && (IsBalanceIgnored(log.kind) || log.amount.Some?)
  }

  function MergeError(log: Log): LogError {
    if log.kind.Unknown? then UnknownEventType else AmountInvalid
  }

  /** The sum of an address after one more log; only payments are subtracted. */
  function AddTo(sum: int, kind: LogType, amount: int): int {
    if kind.TaskPayment? then sum - amount else sum + amount
  }

  /** One entry per touched address, holding its signed sum; the first bad log fails the merge. */
  function Merge(logs: seq<Log>): Result<map<string, int>, LogError> {
    if logs == [] then Ok(map[])
    else
      var log := logs[|logs| - 1];
      match Merge(logs[..|logs| - 1])
      case Err(e) => Err(e)
      case Ok(m) =>
        if !Mergeable(log) then Err(MergeError(log))
        else if IsBalanceIgnored(log.kind) then Ok(m)
        else Ok(m[log.address := AddTo(Balance(m, log.address), log.kind, log.amount.value)])
  }

  /** Existing accounts get their sum added, unknown addresses become new accounts. */
  function WriteMerged(accounts: map<string, int>, merged: map<string, int>): map<string, int> {
    map a | a in accounts.Keys + merged.Keys :: Balance(accounts, a) + Balance(merged, a)
  }

  function BalanceStep(accounts: map<string, int>, log: Log): Result<map<string, int>, LogError> {
    if !Acceptable(log) then Err(MergeError(log))
    else if !Moves(log, log.address) then Ok(accounts)
    else Ok(accounts[log.address := Balance(accounts, log.address) + Signed(log, log.address)])
  }

  // ---------------------------------------------------------------- deposits

  function LowerChar(c: char): char {
    if 'A' <= c <= 'Z' then (c as int + 32) as char else c
  }

  function Lower(s: string): string {
    seq(|s|, i requires 0 <= i < |s| => LowerChar(s[i]))
  }

  predicate HexDigit(c: char) {
    '0' <= c <= '9' || 'a' <= c <= 'f' || 'A' <= c <= 'F'
  }

  /** `0x` followed by 32 hex-encoded bytes. */
  predicate IsTxHash(s: string) {
    |s| == 66 && s[0] == '0' && (s[1] == 'x' || s[1] == 'X') && forall i :: 2 <= i < 66 ==> HexDigit(s[i])
  }

  predicate DepositPayloadOk(log: Log) {
    log.payload.DepositPayload? && log.payload.network != "" && IsTxHash(log.payload.txHash)
  }

  /** The normalised identity under which a deposit may be credited once. */
  function DepositKey(d: DepositRecord): (string, string) {
    (d.network, d.txHash)
  }

  function DepositOf(log: Log): DepositRecord
    requires log.amount.Some? && DepositPayloadOk(log)
  {
    DepositRecord(Lower(log.payload.network), Lower(log.payload.txHash), Lower(log.address), log.amount.value, log.id)
  }

  predicate HasKey(deposits: seq<DepositRecord>, key: (string, string)) {
    exists i :: 0 <= i < |deposits| && DepositKey(deposits[i]) == key
  }

  function DepositStep(deposits: seq<DepositRecord>, log: Log): Result<seq<DepositRecord>, LogError> {
    if !log.kind.Deposit? then Ok(deposits)
    else if log.amount.None? then Err(AmountInvalid)
    else if !DepositPayloadOk(log) then Err(DepositPayloadInvalid)
    else if HasKey(deposits, DepositKey(DepositOf(log))) then Err(DepositTxHashDuplicate)
    else Ok(deposits + [DepositOf(log)])
  }

  function SaveDeposits(deposits: seq<DepositRecord>, logs: seq<Log>): Result<seq<DepositRecord>, LogError> {
    if logs == [] then Ok(deposits)
    else
      match SaveDeposits(deposits, logs[..|logs| - 1])
      case Err(e) => Err(e)
      case Ok(d) => DepositStep(d, logs[|logs| - 1])
  }

  // ---------------------------------------------------------------- vesting

  predicate ValidVestingKind(kind: string) {
    kind == "node" || kind == "delegation" || kind == "other"
  }

  predicate GrantPayloadOk(p: LogPayload) {
    p.GrantPayload? && p.id != 0 && p.address != "" && p.start > 0 && p.days != 0 && ValidVestingKind(p.kind)
  }

  predicate SameSchedule(g: Grant, p: LogPayload)
    requires p.GrantPayload?
  {
    g.address == p.address && p.total == Some(g.total) && g.start == p.start && g.days == p.days && g.kind == p.kind
  }

  function CreateGrant(signer: string, grants: map<nat, Grant>, log: Log): Result<map<nat, Grant>, LogError> {
    var p := log.payload;
    if !GrantPayloadOk(p) || p.address != log.address then Err(VestingPayloadInvalid)
    else if log.amount != Some(0) then Err(VestingPayloadInvalid)
    else if p.total.None? || p.total.value <= 0 then Err(VestingPayloadInvalid)
    else if p.released.None? || p.released.value < 0 || p.released.value > p.total.value then Err(VestingPayloadInvalid)
    else if p.signer.None? then Err(VestingSignatureInvalid)
    else if p.signer.value != signer then Err(VestingSignerMismatch)
    else if p.id !in grants then
      Ok(grants[p.id := Grant(p.address, p.total.value, p.released.value, p.start, p.days, p.kind,
                              if p.released == p.total then Completed else Active)])
    else if !SameSchedule(grants[p.id], p) then Err(VestingPayloadInvalid)
    else Ok(grants)
  }

  function ReleaseGrant(now: nat, grants: map<nat, Grant>, log: Log): Result<map<nat, Grant>, LogError> {
    var p := log.payload;
    if !p.ReleasePayload? || p.id == 0 then Err(VestingPayloadInvalid)
    else if log.amount.None? || log.amount.value <= 0 then Err(VestingReleaseInvalid)
    else if log.createdAt > now + MAX_FUTURE_DRIFT then Err(VestingReleaseInvalid)
    else if p.id !in grants then Err(VestingRecordNotFound)
    else
      var g := grants[p.id];
      var releaseTo := g.released + log.amount.value;
      if !g.status.Active? || g.address != log.address then Err(VestingReleaseInvalid)
      else if releaseTo > g.total then Err(VestingReleaseInvalid)
      else if releaseTo > Vesting.ShouldReleased(g.total, g.start, g.days,
                                                 log.createdAt) then Err(VestingReleaseInvalid)
      else Ok(grants[p.id := g.(released := releaseTo, status := if releaseTo == g.total then Completed else Active)])
  }

  function VestingStep(signer: string, now: nat, grants: map<nat, Grant>, log: Log): Result<map<nat, Grant>, LogError> {
    if !IsVestingEvent(log.kind) then Ok(grants)
    else if signer == "" then Err(VestingSignerMismatch)
    else if log.kind.VestingCreated? then CreateGrant(signer, grants, log)
    else ReleaseGrant(now, grants, log)
  }

  function ApplyVesting(signer: string, now: nat, grants: map<nat, Grant>, logs: seq<Log>)
    : Result<map<nat, Grant>, LogError>
  {
    if logs == [] then Ok(grants)
    else
      match ApplyVesting(signer, now, grants, logs[..|logs| - 1])
      case Err(e) => Err(e)
      case Ok(g) => VestingStep(signer, now, g, logs[|logs| - 1])
  }

  // ---------------------------------------------------------------- the batch and the fold

  function CheckpointAfter(before: Checkpoint, logs: seq<Log>): Checkpoint {
    if logs == [] then before else Checkpoint(logs[|logs| - 1].id, logs[|logs| - 1].createdAt)
  }

  /** The transaction of applyTaskFeeLogBatch: three phases over the whole batch, then the cursor. */
  function ApplyBatch(signer: string, now: nat, l: Ledger, logs: seq<Log>): Result<Ledger, LogError> {
    match SaveDeposits(l.deposits, logs)
    case Err(e) => Err(e)
    case Ok(deposits) =>
      match ApplyVesting(signer, now, l.grants, logs)
      case Err(e) => Err(e)
      case Ok(grants) =>
        match Merge(logs)
        case Err(e) => Err(e)
        case Ok(merged) =>
          Ok(Ledger(WriteMerged(l.accounts, merged), grants, deposits, CheckpointAfter(l.checkpoint, logs)))
  }

  function LogStep(signer: string, now: nat, l: Ledger, log: Log): Result<Ledger, LogError> {
    match DepositStep(l.deposits, log)
    case Err(e) => Err(e)
    case Ok(deposits) =>
      match VestingStep(signer, now, l.grants, log)
      case Err(e) => Err(e)
      case Ok(grants) =>
        match BalanceStep(l.accounts, log)
        case Err(e) => Err(e)
        case Ok(accounts) => Ok(Ledger(accounts, grants, deposits, Checkpoint(log.id, log.createdAt)))
  }

  function Fold(signer: string, now: nat, l: Ledger, logs: seq<Log>): Result<Ledger, LogError> {
    if logs == [] then Ok(l)
    else
      match Fold(signer, now, l, logs[..|logs| - 1])
      case Err(e) => Err(e)
      case Ok(m) => LogStep(signer, now, m, logs[|logs| - 1])
  }

  // ---------------------------------------------------------------- what merging means

  lemma {:induction false} SignedSumConcat(a: seq<Log>, b: seq<Log>, who: string)
    ensures SignedSum(a + b, who) == SignedSum(a, who) + SignedSum(b, who)
  {
    if b == [] {
      assert a + b == a;
    } else {
      SignedSumConcat(a, b[..|b| - 1], who);
      assert (a + b)[..|a + b| - 1] == a + b[..|b| - 1];
    }
  }

  /**
    The merged map holds exactly the touched addresses, each with the signed sum of its logs, and
    merging fails exactly at the first log that is of an unknown type, or whose unreadable amount would move
    a balance.
  */
  lemma {:induction false} MergeMeans(logs: seq<Log>)
    ensures Merge(logs).Ok? <==> forall i :: 0 <= i < |logs| ==> Acceptable(logs[i])
    ensures Merge(logs).Ok? ==> forall a :: a in Merge(logs).value <==> Touched(logs, a)
    ensures Merge(logs).Ok? ==> forall a :: Balance(Merge(logs).value, a) == SignedSum(logs, a)
    ensures Merge(logs).Err? ==>
              (exists i :: 0 <= i < |logs| && !Acceptable(logs[i])
                           && Merge(logs).error == (if logs[i].kind.Unknown? then UnknownEventType else AmountInvalid)
                           && (forall j :: 0 <= j < i ==> Acceptable(logs[j])))
  {
    if logs != [] {
      var before, log := logs[..|logs| - 1], logs[|logs| - 1];
      MergeMeans(before);
      assert forall i :: 0 <= i < |before| ==> before[i] == logs[i];
      if Merge(before).Ok? && Acceptable(log) {
        forall a ensures Touched(logs, a) <==> Touched(before, a) || Moves(log, a) {
          if Touched(before, a) {
            var i :| 0 <= i < |before| && Moves(before[i], a);
            assert Moves(logs[i], a);
          }
          if Moves(log, a) {
            assert Moves(logs[|logs| - 1], a);
          }
        }
      } else if Merge(before).Err? {
        var i :| 0 <= i < |before| && !Acceptable(before[i])
          && Merge(before).error == MergeError(before[i]) && forall j :: 0 <= j < i ==> Acceptable(before[j]);
        assert !Acceptable(logs[i]) && Merge(logs).error == MergeError(logs[i]);
      }
    }
  }

  lemma WriteMergedStep(accounts: map<string, int>, m: map<string, int>, a: string, delta: int)
    ensures var w := WriteMerged(accounts, m);
            WriteMerged(accounts, m[a := Balance(m, a) + delta]) == w[a := Balance(w, a) + delta]
  {
  }

  lemma MergePeelsLast(accounts: map<string, int>, before: seq<Log>, log: Log)
    requires Merge(before).Ok?
    ensures Merge(before + [log]).Ok? <==> Acceptable(log)
    ensures Acceptable(log) ==>
              BalanceStep(WriteMerged(accounts, Merge(before).value),
                          log) == Ok(WriteMerged(accounts, Merge(before + [log]).value))
  {
    MergeAdds(before, log);
    WriteMergedStep(accounts, Merge(before).value, log.address, Signed(log, log.address));
  }

  lemma MergeAdds(before: seq<Log>, log: Log)
    requires Merge(before).Ok?
    ensures var m := Merge(before).value;
            Merge(before + [log]) ==
            if !Acceptable(log) then Err(MergeError(log))
            else if !Moves(log, log.address) then Ok(m)
            else Ok(m[log.address := Balance(m, log.address) + Signed(log, log.address)])
  {
    assert (before + [log])[..|before|] == before;
  }

  lemma SavingPeelsLast(deposits: seq<DepositRecord>, before: seq<Log>, log: Log)
    ensures SaveDeposits(deposits, before + [log])
         == match SaveDeposits(deposits, before) { case Err(e) => Err(e) case Ok(d) => DepositStep(d, log) }
  {
    assert (before + [log])[..|before|] == before;
  }

  lemma VestingPeelsLast(signer: string, now: nat, grants: map<nat, Grant>, before: seq<Log>, log: Log)
    ensures ApplyVesting(signer, now, grants, before + [log])
         == match ApplyVesting(signer, now, grants, before)
            { case Err(e) => Err(e) case Ok(g) => VestingStep(signer, now, g, log) }
  {
    assert (before + [log])[..|before|] == before;
  }

  /** What `ApplyBatch` returns when its phases return these. */
  lemma BatchParts(signer: string, now: nat, l: Ledger, logs: seq<Log>)
    ensures ApplyBatch(signer, now, l, logs).Ok? <==>
            SaveDeposits(l.deposits, logs).Ok? && ApplyVesting(signer, now, l.grants, logs).Ok? && Merge(logs).Ok?
    ensures ApplyBatch(signer, now, l, logs).Ok? ==>
            ApplyBatch(signer, now, l, logs).value
            == Ledger(WriteMerged(l.accounts, Merge(logs).value), ApplyVesting(signer, now, l.grants, logs).value,
                      SaveDeposits(l.deposits, logs).value, CheckpointAfter(l.checkpoint, logs))
  {
  }

  lemma StepParts(signer: string, now: nat, l: Ledger, log: Log)
    ensures LogStep(signer, now, l, log).Ok? <==>
            && DepositStep(l.deposits, log).Ok? && VestingStep(signer, now, l.grants, log).Ok?
            && BalanceStep(l.accounts, log).Ok?
    ensures LogStep(signer, now, l, log).Ok? ==>
            LogStep(signer, now, l, log).value
            == Ledger(BalanceStep(l.accounts, log).value, VestingStep(signer, now, l.grants, log).value,
                      DepositStep(l.deposits, log).value, Checkpoint(log.id, log.createdAt))
  {
  }

  lemma MergeNeedsPrefix(before: seq<Log>, log: Log)
    ensures Merge(before + [log]).Ok? ==> Merge(before).Ok?
  {
    assert (before + [log])[..|before|] == before;
  }

  /** The last log of a batch may as well be applied on its own, after the others. */
  lemma BatchPeelsLast(signer: string, now: nat, l: Ledger, before: seq<Log>, log: Log)
    requires ApplyBatch(signer, now, l, before).Ok?
    ensures ApplyBatch(signer, now, l, before + [log]).Ok?
       <==> LogStep(signer, now, ApplyBatch(signer, now, l, before).value, log).Ok?
    ensures ApplyBatch(signer, now, l, before + [log]).Ok? ==>
              var m := ApplyBatch(signer, now, l, before).value;
              ApplyBatch(signer, now, l, before + [log]).value == LogStep(signer, now, m, log).value
  {
    BatchParts(signer, now, l, before);
    BatchParts(signer, now, l, before + [log]);
    StepParts(signer, now, ApplyBatch(signer, now, l, before).value, log);
    SavingPeelsLast(l.deposits, before, log);
    VestingPeelsLast(signer, now, l.grants, before, log);
    MergePeelsLast(l.accounts, before, log);
  }

  lemma BatchNeedsPrefix(signer: string, now: nat, l: Ledger, before: seq<Log>, log: Log)
    ensures ApplyBatch(signer, now, l, before + [log]).Ok? ==> ApplyBatch(signer, now, l, before).Ok?
  {
    BatchParts(signer, now, l, before);
    BatchParts(signer, now, l, before + [log]);
    SavingPeelsLast(l.deposits, before, log);
    VestingPeelsLast(signer, now, l.grants, before, log);
    MergeNeedsPrefix(before, log);
  }

  /** The phase-by-phase batch succeeds exactly when the log-by-log fold does, with the same ledger. */
  lemma {:induction false} BatchIsFold(signer: string, now: nat, l: Ledger, logs: seq<Log>)
    ensures ApplyBatch(signer, now, l, logs).Ok? <==> Fold(signer, now, l, logs).Ok?
    ensures ApplyBatch(signer, now, l, logs).Ok? ==> ApplyBatch(signer, now, l, logs) == Fold(signer, now, l, logs)
  {
    if logs == [] {
      assert WriteMerged(l.accounts, map[]) == l.accounts;
    } else {
      var before, log := logs[..|logs| - 1], logs[|logs| - 1];
      assert before + [log] == logs;
      BatchIsFold(signer, now, l, before);
      BatchNeedsPrefix(signer, now, l, before, log);
      if ApplyBatch(signer, now, l, before).Ok? {
        BatchPeelsLast(signer, now, l, before, log);
      }
    }
  }

  lemma {:induction false} FoldConcat(signer: string, now: nat, l: Ledger, a: seq<Log>, b: seq<Log>)
    ensures Fold(signer, now, l, a + b) ==
            match Fold(signer, now, l, a) { case Err(e) => Err(e) case Ok(m) => Fold(signer, now, m, b) }
  {
    if b == [] {
      assert a + b == a;
    } else {
      FoldConcat(signer, now, l, a, b[..|b| - 1]);
      assert (a + b)[..|a + b| - 1] == a + b[..|b| - 1];
    }
  }

  /** Where the log stream is cut into batches does not matter. */
  lemma BatchSplit(signer: string, now: nat, l: Ledger, a: seq<Log>, b: seq<Log>)
    ensures ApplyBatch(signer, now, l, a + b).Ok? <==>
            ApplyBatch(signer, now, l, a).Ok? && ApplyBatch(signer, now, ApplyBatch(signer, now, l, a).value, b).Ok?
    ensures ApplyBatch(signer, now, l, a + b).Ok? ==>
            ApplyBatch(signer, now, l, a + b) == ApplyBatch(signer, now, ApplyBatch(signer, now, l, a).value, b)
  {
    BatchIsFold(signer, now, l, a + b);
    BatchIsFold(signer, now, l, a);
    FoldConcat(signer, now, l, a, b);
    if ApplyBatch(signer, now, l, a).Ok? {
      BatchIsFold(signer, now, ApplyBatch(signer, now, l, a).value, b);
    }
  }

  /** An accepted batch moves every balance by the signed sum of its logs and forgets no account. */
  lemma BatchMovesBalances(signer: string, now: nat, l: Ledger, logs: seq<Log>, a: string)
    requires ApplyBatch(signer, now, l, logs).Ok?
    ensures var l' := ApplyBatch(signer, now, l, logs).value;
            && Balance(l'.accounts, a) == Balance(l.accounts, a) + SignedSum(logs, a)
            && (a in l'.accounts <==> a in l.accounts || Touched(logs, a))
  {
    MergeMeans(logs);
  }
}
