/**
  What the ledger owes to the logs it accepted: deposits are credited once, and every grant has paid
  out exactly what was released on it, within its schedule.
*/
module LedgerHistory {
  import opened Wrappers
  import opened RelayLedger
  import Vesting

  function DepositsOf(logs: seq<Log>): seq<DepositRecord> {
    if logs == [] then []
    else
      var log, before := logs[|logs| - 1], DepositsOf(logs[..|logs| - 1]);
      if log.kind.Deposit? && log.amount.Some? && DepositPayloadOk(log) then before + [DepositOf(log)] else before
  }

  predicate DistinctKeys(deposits: seq<DepositRecord>) {
    forall i, j :: 0 <= i < j < |deposits| ==> DepositKey(deposits[i]) != DepositKey(deposits[j])
  }

  function DepositTotal(deposits: seq<DepositRecord>): int {
    if deposits == [] then 0 else DepositTotal(deposits[..|deposits| - 1]) + deposits[|deposits| - 1].amount
  }

  /** What the deposit logs credited to balances. */
  function DepositCredits(logs: seq<Log>): int {
    if logs == [] then 0
    else
      var log := logs[|logs| - 1];
      DepositCredits(logs[..|logs| - 1]) + if log.kind.Deposit? then Signed(log, log.address) else 0
  }

  predicate IsRelease(log: Log, id: nat) {
    log.kind.VestingRelease? && log.payload.ReleasePayload? && log.payload.id == id && log.amount.Some?
  }

  /** What the release logs of grant `id` credited to balances. */
  function Credits(logs: seq<Log>, id: nat): int {
    if logs == [] then 0
    else
      var log := logs[|logs| - 1];
      Credits(logs[..|logs| - 1], id) + if IsRelease(log, id) then Signed(log, log.address) else 0
  }

  predicate IsCreation(log: Log, id: nat) {
    log.kind.VestingCreated? && log.payload.GrantPayload? && log.payload.id == id
  }

  /** The released amount stated by the first log that created grant `id`. */
  function Opening(logs: seq<Log>, id: nat): Option<int> {
    if logs == [] then None
    else
      var log := logs[|logs| - 1];
      var earlier := Opening(logs[..|logs| - 1], id);
      if earlier.Some? || !IsCreation(log, id) then earlier else log.payload.released
  }

  predicate GrantOk(g: Grant) {
    && g.total > 0 && g.days > 0 && 0 <= g.released <= g.total
    && (g.status.Completed? <==> g.released == g.total)
  }

  ghost predicate GrantsMatch(grants: map<nat, Grant>, logs: seq<Log>) {
    && (forall id :: id in grants ==> GrantOk(grants[id]))
    && (forall id :: id in grants <==> Opening(logs, id).Some?)
    && (forall id :: id in grants ==> grants[id].released == Opening(logs, id).value + Credits(logs, id))
    && (forall id :: id !in grants ==> Credits(logs, id) == 0)
  }

  /** At every accepted release, the amount released so far was within the schedule at that event's time. */
  ghost predicate OnSchedule(grants: map<nat, Grant>, logs: seq<Log>) {
    forall n :: 0 <= n < |logs| && logs[n].kind.VestingRelease? ==> ReleaseOnSchedule(grants, logs, n)
  }

  ghost predicate ReleaseOnSchedule(grants: map<nat, Grant>, logs: seq<Log>, n: nat)
    requires n < |logs|
  {
    && logs[n].payload.ReleasePayload?
    && var id := logs[n].payload.id;
    && id in grants && grants[id].address == logs[n].address
    && logs[n].amount.Some? && logs[n].amount.value > 0
    && Opening(logs[..n], id).Some?
    && Opening(logs[..n], id).value + Credits(logs[..n + 1], id)
       <= Vesting.ShouldReleased(grants[id].total, grants[id].start, grants[id].days, logs[n].createdAt)
  }

  /** Every accepted creation was signed by `signer`, and its grant is stored under exactly the schedule it states. */
  ghost predicate CreationsBound(signer: string, grants: map<nat, Grant>, logs: seq<Log>) {
    forall n :: 0 <= n < |logs| && logs[n].kind.VestingCreated? ==> CreationBound(signer, grants, logs[n])
  }

  ghost predicate CreationBound(signer: string, grants: map<nat, Grant>, log: Log) {
    && log.payload.GrantPayload? && signer != "" && log.payload.signer == Some(signer)
    && log.payload.address == log.address
    && log.payload.id in grants && SameSchedule(grants[log.payload.id], log.payload)
  }

  ghost predicate LedgerMatches(l: Ledger, logs: seq<Log>) {
    && l.deposits == DepositsOf(logs) && DistinctKeys(l.deposits)
    && DepositTotal(l.deposits) == DepositCredits(logs)
    && GrantsMatch(l.grants, logs)
    && OnSchedule(l.grants, logs)
  }

  /** How a grant may change: the schedule never, the released amount upwards, and only while active. */
  predicate GrantEvolves(a: Grant, b: Grant) {
    && b.address == a.address && b.total == a.total && b.start == a.start && b.days == a.days && b.kind == a.kind
    && a.released <= b.released
    && (!a.status.Active? ==> b == a)
  }

  predicate GrantsEvolve(a: map<nat, Grant>, b: map<nat, Grant>) {
    forall id :: id in a ==> id in b && GrantEvolves(a[id], b[id])
  }

  // ---------------------------------------------------------------- what is accepted

  /** A creation the ledger accepts: signed, of positive length and total, and in accord with a stored grant. */
  predicate CreationSound(signer: string, grants: map<nat, Grant>, log: Log) {
    && signer != "" && log.payload.GrantPayload? && log.amount == Some(0)
    && var p := log.payload;
       && p.id != 0 && p.address != "" && p.address == log.address && p.start > 0 && p.days > 0
       && (p.kind == "node" || p.kind == "delegation" || p.kind == "other")
       && p.total.Some? && p.released.Some? && 0 <= p.released.value <= p.total.value && 0 < p.total.value
       && p.signer == Some(signer)
       && (p.id in grants ==>
             var g := grants[p.id];
             && g.address == p.address && g.total == p.total.value && g.start == p.start && g.days == p.days
             && g.kind == p.kind)
  }

  /** A release the ledger accepts: positive, not from the future, to an active grant's owner, and on schedule. */
  predicate ReleaseSound(signer: string, now: nat, grants: map<nat, Grant>, log: Log) {
    && signer != "" && log.payload.ReleasePayload? && log.payload.id != 0
    && log.amount.Some? && log.amount.value > 0 && log.createdAt <= now + 3600
    && log.payload.id in grants
    && var g := grants[log.payload.id];
       && g.status.Active? && g.address == log.address
       && g.released + log.amount.value <= g.total
       && g.released + log.amount.value <= Vesting.ShouldReleased(g.total, g.start, g.days, log.createdAt)
  }

  /** A creation is accepted exactly when it is sound; a new grant is stored as stated, a known one is left alone. */
  lemma CreationAccepted(signer: string, now: nat, grants: map<nat, Grant>, log: Log)
    requires log.kind.VestingCreated?
    ensures VestingStep(signer, now, grants, log).Ok? <==> CreationSound(signer, grants, log)
    ensures CreationSound(signer, grants, log) ==>
              var p, grants' := log.payload, VestingStep(signer, now, grants, log).value;
              if p.id in grants then grants' == grants
              else
                grants' == grants[p.id := Grant(p.address, p.total.value, p.released.value, p.start, p.days, p.kind,
                                                if p.released.value < p.total.value then Active else Completed)]
  {
  }

  /** A release is accepted exactly when it is sound, up to the schedule itself; it adds its amount to the grant. */
  lemma ReleaseAccepted(signer: string, now: nat, grants: map<nat, Grant>, log: Log)
    requires log.kind.VestingRelease?
    ensures VestingStep(signer, now, grants, log).Ok? <==> ReleaseSound(signer, now, grants, log)
    ensures ReleaseSound(signer, now, grants, log) ==>
              var g, grants' := grants[log.payload.id], VestingStep(signer, now, grants, log).value;
              var released := g.released + log.amount.value;
              grants' == grants[log.payload.id := Grant(g.address, g.total, released, g.start, g.days, g.kind,
                                                        if released < g.total then Active else Completed)]
  {
  }

  lemma VestingStepEvolves(signer: string, now: nat, grants: map<nat, Grant>, log: Log)
    requires VestingStep(signer, now, grants, log).Ok?
    ensures GrantsEvolve(grants, VestingStep(signer, now, grants, log).value)
  {
  }

  lemma DepositStepMatches(deposits: seq<DepositRecord>, logs: seq<Log>, log: Log)
    requires deposits == DepositsOf(logs) && DistinctKeys(deposits)
    requires DepositTotal(deposits) == DepositCredits(logs)
    requires DepositStep(deposits, log).Ok?
    ensures var d := DepositStep(deposits, log).value;
            d == DepositsOf(logs + [log]) && DistinctKeys(d) && DepositTotal(d) == DepositCredits(logs + [log])
  {
    assert (logs + [log])[..|logs|] == logs;
    if log.kind.Deposit? {
      FreshKeepsDistinct(deposits, DepositOf(log));
    }
  }

  lemma FreshKeepsDistinct(deposits: seq<DepositRecord>, d: DepositRecord)
    requires DistinctKeys(deposits) && !HasKey(deposits, DepositKey(d))
    ensures DistinctKeys(deposits + [d]) && DepositTotal(deposits + [d]) == DepositTotal(deposits) + d.amount
  {
    assert (deposits + [d])[..|deposits|] == deposits;
  }

  lemma VestingStepMatches(signer: string, now: nat, grants: map<nat, Grant>, logs: seq<Log>, log: Log)
    requires GrantsMatch(grants, logs)
    requires VestingStep(signer, now, grants, log).Ok?
    ensures GrantsMatch(VestingStep(signer, now, grants, log).value, logs + [log])
  {
    assert (logs + [log])[..|logs|] == logs;
  }

  lemma VestingStepOnSchedule(signer: string, now: nat, grants: map<nat, Grant>, logs: seq<Log>, log: Log)
    requires GrantsMatch(grants, logs) && OnSchedule(grants, logs)
    requires VestingStep(signer, now, grants, log).Ok?
    ensures OnSchedule(VestingStep(signer, now, grants, log).value, logs + [log])
  {
    var grants', logs' := VestingStep(signer, now, grants, log).value, logs + [log];
    VestingStepEvolves(signer, now, grants, log);
    forall n | 0 <= n < |logs'| && logs'[n].kind.VestingRelease?
      ensures ReleaseOnSchedule(grants', logs', n)
    {
      assert logs'[..n] == logs[..n];
      if n < |logs| {
        assert ReleaseOnSchedule(grants, logs, n);
        assert logs'[..n + 1] == logs[..n + 1];
      } else {
        assert logs'[..n + 1][..n] == logs && logs'[..n + 1] == logs';
        assert logs[..n] == logs;
      }
    }
  }

  lemma StepMatches(signer: string, now: nat, l: Ledger, past: seq<Log>, log: Log)
    requires LedgerMatches(l, past) && LogStep(signer, now, l, log).Ok?
    ensures LedgerMatches(LogStep(signer, now, l, log).value, past + [log])
    ensures GrantsEvolve(l.grants, LogStep(signer, now, l, log).value.grants)
  {
    DepositStepMatches(l.deposits, past, log);
    VestingStepMatches(signer, now, l.grants, past, log);
    VestingStepOnSchedule(signer, now, l.grants, past, log);
    VestingStepEvolves(signer, now, l.grants, log);
  }

  lemma EvolveTransitive(a: map<nat, Grant>, b: map<nat, Grant>, d: map<nat, Grant>)
    requires GrantsEvolve(a, b) && GrantsEvolve(b, d)
    ensures GrantsEvolve(a, d)
  {
  }

  /** The ledger `l` after `past` has become `m` after `past` and `logs`. */
  ghost predicate Follows(l: Ledger, m: Ledger, past: seq<Log>, logs: seq<Log>) {
    LedgerMatches(m, past + logs) && GrantsEvolve(l.grants, m.grants)
  }

  lemma FollowsNothing(l: Ledger, past: seq<Log>)
    requires LedgerMatches(l, past)
    ensures Follows(l, l, past, [])
  {
    assert past + [] == past;
  }

  lemma FollowsOne(signer: string, now: nat, l: Ledger, m: Ledger, past: seq<Log>, before: seq<Log>, log: Log)
    requires Follows(l, m, past, before) && LogStep(signer, now, m, log).Ok?
    ensures Follows(l, LogStep(signer, now, m, log).value, past, before + [log])
  {
    StepMatches(signer, now, m, past + before, log);
    EvolveTransitive(l.grants, m.grants, LogStep(signer, now, m, log).value.grants);
    assert past + (before + [log]) == past + before + [log];
  }

  lemma {:induction false} FoldMatches(signer: string, now: nat, l: Ledger, past: seq<Log>, logs: seq<Log>)
    requires LedgerMatches(l, past) && Fold(signer, now, l, logs).Ok?
    ensures Follows(l, Fold(signer, now, l, logs).value, past, logs)
  {
    if logs == [] {
      FollowsNothing(l, past);
    } else {
      var before, log := logs[..|logs| - 1], logs[|logs| - 1];
      FoldMatches(signer, now, l, past, before);
      FollowsOne(signer, now, l, Fold(signer, now, l, before).value, past, before, log);
      assert before + [log] == logs;
    }
  }

  /**
    Applying a batch keeps the ledger in step with the accepted logs: each normalised deposit identity
    once, released amounts equal to the opening amount plus the credits, releases on schedule, and
    completed or deprecated grants untouched.
  */
  lemma BatchMatches(signer: string, now: nat, l: Ledger, past: seq<Log>, logs: seq<Log>)
    requires LedgerMatches(l, past)
    requires ApplyBatch(signer, now, l, logs).Ok?
    ensures LedgerMatches(ApplyBatch(signer, now, l, logs).value, past + logs)
    ensures GrantsEvolve(l.grants, ApplyBatch(signer, now, l, logs).value.grants)
  {
    BatchIsFold(signer, now, l, logs);
    FoldMatches(signer, now, l, past, logs);
  }

  lemma {:induction false} FoldKeepsCreations(signer: string, now: nat, l: Ledger, past: seq<Log>, logs: seq<Log>)
    requires CreationsBound(signer, l.grants, past) && Fold(signer, now, l, logs).Ok?
    ensures CreationsBound(signer, Fold(signer, now, l, logs).value.grants, past + logs)
  {
    if logs == [] {
      assert past + logs == past;
    } else {
      var before, log := logs[..|logs| - 1], logs[|logs| - 1];
      FoldKeepsCreations(signer, now, l, past, before);
      var m := Fold(signer, now, l, before).value;
      StepKeepsCreations(signer, now, m.grants, past + before, log);
      assert past + before + [log] == past + logs;
    }
  }

  lemma StepKeepsCreations(signer: string, now: nat, grants: map<nat, Grant>, past: seq<Log>, log: Log)
    requires CreationsBound(signer, grants, past) && VestingStep(signer, now, grants, log).Ok?
    ensures CreationsBound(signer, VestingStep(signer, now, grants, log).value, past + [log])
  {
    var after := VestingStep(signer, now, grants, log).value;
    VestingStepEvolves(signer, now, grants, log);
    forall n | 0 <= n < |past + [log]| && (past + [log])[n].kind.VestingCreated?
      ensures CreationBound(signer, after, (past + [log])[n])
    {
      if n < |past| {
        assert CreationBound(signer, grants, past[n]);
      }
    }
  }

  lemma BatchKeepsCreations(signer: string, now: nat, l: Ledger, past: seq<Log>, logs: seq<Log>)
    requires CreationsBound(signer, l.grants, past) && ApplyBatch(signer, now, l, logs).Ok?
    ensures CreationsBound(signer, ApplyBatch(signer, now, l, logs).value.grants, past + logs)
  {
    BatchIsFold(signer, now, l, logs);
    FoldKeepsCreations(signer, now, l, past, logs);
  }

  lemma DeprecateKeepsCreations(signer: string, grants: map<nat, Grant>, logs: seq<Log>)
    requires CreationsBound(signer, grants, logs)
    ensures CreationsBound(signer, Deprecate(grants), logs)
  {
    forall n | 0 <= n < |logs| && logs[n].kind.VestingCreated?
      ensures CreationBound(signer, Deprecate(grants), logs[n])
    {
      assert CreationBound(signer, grants, logs[n]);
    }
  }

  /** The migration that retires every active grant (migrate/migrations/m_20260826.go). */
  function Deprecate(grants: map<nat, Grant>): map<nat, Grant> {
    map id | id in grants :: if grants[id].status.Active? then grants[id].(status := Deprecated) else grants[id]
  }

  lemma DeprecateMatches(l: Ledger, logs: seq<Log>)
    requires LedgerMatches(l, logs)
    ensures LedgerMatches(l.(grants := Deprecate(l.grants)), logs)
    ensures GrantsEvolve(l.grants, Deprecate(l.grants)) && Deprecate(l.grants).Keys == l.grants.Keys
    ensures forall id :: id in l.grants ==>
              var a, b := l.grants[id], Deprecate(l.grants)[id];
              && b.released == a.released && !b.status.Active? && (a.status.Active? ==> b.status.Deprecated?)
  {
    forall n | 0 <= n < |logs| && logs[n].kind.VestingRelease?
      ensures ReleaseOnSchedule(Deprecate(l.grants), logs, n)
    {
      assert ReleaseOnSchedule(l.grants, logs, n);
    }
  }

  predicate IsDepositOf(log: Log, key: (string, string)) {
    log.kind.Deposit? && log.amount.Some? && DepositPayloadOk(log) && DepositKey(DepositOf(log)) == key
  }

  /** The two texts differ at most in the case of ASCII letters. */
  predicate SameUpToCase(a: string, b: string) {
    && |a| == |b|
    && forall i :: 0 <= i < |a| ==>
         || a[i] == b[i]
         || ('A' <= a[i] <= 'Z' && b[i] as int == a[i] as int + 32)
         || ('A' <= b[i] <= 'Z' && a[i] as int == b[i] as int + 32)
  }

  predicate InLowerCase(s: string) {
    forall i :: 0 <= i < |s| ==> !('A' <= s[i] <= 'Z')
  }

  lemma LowerForgetsCase(a: string, b: string)
    ensures Lower(a) == Lower(b) <==> SameUpToCase(a, b)
    ensures SameUpToCase(Lower(a), a) && InLowerCase(Lower(a))
  {
    if Lower(a) == Lower(b) {
      assert forall i :: 0 <= i < |a| ==> LowerChar(a[i]) == Lower(a)[i] == Lower(b)[i] == LowerChar(b[i]);
    }
  }

  /** `0x` and 64 hexadecimal digits of either case. */
  predicate ThirtyTwoBytes(s: string) {
    && |s| == 66 && (s[..2] == "0x" || s[..2] == "0X")
    && forall i :: 2 <= i < 66 ==> s[i] in "0123456789abcdefABCDEF"
  }

  lemma HexDigitListed(c: char)
    ensures HexDigit(c) <==> c in "0123456789abcdefABCDEF"
  {
    var digits := "0123456789abcdefABCDEF";
    if '0' <= c <= '9' {
      assert c == digits[c as int - '0' as int];
    } else if 'a' <= c <= 'f' {
      assert c == digits[c as int - 'a' as int + 10];
    } else if 'A' <= c <= 'F' {
      assert c == digits[c as int - 'A' as int + 16];
    }
  }

  lemma HashIsBytes(s: string)
    ensures IsTxHash(s) <==> ThirtyTwoBytes(s)
  {
    forall i | 0 <= i < |s| ensures HexDigit(s[i]) <==> s[i] in "0123456789abcdefABCDEF" {
      HexDigitListed(s[i]);
    }
  }

  lemma CaseKeepsHash(a: string, b: string)
    requires SameUpToCase(a, b) && IsTxHash(a)
    ensures IsTxHash(b)
  {
  }

  /** `past` is a deposit of the same transaction on the same network, however the two are spelled. */
  predicate SameDeposit(past: Log, log: Log) {
    && past.kind.Deposit? && past.amount.Some? && past.payload.DepositPayload? && log.payload.DepositPayload?
    && SameUpToCase(past.payload.network, log.payload.network)
    && SameUpToCase(past.payload.txHash, log.payload.txHash)
  }

  lemma SameDepositSameKey(past: Log, log: Log)
    requires log.amount.Some? && DepositPayloadOk(log)
    ensures SameDeposit(past, log) <==> IsDepositOf(past, DepositKey(DepositOf(log)))
  {
    if past.payload.DepositPayload? {
      LowerForgetsCase(past.payload.network, log.payload.network);
      LowerForgetsCase(past.payload.txHash, log.payload.txHash);
      if SameDeposit(past, log) {
        CaseKeepsHash(log.payload.txHash, past.payload.txHash);
      }
    }
  }

  /**
    A deposit is accepted exactly when it states an amount, a network and a hash, and no earlier one was of the
    same transaction on the same network up to letter case. What is stored keeps its amount, event and sender.
  */
  lemma DepositCreditedOnce(l: Ledger, logs: seq<Log>, log: Log)
    requires LedgerMatches(l, logs) && log.kind.Deposit?
    ensures DepositStep(l.deposits, log).Ok? <==>
            && log.amount.Some? && log.payload.DepositPayload? && log.payload.network != ""
            && ThirtyTwoBytes(log.payload.txHash)
            && forall n :: 0 <= n < |logs| ==> !SameDeposit(logs[n], log)
    ensures DepositStep(l.deposits, log).Ok? ==> StoresDeposit(l.deposits, DepositStep(l.deposits, log).value, log)
  {
    if log.payload.DepositPayload? {
      HashIsBytes(log.payload.txHash);
    }
    if log.amount.Some? && DepositPayloadOk(log) {
      DepositsOfMembers(logs, DepositKey(DepositOf(log)));
      forall n | 0 <= n < |logs|
        ensures SameDeposit(logs[n], log) <==> IsDepositOf(logs[n], DepositKey(DepositOf(log)))
      {
        SameDepositSameKey(logs[n], log);
      }
      LowerForgetsCase(log.payload.network, log.payload.network);
      LowerForgetsCase(log.payload.txHash, log.payload.txHash);
      LowerForgetsCase(log.address, log.address);
    }
  }

  /** One deposit is appended: that of `log`, with its texts in lower case. */
  predicate StoresDeposit(deposits: seq<DepositRecord>, deposits': seq<DepositRecord>, log: Log)
    requires log.amount.Some? && log.payload.DepositPayload?
  {
    && |deposits'| == |deposits| + 1 && deposits'[..|deposits|] == deposits
    && var d := deposits'[|deposits|];
       && d.amount == log.amount.value && d.eventId == log.id
       && SameUpToCase(d.network, log.payload.network) && InLowerCase(d.network)
       && SameUpToCase(d.txHash, log.payload.txHash) && InLowerCase(d.txHash)
       && SameUpToCase(d.payer, log.address) && InLowerCase(d.payer)
  }

  lemma {:induction false} DepositsOfMembers(logs: seq<Log>, key: (string, string))
    ensures HasKey(DepositsOf(logs), key) <==> exists n :: 0 <= n < |logs| && IsDepositOf(logs[n], key)
  {
    if logs != [] {
      var before, log := logs[..|logs| - 1], logs[|logs| - 1];
      DepositsOfMembers(before, key);
      var d, d' := DepositsOf(before), DepositsOf(logs);
      if HasKey(d, key) {
        var i :| 0 <= i < |d| && DepositKey(d[i]) == key;
        assert DepositKey(d'[i]) == key;
        var n :| 0 <= n < |before| && IsDepositOf(before[n], key);
        assert IsDepositOf(logs[n], key);
      }
      if IsDepositOf(log, key) {
        assert DepositKey(d'[|d|]) == key;
      }
    }
  }
}
