/**
  The daily limit over runs of the request synchroniser: batches are checked, then inserted, possibly
  after midnight, while other workers settle records. No key ever has more counted records created on
  one UTC day than its network allows.
*/
module DailyLimitRuns {
  import opened Wrappers
  import opened DailyLimit
  import Protocol
  import Evolution

  /** `resendsMayChange` admits a Relay that sends a request again under the same id with other fields. */
  datatype Rules = Rules(limits: map<string, nat>, resendsMayChange: bool)

  datatype Sync = Sync(records: seq<Stored>, batch: Option<seq<Entry>>, now: nat)

  /** A row about to be inserted: pending when its authorisation was valid, failed when it was not. */
  datatype Row = Row(entry: Entry, valid: bool)

  datatype Step =
    | Tick(seconds: nat)
    | Check(requests: seq<Entry>)
    | Abandon
    | Insert(rows: seq<Row>, replayed: set<nat>)
    | Settle(k: nat, status: Protocol.WithdrawStatus)

  /** Requests that have been stored before come with the fields they are stored with. */
  ghost predicate KeepsFields(records: seq<Stored>, requests: seq<Entry>) {
    forall k, i :: 0 <= k < |records| && 0 <= i < |requests| && records[k].entry.id == requests[i].id
      ==> records[k].entry == requests[i]
  }

  predicate Taken(records: seq<Stored>, id: nat) {
    exists k :: 0 <= k < |records| && records[k].entry.id == id
  }

  /** ON CONFLICT DO NOTHING: a taken id, or a replayed fingerprint, inserts nothing. */
  function Inserted(records: seq<Stored>, rows: seq<Row>, replayed: set<nat>, now: nat): seq<Stored> {
    if rows == [] then records
    else
      var r, before := rows[|rows| - 1], Inserted(records, rows[..|rows| - 1], replayed, now);
      if Taken(before, r.entry.id) || r.entry.id in replayed then before
      else before + [Stored(r.entry, now, if r.valid then Protocol.WPending else Protocol.WFailed)]
  }

  /** Only the valid requests of a received batch go through the check. */
  ghost predicate OnlyChecked(rows: seq<Row>, requests: seq<Entry>) {
    forall i :: 0 <= i < |rows| && rows[i].valid ==> rows[i].entry in requests
  }

  ghost function Next(rules: Rules, s: Sync, step: Step): Option<Sync> {
    match step
    case Tick(n) => Some(s.(now := s.now + n))
    case Check(requests) =>
      if s.batch.None? && WithinLimits(rules.limits, s.records, requests, Day(s.now))
         && (rules.resendsMayChange || KeepsFields(s.records, requests))
      then Some(s.(batch := Some(requests))) else None
    case Abandon => Some(s.(batch := None))
    case Insert(rows, replayed) =>
      if s.batch.Some? && OnlyChecked(rows, s.batch.value)
      then Some(s.(batch := None, records := Inserted(s.records, rows, replayed, s.now))) else None
    case Settle(k, status) =>
      if k < |s.records| && Evolution.WithdrawReaches(s.records[k].status, status)
      then Some(s.(records := s.records[k := s.records[k].(status := status)])) else None
  }

  ghost predicate Run(rules: Rules, states: seq<Sync>, steps: seq<Step>) {
    && |states| == |steps| + 1 && states[0].records == [] && states[0].batch.None?
    && forall n :: 0 <= n < |steps| ==> Next(rules, states[n], steps[n]) == Some(states[n + 1])
  }

  // ---------------------------------------------------------------- counting records

  /** A withdrawal under way or paid, asked for by or paid to the address of `key`, in the seconds of UTC day `day`. */
  predicate Hits(s: Stored, role: Role, key: Key, day: nat) {
    && (s.status.WPending? || s.status.WSuccess? || s.status.WFinished?)
    && s.entry.network == key.network
    && (match role case Requester => s.entry.address == key.address case Beneficiary => s.entry.benefit == key.address)
    && 86400 * day <= s.createdAt < 86400 * (day + 1)
  }

  /** How many counted records of `key` were created on `day`. */
  function TallyOn(records: seq<Stored>, role: Role, key: Key, day: nat): nat {
    if records == [] then 0
    else TallyOn(records[..|records| - 1], role, key, day) + if Hits(records[|records| - 1], role, key,
                                                                     day) then 1 else 0
  }

  ghost function CountedOn(records: seq<Stored>, role: Role, key: Key, day: nat): set<nat> {
    set k | 0 <= k < |records| && Hits(records[k], role, key, day) :: records[k].entry.id
  }

  ghost function IdsOf(list: seq<Entry>, role: Role, key: Key): set<nat> {
    set i | 0 <= i < |list| && KeyOf(role, list[i]) == key :: list[i].id
  }

  ghost predicate DistinctIds(records: seq<Stored>) {
    forall j, k :: 0 <= j < k < |records| ==> records[j].entry.id != records[k].entry.id
  }

  lemma {:induction false} SubsetSize(a: set<nat>, b: set<nat>)
    requires a <= b
    ensures |a| <= |b|
  {
    if a != {} {
      var x :| x in a;
      SubsetSize(a - {x}, b - {x});
    }
  }

  lemma IdsPush(list: seq<Entry>, role: Role, key: Key)
    requires list != [] && KeyOf(role, list[|list| - 1]) == key
    ensures IdsOf(list, role, key) == IdsOf(list[..|list| - 1], role, key) + {list[|list| - 1].id}
  {
  }

  lemma IdsSkip(list: seq<Entry>, role: Role, key: Key)
    requires list != [] && KeyOf(role, list[|list| - 1]) != key
    ensures IdsOf(list, role, key) == IdsOf(list[..|list| - 1], role, key)
  {
  }

  lemma {:induction false} IdsBoundedByTally(list: seq<Entry>, role: Role, key: Key)
    ensures |IdsOf(list, role, key)| <= Tally(list, role, key)
  {
    if list != [] {
      IdsBoundedByTally(list[..|list| - 1], role, key);
      if KeyOf(role, list[|list| - 1]) == key {
        IdsPush(list, role, key);
      } else {
        IdsSkip(list, role, key);
      }
    }
  }

  lemma CountedPush(records: seq<Stored>, role: Role, key: Key, day: nat)
    requires records != [] && Hits(records[|records| - 1], role, key, day)
    ensures CountedOn(records, role, key, day) == CountedOn(records[..|records| - 1], role, key,
                                                            day) + {records[|records| - 1].entry.id}
  {
  }

  lemma CountedSkip(records: seq<Stored>, role: Role, key: Key, day: nat)
    requires records != [] && !Hits(records[|records| - 1], role, key, day)
    ensures CountedOn(records, role, key, day) == CountedOn(records[..|records| - 1], role, key, day)
  {
  }

  lemma NewIdNotCounted(records: seq<Stored>, role: Role, key: Key, day: nat)
    requires records != [] && DistinctIds(records)
    ensures records[|records| - 1].entry.id !in CountedOn(records[..|records| - 1], role, key, day)
  {
  }

  lemma {:induction false} TallyIsSize(records: seq<Stored>, role: Role, key: Key, day: nat)
    requires DistinctIds(records)
    ensures TallyOn(records, role, key, day) == |CountedOn(records, role, key, day)|
  {
    if records != [] {
      TallyIsSize(records[..|records| - 1], role, key, day);
      NewIdNotCounted(records, role, key, day);
      if Hits(records[|records| - 1], role, key, day) {
        CountedPush(records, role, key, day);
      } else {
        CountedSkip(records, role, key, day);
      }
    }
  }

  lemma {:induction false} SinceMember(records: seq<Stored>, requests: seq<Entry>, day: nat, k: nat)
    requires k < |records| && Relevant(records[k], requests, day)
    ensures exists i :: 0 <= i < |Since(records, requests, day)| && Since(records, requests, day)[i] == records[k].entry
  {
    var before := records[..|records| - 1];
    var list := Since(records, requests, day);
    if k < |before| {
      SinceMember(before, requests, day, k);
      var i :| 0 <= i < |Since(before, requests, day)| && Since(before, requests, day)[i] == records[k].entry;
      assert list[i] == records[k].entry;
    } else {
      assert list[|list| - 1] == records[k].entry;
    }
  }

  lemma {:induction false} IdHasMember(requests: seq<Entry>, id: nat) returns (i: nat)
    requires id in Ids(requests)
    ensures i < |requests| && requests[i].id == id
  {
    if requests[|requests| - 1].id == id {
      i := |requests| - 1;
    } else {
      i := IdHasMember(requests[..|requests| - 1], id);
    }
  }

  // ---------------------------------------------------------------- the invariant

  ghost predicate WithinLimit(limits: map<string, nat>, records: seq<Stored>, role: Role, key: Key, day: nat) {
    key.network in limits ==> |CountedOn(records, role, key, day)| <= limits[key.network]
  }

  ghost predicate Holds(limits: map<string, nat>, s: Sync) {
    && DistinctIds(s.records)
    && (forall k :: 0 <= k < |s.records| ==> s.records[k].createdAt <= s.now)
    && (forall role, key, day :: WithinLimit(limits, s.records, role, key, day))
    && (s.batch.Some? ==> KeepsFields(s.records, s.batch.value) && CheckedEarlier(limits, s))
  }

  /** The batch passed the check, on this day or an earlier one. */
  ghost predicate CheckedEarlier(limits: map<string, nat>, s: Sync)
    requires s.batch.Some?
  {
    exists day :: 0 <= day <= Day(s.now) && WithinLimits(limits, s.records, s.batch.value, day)
  }

  // ---------------------------------------------------------------- settling

  lemma SincePush(before: seq<Stored>, s: Stored, requests: seq<Entry>, day: nat, role: Role, key: Key)
    ensures Tally(Since(before + [s], requests, day), role, key)
         == Tally(Since(before, requests, day), role, key) + One(Relevant(s, requests, day)
                                                                 && KeyOf(role, s.entry) == key)
  {
    SinceStep(before + [s], requests, day, role, key);
    assert (before + [s])[..|before|] == before;
  }

  lemma {:induction false} SettleShrinksTally(records: seq<Stored>, k: nat, s: Stored, requests: seq<Entry>, day: nat,
                                              role: Role, key: Key)
    requires k < |records| && s.entry == records[k].entry && s.createdAt == records[k].createdAt
    requires (Counted(s) ==> Counted(records[k]))
    ensures Tally(Since(records[k := s], requests, day), role, key) <= Tally(Since(records, requests, day), role, key)
  {
    var before, last := records[..|records| - 1], records[|records| - 1];
    assert before + [last] == records;
    SincePush(before, last, requests, day, role, key);
    if k < |before| {
      assert before[k := s] + [last] == records[k := s];
      SettleShrinksTally(before, k, s, requests, day, role, key);
      SincePush(before[k := s], last, requests, day, role, key);
    } else {
      assert before + [s] == records[k := s];
      SincePush(before, s, requests, day, role, key);
    }
  }

  lemma SettleKeepsCheck(limits: map<string, nat>, records: seq<Stored>, k: nat, s: Stored, requests: seq<Entry>,
                         day: nat)
    requires WithinLimits(limits, records, requests, day)
    requires k < |records| && s.entry == records[k].entry && s.createdAt == records[k].createdAt
    requires (Counted(s) ==> Counted(records[k]))
    ensures WithinLimits(limits, records[k := s], requests, day)
  {
    forall i, role | 0 <= i < |requests| && Fits(limits, records, requests, day, role, requests[i])
      ensures Fits(limits, records[k := s], requests, day, role, requests[i])
    {
      SettleShrinksTally(records, k, s, requests, day, role, KeyOf(role, requests[i]));
    }
  }

  lemma SettleKeeps(limits: map<string, nat>, s: Sync, k: nat, status: Protocol.WithdrawStatus)
    requires Holds(limits, s) && k < |s.records| && Evolution.WithdrawReaches(s.records[k].status, status)
    ensures Holds(limits, s.(records := s.records[k := s.records[k].(status := status)]))
  {
    var r := s.records[k].(status := status);
    var s' := s.(records := s.records[k := r]);
    forall role, key, day ensures WithinLimit(limits, s'.records, role, key, day) {
      assert WithinLimit(limits, s.records, role, key, day);
      SubsetSize(CountedOn(s'.records, role, key, day), CountedOn(s.records, role, key, day));
    }
    if s.batch.Some? {
      var day :| 0 <= day <= Day(s.now) && WithinLimits(limits, s.records, s.batch.value, day);
      SettleKeepsCheck(limits, s.records, k, r, s.batch.value, day);
    }
  }

  // ---------------------------------------------------------------- inserting

  /** What an insertion leaves: the old records, then new ones of today under fresh ids, counted only when checked. */
  lemma {:induction false} InsertedShape(records: seq<Stored>, rows: seq<Row>, replayed: set<nat>, now: nat,
                                         requests: seq<Entry>)
    requires DistinctIds(records) && OnlyChecked(rows, requests)
    ensures var after := Inserted(records, rows, replayed, now);
            && records <= after && DistinctIds(after)
            && (forall k :: |records| <= k < |after| ==>
                  after[k].createdAt == now
                  && (Counted(after[k]) ==> after[k].entry in requests))
  {
    if rows != [] {
      InsertedShape(records, rows[..|rows| - 1], replayed, now, requests);
    }
  }

  /** Everything counted for a key of the batch on a day since the check is in the batch or was counted by the check. */
  lemma InsertedWithinCheck(records: seq<Stored>, after: seq<Stored>, requests: seq<Entry>, role: Role, key: Key,
                            checked: nat, day: nat)
    requires KeepsFields(records, requests) && checked <= day && records <= after
    requires forall k :: |records| <= k < |after| && Counted(after[k]) ==> after[k].entry in requests
    ensures CountedOn(after, role, key, day)
         <= IdsOf(requests, role, key) + IdsOf(Since(records, requests, checked), role, key)
  {
    forall id | id in CountedOn(after, role, key, day)
      ensures id in IdsOf(requests, role, key) + IdsOf(Since(records, requests, checked), role, key)
    {
      var k :| 0 <= k < |after| && Hits(after[k], role, key, day) && after[k].entry.id == id;
      if k >= |records| {
        var i :| 0 <= i < |requests| && requests[i] == after[k].entry;
      } else if id in Ids(requests) {
        var i := IdHasMember(requests, id);
        assert records[k].entry == requests[i];
      } else {
        SinceMember(records, requests, checked, k);
      }
    }
  }

  lemma InsertKeepsLimit(limits: map<string, nat>, records: seq<Stored>, after: seq<Stored>, requests: seq<Entry>,
                         role: Role, key: Key,
                         checked: nat, day: nat)
    requires WithinLimit(limits, records, role, key, day) && KeepsFields(records, requests) && records <= after
    requires WithinLimits(limits, records, requests, checked)
    requires forall k :: |records| <= k < |after| && Counted(after[k]) ==>
          after[k].entry in requests
          && Day(after[k].createdAt) >= checked
    ensures WithinLimit(limits, after, role, key, day)
  {
    if i :| 0 <= i < |requests| && KeyOf(role, requests[i]) == key && checked <= day {
      InsertedWithinCheck(records, after, requests, role, key, checked, day);
      var a, b := IdsOf(requests, role, key), IdsOf(Since(records, requests, checked), role, key);
      SubsetSize(CountedOn(after, role, key, day), a + b);
      IdsBoundedByTally(requests, role, key);
      IdsBoundedByTally(Since(records, requests, checked), role, key);
      assert Fits(limits, records, requests, checked, role, requests[i]);
    } else {
      assert CountedOn(after, role, key, day) <= CountedOn(records, role, key, day);
      SubsetSize(CountedOn(after, role, key, day), CountedOn(records, role, key, day));
    }
  }

  lemma InsertKeeps(limits: map<string, nat>, s: Sync, rows: seq<Row>, replayed: set<nat>)
    requires Holds(limits, s) && s.batch.Some? && OnlyChecked(rows, s.batch.value)
    ensures Holds(limits, s.(batch := None, records := Inserted(s.records, rows, replayed, s.now)))
  {
    var after := Inserted(s.records, rows, replayed, s.now);
    InsertedShape(s.records, rows, replayed, s.now, s.batch.value);
    var checked :| 0 <= checked <= Day(s.now) && WithinLimits(limits, s.records, s.batch.value, checked);
    forall role, key, day ensures WithinLimit(limits, after, role, key, day) {
      assert WithinLimit(limits, s.records, role, key, day);
      InsertKeepsLimit(limits, s.records, after, s.batch.value, role, key, checked, day);
    }
  }

  // ---------------------------------------------------------------- all runs

  lemma NextKeeps(rules: Rules, s: Sync, step: Step, s': Sync)
    requires Holds(rules.limits, s) && !rules.resendsMayChange && Next(rules, s, step) == Some(s')
    ensures Holds(rules.limits, s')
  {
    match step
    case Tick(n) =>
      if s.batch.Some? {
        var day :| 0 <= day <= Day(s.now) && WithinLimits(rules.limits, s.records, s.batch.value, day);
        assert day <= Day(s'.now);
      }
    case Check(requests) =>
      assert Day(s.now) <= Day(s'.now);
    case Abandon =>
    case Insert(rows, replayed) => InsertKeeps(rules.limits, s, rows, replayed);
    case Settle(k, status) => SettleKeeps(rules.limits, s, k, status);
  }

  lemma {:induction false} RunHolds(rules: Rules, states: seq<Sync>, steps: seq<Step>, n: nat)
    requires Run(rules, states, steps) && n < |states| && !rules.resendsMayChange
    ensures Holds(rules.limits, states[n])
  {
    if n > 0 {
      RunHolds(rules, states, steps, n - 1);
      NextKeeps(rules, states[n - 1], steps[n - 1], states[n]);
    } else {
      forall role, key, day ensures WithinLimit(rules.limits, [], role, key, day) {
        assert CountedOn([], role, key, day) == {};
      }
    }
  }

  ghost predicate Exceeded(limits: map<string, nat>, s: Sync, role: Role, key: Key, day: nat) {
    key.network in limits && TallyOn(s.records, role, key, day) > limits[key.network]
  }

  /** No requester and no beneficiary ever exceeds its network's daily limit, unless re-sent requests may change. */
  lemma DailyLimitHolds(rules: Rules, states: seq<Sync>, steps: seq<Step>, n: nat, role: Role, key: Key, day: nat)
    requires Run(rules, states, steps) && n < |states| && !rules.resendsMayChange
    ensures !Exceeded(rules.limits, states[n], role, key, day)
  {
    RunHolds(rules, states, steps, n);
    TallyIsSize(states[n].records, role, key, day);
    assert WithinLimit(rules.limits, states[n].records, role, key, day);
  }

  // ---------------------------------------------------------------- a request that comes back changed

  function Asks(w: string, i: nat): Entry {
    Entry(i, w, "a", "a")
  }

  function Many(w: string, n: nat): seq<Entry> {
    if n == 0 then [] else Many(w, n - 1) + [Asks(w, n - 1)]
  }

  function ManyRows(w: string, n: nat): seq<Row> {
    if n == 0 then [] else ManyRows(w, n - 1) + [Row(Asks(w, n - 1), true)]
  }

  function ManyStored(w: string, n: nat): seq<Stored> {
    if n == 0 then [] else ManyStored(w, n - 1) + [Stored(Asks(w, n - 1), 0, Protocol.WPending)]
  }

  lemma {:induction false} ManyAre(w: string, n: nat)
    ensures |Many(w, n)| == |ManyRows(w, n)| == |ManyStored(w, n)| == n
    ensures forall i :: 0 <= i < n ==> Many(w, n)[i] == Asks(w, i) && ManyRows(w, n)[i] == Row(Asks(w, i), true)
    ensures forall i :: 0 <= i < n ==> ManyStored(w, n)[i] == Stored(Asks(w, i), 0, Protocol.WPending)
  {
    if n > 0 {
      ManyAre(w, n - 1);
    }
  }

  lemma {:induction false} ManyTally(w: string, n: nat, role: Role)
    ensures Tally(Many(w, n), role, Key(w, "a")) == n
  {
    if n > 0 {
      ManyTally(w, n - 1, role);
      TallyPush(Many(w, n - 1), Asks(w, n - 1), role, Key(w, "a"));
    }
  }

  lemma TallyOnPush(before: seq<Stored>, s: Stored, role: Role, key: Key, day: nat)
    ensures TallyOn(before + [s], role, key, day) == TallyOn(before, role, key, day) + One(Hits(s, role, key, day))
  {
    assert (before + [s])[..|before|] == before;
  }

  lemma {:induction false} ManyTallyOn(w: string, n: nat, role: Role)
    ensures TallyOn(ManyStored(w, n), role, Key(w, "a"), 0) == n
  {
    if n > 0 {
      ManyTallyOn(w, n - 1, role);
      TallyOnPush(ManyStored(w, n - 1), Stored(Asks(w, n - 1), 0, Protocol.WPending), role, Key(w, "a"), 0);
    }
  }

  lemma InsertFresh(records: seq<Stored>, rows: seq<Row>, e: Entry, now: nat)
    requires !Taken(Inserted(records, rows, {}, now), e.id)
    ensures Inserted(records, rows + [Row(e, true)], {}, now) == Inserted(records, rows, {},
                                                                          now) + [Stored(e, now, Protocol.WPending)]
  {
    assert (rows + [Row(e, true)])[..|rows|] == rows;
  }

  lemma {:induction false} ManyInserted(w: string, n: nat)
    ensures Inserted([], ManyRows(w, n), {}, 0) == ManyStored(w, n)
  {
    if n > 0 {
      ManyInserted(w, n - 1);
      ManyAre(w, n - 1);
      InsertFresh([], ManyRows(w, n - 1), Asks(w, n - 1), 0);
    }
  }

  /** The first request comes back with other addresses, next to a new one of the old requester. */
  function Changed(w: string, n: nat): seq<Entry> {
    [Entry(0, w, "b", "b"), Asks(w, n)]
  }

  lemma ChangedIds(w: string, n: nat)
    ensures Ids(Changed(w, n)) == {0, n}
  {
    var list := Changed(w, n);
    assert list[..1] == [list[0]] && list[..1][..0] == [];
    assert Ids(list[..1]) == Ids([]) + {0};
  }

  lemma ChangedTally(w: string, n: nat, role: Role)
    ensures Tally(Changed(w, n), role, Key(w, "a")) == 1 && Tally(Changed(w, n), role, Key(w, "b")) == 1
  {
    var list := Changed(w, n);
    assert list[..1] == [list[0]] && list[..1][..0] == [];
    assert Tally(list[..1], role, Key(w, "a")) == 0 && Tally(list[..1], role, Key(w, "b")) == 1;
  }

  lemma AsksRelevant(w: string, i: nat, limit: nat)
    requires i < limit
    ensures Relevant(Stored(Asks(w, i), 0, Protocol.WPending), Changed(w, limit), 0) <==> i > 0
  {
    ChangedIds(w, limit);
  }

  /** The check no longer sees the first record, which is stored under the old addresses. */
  lemma {:induction false} ChangedHidesOne(w: string, n: nat, limit: nat, role: Role, address: string)
    requires n <= limit
    ensures Tally(Since(ManyStored(w, n), Changed(w, limit), 0), role, Key(w, address))
         == if address == "a" && n > 0 then n - 1 else 0
  {
    if n > 0 {
      ChangedHidesOne(w, n - 1, limit, role, address);
      AsksRelevant(w, n - 1, limit);
      SincePush(ManyStored(w, n - 1), Stored(Asks(w, n - 1), 0, Protocol.WPending), Changed(w, limit), 0, role,
                Key(w, address));
    }
  }

  lemma FirstBatchPasses(limits: map<string, nat>, w: string)
    requires w in limits && limits[w] > 0
    ensures WithinLimits(limits, [], Many(w, limits[w]), 0) && KeepsFields([], Many(w, limits[w]))
  {
    ManyAre(w, limits[w]);
    forall i, role | 0 <= i < limits[w] ensures Fits(limits, [], Many(w, limits[w]), 0, role, Many(w, limits[w])[i]) {
      ManyTally(w, limits[w], role);
    }
  }

  lemma ChangedBatchPasses(limits: map<string, nat>, w: string)
    requires w in limits && limits[w] > 0
    ensures WithinLimits(limits, ManyStored(w, limits[w]), Changed(w, limits[w]), 0)
  {
    forall i, role | 0 <= i < 2 ensures Fits(limits, ManyStored(w, limits[w]), Changed(w, limits[w]), 0, role,
                                             Changed(w, limits[w])[i]) {
      ChangedTally(w, limits[w], role);
      ChangedHidesOne(w, limits[w], limits[w], role, "a");
      ChangedHidesOne(w, limits[w], limits[w], role, "b");
    }
  }

  function TwoRows(w: string, n: nat): seq<Row> {
    [Row(Entry(0, w, "b", "b"), true), Row(Asks(w, n), true)]
  }

  lemma ChangedInserted(w: string, n: nat)
    requires n > 0
    ensures Inserted(ManyStored(w, n), TwoRows(w, n), {}, 0) == ManyStored(w, n + 1)
  {
    ManyAre(w, n);
    var rows, before := TwoRows(w, n), ManyStored(w, n);
    assert rows[..1] == [rows[0]] && rows[..1][..0] == [];
    assert before[0].entry.id == 0 && Taken(before, 0) && !Taken(before, n);
    assert Inserted(before, rows[..1], {}, 0) == before;
  }

  lemma FirstBatchRuns(rules: Rules, w: string)
    requires w in rules.limits && rules.limits[w] > 0
    ensures var n := rules.limits[w];
            && Next(rules, Sync([], None, 0), Check(Many(w, n))) == Some(Sync([], Some(Many(w, n)), 0))
            && Next(rules, Sync([], Some(Many(w, n)), 0), Insert(ManyRows(w, n), {}))
               == Some(Sync(ManyStored(w, n), None, 0))
  {
    FirstBatchPasses(rules.limits, w);
    ManyInserted(w, rules.limits[w]);
    ManyChecked(w, rules.limits[w]);
  }

  lemma ManyChecked(w: string, n: nat)
    ensures OnlyChecked(ManyRows(w, n), Many(w, n))
  {
    ManyAre(w, n);
    forall i | 0 <= i < n ensures ManyRows(w, n)[i].entry in Many(w, n) {
      assert Many(w, n)[i] == ManyRows(w, n)[i].entry;
    }
  }

  lemma ChangedBatchRuns(rules: Rules, w: string)
    requires rules.resendsMayChange && w in rules.limits && rules.limits[w] > 0
    ensures var n := rules.limits[w];
            && Next(rules, Sync(ManyStored(w, n), None, 0), Check(Changed(w, n)))
               == Some(Sync(ManyStored(w, n), Some(Changed(w, n)), 0))
            && Next(rules, Sync(ManyStored(w, n), Some(Changed(w, n)), 0), Insert(TwoRows(w, n), {}))
               == Some(Sync(ManyStored(w, n + 1), None, 0))
  {
    var n := rules.limits[w];
    ChangedBatchPasses(rules.limits, w);
    ChangedInserted(w, n);
    assert Changed(w, n)[0] in Changed(w, n) && Changed(w, n)[1] in Changed(w, n);
  }

  /** A run of four steps that ends above the limit, whatever the limit is. */
  lemma ChangedRequestBreaksLimit(rules: Rules, w: string) returns (states: seq<Sync>, steps: seq<Step>)
    requires rules.resendsMayChange && w in rules.limits && rules.limits[w] > 0
    ensures Run(rules, states, steps) && |states| == 5
    ensures forall role :: Exceeded(rules.limits, states[4], role, Key(w, "a"), 0)
  {
    var n := rules.limits[w];
    var first, second := Many(w, n), Changed(w, n);
    FirstBatchRuns(rules, w);
    ChangedBatchRuns(rules, w);
    steps := [Check(first), Insert(ManyRows(w, n), {}), Check(second), Insert(TwoRows(w, n), {})];
    states := [Sync([], None, 0), Sync([], Some(first), 0), Sync(ManyStored(w, n), None, 0),
               Sync(ManyStored(w, n), Some(second), 0), Sync(ManyStored(w, n + 1), None, 0)];
    forall role ensures Exceeded(rules.limits, states[4], role, Key(w, "a"), 0) {
      ManyTallyOn(w, n + 1, role);
    }
  }

  /** The limits hold in every run exactly when a re-sent request keeps its fields. */
  lemma DailyLimitExactly(rules: Rules, w: string)
    requires w in rules.limits && rules.limits[w] > 0
    ensures (forall states, steps, n: nat, role, key, day: nat :: Run(rules, states, steps) && n < |states|
               ==> !Exceeded(rules.limits, states[n], role, key, day)) <==> !rules.resendsMayChange
  {
    if rules.resendsMayChange {
      var states, steps := ChangedRequestBreaksLimit(rules, w);
      assert Exceeded(rules.limits, states[4], Requester, Key(w, "a"), 0);
    } else {
      forall states, steps, n: nat, role, key, day: nat | Run(rules, states, steps) && n < |states|
        ensures !Exceeded(rules.limits, states[n], role, key, day)
      {
        DailyLimitHolds(rules, states, steps, n, role, key, day);
      }
    }
  }
}
