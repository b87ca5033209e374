/**
  The daily withdrawal limit (tasks/process_withdrawal_requests.go, checkWithdrawalDailyLimit): per
  network, at most so many counted withdrawals a UTC day for every requester and every beneficiary.
*/
module DailyLimit {
  import opened Wrappers
  import Protocol

  datatype Entry = Entry(id: nat, network: string, address: string, benefit: string)

  datatype Stored = Stored(entry: Entry, createdAt: nat, status: Protocol.WithdrawStatus)

  datatype Role = Requester | Beneficiary

  datatype Key = Key(network: string, address: string)

  datatype LimitError = NetworkInvalid | DailyLimitExceeded

  function KeyOf(role: Role, e: Entry): Key {
    Key(e.network, if role.Requester? then e.address else e.benefit)
  }

  function Day(t: nat): nat {
    t / 86400
  }

  /** Failed and rejected records do not count against the limit. */
  predicate Counted(s: Stored) {
    !s.status.WFailed? && !s.status.WFinishedRejected?
  }

  function Tally(list: seq<Entry>, role: Role, key: Key): nat {
    if list == [] then 0
    else Tally(list[..|list| - 1], role, key) + if KeyOf(role, list[|list| - 1]) == key then 1 else 0
  }

  // ---------------------------------------------------------------- what a batch mentions

  function Networks(requests: seq<Entry>): set<string> {
    if requests == [] then {} else Networks(requests[..|requests| - 1]) + {requests[|requests| - 1].network}
  }

  function Addresses(requests: seq<Entry>): set<string> {
    if requests == [] then {} else Addresses(requests[..|requests| - 1]) + {requests[|requests| - 1].address}
  }

  function Benefits(requests: seq<Entry>): set<string> {
    if requests == [] then {} else Benefits(requests[..|requests| - 1]) + {requests[|requests| - 1].benefit}
  }

  function Ids(requests: seq<Entry>): set<nat> {
    if requests == [] then {} else Ids(requests[..|requests| - 1]) + {requests[|requests| - 1].id}
  }

  function Keys(requests: seq<Entry>, role: Role): set<Key> {
    if requests == [] then {} else Keys(requests[..|requests| - 1], role) + {KeyOf(role, requests[|requests| - 1])}
  }

  lemma {:induction false} MemberMentioned(requests: seq<Entry>, role: Role, i: nat)
    requires i < |requests|
    ensures requests[i].network in Networks(requests) && requests[i].address in Addresses(requests)
    ensures requests[i].benefit in Benefits(requests) && requests[i].id in Ids(requests)
    ensures KeyOf(role, requests[i]) in Keys(requests, role)
  {
    if i < |requests| - 1 {
      MemberMentioned(requests[..|requests| - 1], role, i);
    }
  }

  lemma {:induction false} KeyHasMember(requests: seq<Entry>, role: Role, key: Key) returns (i: nat)
    requires key in Keys(requests, role)
    ensures i < |requests| && KeyOf(role, requests[i]) == key
  {
    if KeyOf(role, requests[|requests| - 1]) == key {
      i := |requests| - 1;
    } else {
      i := KeyHasMember(requests[..|requests| - 1], role, key);
    }
  }

  // ---------------------------------------------------------------- the stored records that matter

  predicate Relevant(s: Stored, requests: seq<Entry>, day: nat) {
    Counted(s) && Day(s.createdAt) >= day && s.entry.id !in Ids(requests)
  }

  lemma {:induction false} IdsAreMembers(requests: seq<Entry>, id: nat)
    ensures id in Ids(requests) <==> exists i :: 0 <= i < |requests| && requests[i].id == id
  {
    if requests != [] {
      var before := requests[..|requests| - 1];
      IdsAreMembers(before, id);
      if i :| 0 <= i < |requests| && requests[i].id == id {
        assert i < |before| ==> before[i].id == id;
      }
    }
  }

  /** A record under way or paid, made since midnight UTC, whose id the batch does not bring back. */
  predicate Stands(s: Stored, requests: seq<Entry>, now: nat) {
    && (s.status.WPending? || s.status.WSuccess? || s.status.WFinished?)
    && s.createdAt >= now - now % 86400
    && forall i :: 0 <= i < |requests| ==> requests[i].id != s.entry.id
  }

  lemma RelevantExactly(s: Stored, requests: seq<Entry>, now: nat)
    ensures Relevant(s, requests, Day(now)) <==> Stands(s, requests, now)
  {
    IdsAreMembers(requests, s.entry.id);
  }

  /** Every record that the limit is about: counted, created since the start of `day`, not re-sent in this batch. */
  function Since(records: seq<Stored>, requests: seq<Entry>, day: nat): seq<Entry> {
    if records == [] then []
    else
      var s, before := records[|records| - 1], Since(records[..|records| - 1], requests, day);
      if Relevant(s, requests, day) then before + [s.entry] else before
  }

  predicate Mentioned(requests: seq<Entry>, e: Entry) {
    e.network in Networks(requests) && (e.address in Addresses(requests) || e.benefit in Benefits(requests))
  }

  /** The rows the one broad query returns: any requested network combined with any requested address. */
  function Broad(records: seq<Stored>, requests: seq<Entry>, day: nat): seq<Entry> {
    if records == [] then []
    else
      var s, before := records[|records| - 1], Broad(records[..|records| - 1], requests, day);
      if Mentioned(requests, s.entry) && Relevant(s, requests, day) then before + [s.entry] else before
  }

  /** For the keys of the batch, the broad query counts exactly what a query per key would count. */
  lemma {:induction false} BroadCountsExactly(records: seq<Stored>, requests: seq<Entry>, day: nat, role: Role, i: nat)
    requires i < |requests|
    ensures Tally(Broad(records, requests, day), role, KeyOf(role, requests[i]))
         == Tally(Since(records, requests, day), role, KeyOf(role, requests[i]))
  {
    if records != [] {
      BroadCountsExactly(records[..|records| - 1], requests, day, role, i);
      SinceStep(records, requests, day, role, KeyOf(role, requests[i]));
      BroadStep(records, requests, day, role, KeyOf(role, requests[i]));
      MemberMentioned(requests, role, i);
    }
  }

  function One(hit: bool): nat {
    if hit then 1 else 0
  }

  lemma SinceStep(records: seq<Stored>, requests: seq<Entry>, day: nat, role: Role, key: Key)
    requires records != []
    ensures Tally(Since(records, requests, day), role, key)
         == Tally(Since(records[..|records| - 1], requests, day), role, key)
            + One(Relevant(records[|records| - 1], requests, day) && KeyOf(role, records[|records| - 1].entry) == key)
  {
    TallyPush(Since(records[..|records| - 1], requests, day), records[|records| - 1].entry, role, key);
  }

  lemma BroadStep(records: seq<Stored>, requests: seq<Entry>, day: nat, role: Role, key: Key)
    requires records != []
    ensures Tally(Broad(records, requests, day), role, key)
         == Tally(Broad(records[..|records| - 1], requests, day), role, key)
            + One(Mentioned(requests, records[|records| - 1].entry) && Relevant(records[|records| - 1], requests, day)
                  && KeyOf(role, records[|records| - 1].entry) == key)
  {
    TallyPush(Broad(records[..|records| - 1], requests, day), records[|records| - 1].entry, role, key);
  }

  lemma TallyPush(list: seq<Entry>, e: Entry, role: Role, key: Key)
    ensures Tally(list + [e], role, key) == Tally(list, role, key) + if KeyOf(role, e) == key then 1 else 0
  {
    assert (list + [e])[..|list|] == list;
  }

  predicate NetworkOk(limits: map<string, nat>, network: string) {
    network in limits && limits[network] > 0
  }

  /** What the check promises about a batch: after inserting all of it, no key of it is over its limit. */
  ghost predicate WithinLimits(limits: map<string, nat>, records: seq<Stored>, requests: seq<Entry>, day: nat) {
    forall i :: 0 <= i < |requests| ==>
      NetworkOk(limits, requests[i].network) && Fits(limits, records, requests, day, Requester, requests[i])
      && Fits(limits, records, requests, day, Beneficiary, requests[i])
  }

  ghost predicate Fits(limits: map<string, nat>, records: seq<Stored>, requests: seq<Entry>, day: nat, role: Role,
                       e: Entry) {
    e.network in limits
    && Tally(requests, role, KeyOf(role, e)) + Tally(Since(records, requests, day), role,
                                                     KeyOf(role, e)) <= limits[e.network]
  }

  // ---------------------------------------------------------------- the limits in plain numbers

  /** Two withdrawals on one network by the same requester, or to the same beneficiary. */
  predicate SameParty(role: Role, a: Entry, b: Entry) {
    && a.network == b.network
    && match role case Requester => a.address == b.address case Beneficiary => a.benefit == b.benefit
  }

  ghost function InBatch(requests: seq<Entry>, role: Role, e: Entry): set<nat> {
    set i | 0 <= i < |requests| && SameParty(role, requests[i], e)
  }

  ghost function Standing(records: seq<Stored>, requests: seq<Entry>, now: nat, role: Role, e: Entry): set<nat> {
    set k | 0 <= k < |records| && Stands(records[k], requests, now) && SameParty(role, records[k].entry, e)
  }

  /** Every network is limited, and no party of the batch has more withdrawals today than its network allows. */
  ghost predicate LimitsKept(limits: map<string, nat>, records: seq<Stored>, requests: seq<Entry>, now: nat) {
    forall i :: 0 <= i < |requests| ==>
      && requests[i].network in limits && limits[requests[i].network] > 0
      && PartyKept(limits, records, requests, now, Requester, requests[i])
      && PartyKept(limits, records, requests, now, Beneficiary, requests[i])
  }

  ghost predicate PartyKept(limits: map<string, nat>, records: seq<Stored>, requests: seq<Entry>, now: nat,
                            role: Role, e: Entry) {
    && e.network in limits
    && |InBatch(requests, role, e)| + |Standing(records, requests, now, role, e)| <= limits[e.network]
  }

  lemma InBatchStep(list: seq<Entry>, role: Role, e: Entry)
    requires list != []
    ensures var n := |list| - 1;
            InBatch(list, role, e) == InBatch(list[..n], role, e) + if SameParty(role, list[n], e) then {n} else {}
  {
  }

  lemma StandingStep(records: seq<Stored>, requests: seq<Entry>, now: nat, role: Role, e: Entry)
    requires records != []
    ensures var n := |records| - 1;
            Standing(records, requests, now, role, e)
            == Standing(records[..n], requests, now, role, e)
               + if Stands(records[n], requests, now) && SameParty(role, records[n].entry, e) then {n} else {}
  {
  }

  lemma {:induction false} TallyCounts(list: seq<Entry>, role: Role, e: Entry)
    ensures Tally(list, role, KeyOf(role, e)) == |InBatch(list, role, e)|
  {
    if list != [] {
      TallyCounts(list[..|list| - 1], role, e);
      InBatchStep(list, role, e);
    }
  }

  lemma {:induction false} SinceCounts(records: seq<Stored>, requests: seq<Entry>, now: nat, role: Role, e: Entry)
    ensures Tally(Since(records, requests, Day(now)), role, KeyOf(role, e))
         == |Standing(records, requests, now, role, e)|
  {
    if records != [] {
      var n := |records| - 1;
      SinceCounts(records[..n], requests, now, role, e);
      SinceStep(records, requests, Day(now), role, KeyOf(role, e));
      RelevantExactly(records[n], requests, now);
      StandingStep(records, requests, now, role, e);
    }
  }

  lemma LimitsExactly(limits: map<string, nat>, records: seq<Stored>, requests: seq<Entry>, now: nat)
    ensures WithinLimits(limits, records, requests, Day(now)) <==> LimitsKept(limits, records, requests, now)
  {
    forall i, role: Role | 0 <= i < |requests|
      ensures Fits(limits, records, requests, Day(now), role, requests[i])
         <==> PartyKept(limits, records, requests, now, role, requests[i])
    {
      TallyCounts(requests, role, requests[i]);
      SinceCounts(records, requests, now, role, requests[i]);
    }
  }

  // ---------------------------------------------------------------- the check

  /** `counts` has the keys of the batch, each with its share of the batch and of `stored`. */
  ghost predicate CountsAre(counts: map<Key, nat>, requests: seq<Entry>, stored: seq<Entry>, role: Role) {
    && counts.Keys == Keys(requests, role)
    && forall key :: key in counts ==> counts[key] == Tally(requests, role, key) + Tally(stored, role, key)
  }

  lemma {:induction false} TallyAbsent(list: seq<Entry>, role: Role, key: Key)
    requires key !in Keys(list, role)
    ensures Tally(list, role, key) == 0
  {
    if list != [] {
      TallyAbsent(list[..|list| - 1], role, key);
    }
  }

  function Bump(counts: map<Key, nat>, key: Key): map<Key, nat> {
    counts[key := (if key in counts then counts[key] else 0) + 1]
  }

  lemma CountRequest(counts: map<Key, nat>, requests: seq<Entry>, n: nat, role: Role)
    requires n < |requests| && CountsAre(counts, requests[..n], [], role)
    ensures CountsAre(Bump(counts, KeyOf(role, requests[n])), requests[..n + 1], [], role)
  {
    var key, more := KeyOf(role, requests[n]), requests[..n + 1];
    assert more[..n] == requests[..n];
    if key !in counts {
      TallyAbsent(requests[..n], role, key);
    }
  }

  lemma CountStored(counts: map<Key, nat>, requests: seq<Entry>, stored: seq<Entry>, n: nat, role: Role)
    requires n < |stored| && CountsAre(counts, requests, stored[..n], role)
    ensures var key := KeyOf(role, stored[n]);
            CountsAre(if key in counts then Bump(counts, key) else counts, requests, stored[..n + 1], role)
  {
    assert stored[..n + 1][..n] == stored[..n];
  }

  /** The query itself, row by row. */
  method QueryStored(records: seq<Stored>, requests: seq<Entry>, networks: set<string>, addresses: set<string>,
                     benefits: set<string>, ids: set<nat>, day: nat) returns (found: seq<Entry>)
    requires networks == Networks(requests) && addresses == Addresses(requests) && benefits == Benefits(requests)
    requires ids == Ids(requests)
    ensures found == Broad(records, requests, day)
  {
    found := [];
    var n := 0;
    while n < |records|
      invariant n <= |records| && found == Broad(records[..n], requests, day)
    {
      assert records[..n + 1][..n] == records[..n];
      var s := records[n];
      if s.entry.network in networks && (s.entry.address in addresses || s.entry.benefit in benefits)
         && Day(s.createdAt) >= day && Counted(s) && s.entry.id !in ids {
        found := found + [s.entry];
      }
      n := n + 1;
    }
    assert records[..n] == records;
  }

  method CheckCounts(counts: map<Key, nat>, limits: map<string, nat>) returns (ok: bool)
    requires forall key :: key in counts ==> key.network in limits
    ensures ok <==> forall key :: key in counts ==> counts[key] <= limits[key.network]
  {
    var todo := counts.Keys;
    ok := true;
    while todo != {} && ok
      invariant todo <= counts.Keys
      invariant ok <==> forall key :: key in counts && key !in todo ==> counts[key] <= limits[key.network]
      decreases |todo|
    {
      var key :| key in todo;
      ok := counts[key] <= limits[key.network];
      todo := todo - {key};
    }
  }

  lemma CountsFit(limits: map<string, nat>, records: seq<Stored>, requests: seq<Entry>, day: nat, role: Role,
                  counts: map<Key, nat>)
    requires CountsAre(counts, requests, Broad(records, requests, day), role)
    requires forall key :: key in counts ==> key.network in limits
    ensures (forall key :: key in counts ==> counts[key] <= limits[key.network])
       <==> (forall i :: 0 <= i < |requests| ==> Fits(limits, records, requests, day, role, requests[i]))
  {
    forall i | 0 <= i < |requests|
      ensures KeyOf(role, requests[i]) in counts
      ensures Fits(limits, records, requests, day, role, requests[i])
         <==> counts[KeyOf(role, requests[i])] <= limits[requests[i].network]
    {
      MemberMentioned(requests, role, i);
      BroadCountsExactly(records, requests, day, role, i);
    }
    forall key | key in counts ensures exists i :: 0 <= i < |requests| && KeyOf(role, requests[i]) == key {
      var i := KeyHasMember(requests, role, key);
    }
  }

  lemma KeysHaveLimits(limits: map<string, nat>, requests: seq<Entry>, role: Role)
    requires forall i :: 0 <= i < |requests| ==> NetworkOk(limits, requests[i].network)
    ensures forall key :: key in Keys(requests, role) ==> key.network in limits
  {
    forall key | key in Keys(requests, role) ensures key.network in limits {
      var i := KeyHasMember(requests, role, key);
    }
  }

  /** The first loop: the batch's own counts, or the first request whose network is unknown or unlimited. */
  method CountRequests(limits: map<string, nat>, requests: seq<Entry>)
    returns (ok: bool, byRequester: map<Key, nat>, byBenefit: map<Key, nat>)
    ensures ok <==> forall i :: 0 <= i < |requests| ==> NetworkOk(limits, requests[i].network)
    ensures ok ==> CountsAre(byRequester, requests, [], Requester) && CountsAre(byBenefit, requests, [], Beneficiary)
  {
    byRequester, byBenefit := map[], map[];
    var n := 0;
    while n < |requests|
      invariant n <= |requests| && forall i :: 0 <= i < n ==> NetworkOk(limits, requests[i].network)
      invariant CountsAre(byRequester, requests[..n], [], Requester)
      invariant CountsAre(byBenefit, requests[..n], [], Beneficiary)
    {
      if requests[n].network !in limits || limits[requests[n].network] == 0 {
        return false, byRequester, byBenefit;
      }
      CountRequest(byRequester, requests, n, Requester);
      CountRequest(byBenefit, requests, n, Beneficiary);
      byRequester := Bump(byRequester, KeyOf(Requester, requests[n]));
      byBenefit := Bump(byBenefit, KeyOf(Beneficiary, requests[n]));
      n := n + 1;
    }
    assert requests[..n] == requests;
    ok := true;
  }

  /** The second loop: stored records raise the counts of the batch's keys, and only those. */
  method CountRecords(requests: seq<Entry>, stored: seq<Entry>, role: Role, counts: map<Key, nat>)
    returns (r: map<Key, nat>)
    requires CountsAre(counts, requests, [], role)
    ensures CountsAre(r, requests, stored, role)
  {
    r := counts;
    var n := 0;
    while n < |stored|
      invariant n <= |stored| && CountsAre(r, requests, stored[..n], role)
    {
      CountStored(r, requests, stored, n, role);
      if KeyOf(role, stored[n]) in r {
        r := Bump(r, KeyOf(role, stored[n]));
      }
      n := n + 1;
    }
    assert stored[..n] == stored;
  }

  /** checkWithdrawalDailyLimit passes a batch exactly when inserting all of it keeps every key within its limit. */
  method CheckWithdrawalDailyLimit(limits: map<string, nat>, records: seq<Stored>, requests: seq<Entry>, now: nat)
    returns (r: Result<bool, LimitError>)
    ensures r.Ok? <==> WithinLimits(limits, records, requests, Day(now))
    ensures r.Ok? <==> LimitsKept(limits, records, requests, now)
    ensures r == Err(NetworkInvalid) <==> exists i :: 0 <= i < |requests| && !NetworkOk(limits, requests[i].network)
  {
    LimitsExactly(limits, records, requests, now);
    if |requests| == 0 {
      return Ok(true);
    }
    var ok, byRequester, byBenefit := CountRequests(limits, requests);
    if !ok {
      return Err(NetworkInvalid);
    }
    var stored := QueryStored(records, requests, Networks(requests), Addresses(requests), Benefits(requests),
                              Ids(requests), Day(now));
    byRequester := CountRecords(requests, stored, Requester, byRequester);
    byBenefit := CountRecords(requests, stored, Beneficiary, byBenefit);
    KeysHaveLimits(limits, requests, Requester);
    KeysHaveLimits(limits, requests, Beneficiary);
    CountsFit(limits, records, requests, Day(now), Requester, byRequester);
    CountsFit(limits, records, requests, Day(now), Beneficiary, byBenefit);
    var fits := CheckCounts(byRequester, limits);
    if fits {
      fits := CheckCounts(byBenefit, limits);
    }
    r := if fits then Ok(true) else Err(DailyLimitExceeded);
  }
}
