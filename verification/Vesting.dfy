/**
  The vesting schedule of models/vesting.go: how much of a grant may be released at a given time.
  Times are Unix seconds. `time.Time.Sub` saturates at the largest `time.Duration`, which is why the
  number of elapsed days is capped.
*/
module Vesting {
  const SECONDS_PER_DAY := 86400

  /** Whole days in the largest 64-bit nanosecond duration. */
  const MAX_DURATION_DAYS := 106751

  function UtcDay(t: int): int {
    t / SECONDS_PER_DAY
  }

  function ElapsedDays(start: int, now: int): int {
    var days := UtcDay(now) - UtcDay(start);
    if days > MAX_DURATION_DAYS then MAX_DURATION_DAYS else days
  }

  function ShouldReleased(total: int, start: int, days: nat, now: int): int {
    if total <= 0 || days == 0 || now < start then 0
    else if ElapsedDays(start, now) >= days then total
    else total * ElapsedDays(start, now) / days
  }

  lemma DayMonotone(a: int, b: int)
    requires a <= b
    ensures UtcDay(a) <= UtcDay(b)
  {
  }

  lemma MulSign(d: int, k: int)
    requires d > 0
    ensures k >= 1 ==> d * k >= d
    ensures k >= 0 ==> d * k >= 0
  {
  }

  lemma DivMonotone(x: int, y: int, d: int)
    requires d > 0 && x <= y
    ensures x / d <= y / d
  {
    var qx, qy := x / d, y / d;
    assert x == d * qx + x % d && y == d * qy + y % d;
    MulSign(d, qx - qy);
    assert d * (qx - qy) == d * qx - d * qy;
  }

  lemma DivBelow(total: int, elapsed: int, d: int)
    requires total > 0 && 0 <= elapsed < d
    ensures 0 <= total * elapsed / d < total
  {
    var q := total * elapsed / d;
    assert total * elapsed == d * q + (total * elapsed) % d;
    assert total * elapsed < total * d;
    MulSign(d, q - total);
    assert d * (q - total) == d * q - d * total;
  }

  /** The schedule stays between nothing and the grant, and is empty up to the end of the start day. */
  lemma ScheduleBounds(total: int, start: int, days: nat, now: int)
    ensures 0 <= ShouldReleased(total, start, days, now)
    ensures total >= 0 ==> ShouldReleased(total, start, days, now) <= total
    ensures UtcDay(now) <= UtcDay(start) ==> ShouldReleased(total, start, days, now) == 0
  {
    if total > 0 && days > 0 && start <= now {
      DayMonotone(start, now);
      if ElapsedDays(start, now) < days {
        DivBelow(total, ElapsedDays(start, now), days);
      }
    }
  }

  lemma DivIsFloor(x: int, d: int)
    requires d > 0
    ensures x / d * d <= x < (x / d + 1) * d
  {
    assert x == d * (x / d) + x % d;
  }

  /**
    The schedule is linear in whole UTC days, rounded down: after `e` of `days` days, e capped at 106751, it is
    the largest amount whose share of the grant is at most e / days, and everything once e reaches `days`.
  */
  lemma ScheduleShare(total: int, start: int, days: nat, now: int)
    requires total > 0 && days > 0 && start <= now
    ensures var r, passed := ShouldReleased(total, start, days, now), now / 86400 - start / 86400;
            var e := if passed <= 106751 then passed else 106751;
            && (e < days ==> r * days <= total * e < (r + 1) * days)
            && (e >= days ==> r == total)
  {
    DayMonotone(start, now);
    DivIsFloor(total * ElapsedDays(start, now), days);
  }

  lemma ShareMonotone(total: int, e: int, f: int, d: int)
    requires total > 0 && e <= f && d > 0
    ensures total * e / d <= total * f / d
  {
    assert total * (f - e) >= 0;
    assert total * f == total * e + total * (f - e);
    DivMonotone(total * e, total * f, d);
  }

  /** Later never releases less, across any number of day boundaries. */
  lemma ScheduleMonotone(total: int, start: int, days: nat, now: int, later: int)
    requires now <= later
    ensures ShouldReleased(total, start, days, now) <= ShouldReleased(total, start, days, later)
  {
    ScheduleBounds(total, start, days, now);
    ScheduleBounds(total, start, days, later);
    if total > 0 && days > 0 && start <= now {
      DayMonotone(now, later);
      var e, f := ElapsedDays(start, now), ElapsedDays(start, later);
      assert e <= f;
      if f < days {
        ShareMonotone(total, e, f, days);
      }
    }
  }

  /** Nothing is left behind by rounding: the whole grant is released exactly from the last day on. */
  lemma ScheduleCompletes(total: int, start: int, days: nat, now: int)
    requires total > 0 && 0 < days <= MAX_DURATION_DAYS && start <= now
    ensures ShouldReleased(total, start, days, now) == total <==> UtcDay(now) - UtcDay(start) >= days
  {
    DayMonotone(start, now);
    if ElapsedDays(start, now) < days {
      DivBelow(total, ElapsedDays(start, now), days);
    }
  }

  /** Grants longer than the saturated duration never complete; all others do. */
  lemma CompletesIffRepresentable(total: int, start: int, days: nat)
    requires total > 0 && days > 0
    ensures (exists now :: ShouldReleased(total, start, days, now) == total) <==> days <= MAX_DURATION_DAYS
  {
    if days <= MAX_DURATION_DAYS {
      var now := start + days * SECONDS_PER_DAY;
      assert UtcDay(now) == UtcDay(start) + days;
      assert ShouldReleased(total, start, days, now) == total;
    } else {
      forall now ensures ShouldReleased(total, start, days, now) != total {
        if start <= now {
          DayMonotone(start, now);
          DivBelow(total, ElapsedDays(start, now), days);
        }
      }
    }
  }

  function Sum(amounts: seq<int>): int {
    if amounts == [] then 0 else Sum(amounts[..|amounts| - 1]) + amounts[|amounts| - 1]
  }

  /** The amount released at each time when every release takes all that is due. */
  function DueReleases(total: int, start: int, days: nat, released: int, times: seq<int>): seq<int> {
    if times == [] then []
    else
      var before := times[..|times| - 1];
      DueReleases(total, start, days, released, before)
      + [ShouldReleased(total, start, days, times[|times| - 1])
         - (if before == [] then released else ShouldReleased(total, start, days, before[|before| - 1]))]
  }

  /** However the releases are split in time, they are non-negative and add up to what was due. */
  lemma {:induction false} SplitReleasesTelescope(total: int, start: int, days: nat, released: int, times: seq<int>)
    requires times != []
    requires forall i, j :: 0 <= i <= j < |times| ==> times[i] <= times[j]
    requires released <= ShouldReleased(total, start, days, times[0])
    ensures var parts := DueReleases(total, start, days, released, times);
            && |parts| == |times|
            && (forall i :: 0 <= i < |parts| ==> parts[i] >= 0)
            && Sum(parts) == ShouldReleased(total, start, days, times[|times| - 1]) - released
  {
    var before, last := times[..|times| - 1], times[|times| - 1];
    var parts := DueReleases(total, start, days, released, times);
    assert parts[..|parts| - 1] == DueReleases(total, start, days, released, before);
    if before != [] {
      SplitReleasesTelescope(total, start, days, released, before);
      ScheduleMonotone(total, start, days, before[|before| - 1], last);
    }
  }

  /** A grant released in any number of instalments past its last day has paid out exactly its total. */
  lemma SplitReleasesPayTotal(total: int, start: int, days: nat, released: int, times: seq<int>)
    requires total > 0 && 0 < days <= MAX_DURATION_DAYS
    requires times != [] && start <= times[0]
    requires forall i, j :: 0 <= i <= j < |times| ==> times[i] <= times[j]
    requires released <= ShouldReleased(total, start, days, times[0])
    requires UtcDay(times[|times| - 1]) - UtcDay(start) >= days
    ensures released + Sum(DueReleases(total, start, days, released, times)) == total
  {
    SplitReleasesTelescope(total, start, days, released, times);
    ScheduleCompletes(total, start, days, times[|times| - 1]);
  }
}
