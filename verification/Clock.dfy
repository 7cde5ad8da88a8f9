/** A host's drifting clock and its inverse by binary search. Drift is a real number here. */
module Clock {

  /** The first point from which the predicate holds, if it does not change its mind. */
  method BinarySearch(begin: int, end: int, p: int -> bool) returns (r: int)
    ensures begin <= end ==> begin <= r <= end && (r == end || p(r)) && (r == begin || !p(r - 1))
    ensures begin > end ==> r == begin
    ensures begin <= end && (forall a, b :: begin <= a <= b < end && p(a) ==> p(b)) ==>
              forall k :: begin <= k < end ==> (p(k) <==> r <= k)
  {
    var low, high := begin, end;
    while low < high
      invariant begin <= end ==>
                  begin <= low <= high <= end && (high == end || p(high)) && (low == begin || !p(low - 1))
      invariant begin > end ==> low == begin && high == end
    {
      var middle := low + (high - low) / 2;
      if p(middle) {
        high := middle;
      } else {
        low := middle + 1;
      }
    }
    r := low;
  }

  /** Times count from zero up to the largest duration. */
  datatype HostClock = HostClock(drift: real, startTime: nat, limit: nat)

  /** Rounding towards zero. */
  function Truncate(x: real): int { if x >= 0.0 then x.Floor else -((-x).Floor) }

  /** By how much the clock has drifted. */
  function Shift(drift: real, global: int): int { Truncate(drift * global as real) }

  function ToLocalTime(c: HostClock, global: int): int { global + Shift(c.drift, global) + c.startTime }

  lemma TruncateGrows(x: real, y: real)
    requires x <= y
    ensures Truncate(x) <= Truncate(y)
  {}

  lemma TruncateSteps(x: real, y: real)
    requires x <= 0.0 && y <= 0.0 && x - 1.0 <= y
    ensures Truncate(x) - 1 <= Truncate(y)
  {
    assert (-y).Floor <= (-x).Floor + 1 by { assert -y <= -x + 1.0; }
  }

  lemma DriftNext(drift: real, g: nat)
    ensures drift * (g + 1) as real == drift * g as real + drift
  {
    assert (g + 1) as real == g as real + 1.0;
  }

  lemma DriftSign(drift: real, g: nat)
    ensures drift <= 0.0 ==> drift * g as real <= 0.0
  {}

  lemma ShiftNext(drift: real, g: nat)
    requires drift >= -1.0
    ensures Shift(drift, g) - 1 <= Shift(drift, g + 1)
    ensures drift >= 0.0 ==> Shift(drift, g) <= Shift(drift, g + 1)
  {
    var x, y := drift * g as real, drift * (g + 1) as real;
    assert y == x + drift by { DriftNext(drift, g); }
    assert drift <= 0.0 ==> x <= 0.0 && y <= 0.0 by {
      DriftSign(drift, g);
      DriftSign(drift, g + 1);
    }
    TruncateNext(x, y, drift);
  }

  /** A clock that does not run backwards does not show an earlier time later; one that is not slow
      moves with every tick. */
  lemma LocalNext(c: HostClock, g: nat)
    requires c.drift >= -1.0
    ensures ToLocalTime(c, g) <= ToLocalTime(c, g + 1)
    ensures c.drift >= 0.0 ==> ToLocalTime(c, g) < ToLocalTime(c, g + 1)
  {
    ShiftNext(c.drift, g);
  }

  lemma TruncateNext(x: real, y: real, drift: real)
    requires y == x + drift && drift >= -1.0 && (drift <= 0.0 ==> x <= 0.0 && y <= 0.0)
    ensures Truncate(x) - 1 <= Truncate(y)
    ensures drift >= 0.0 ==> Truncate(x) <= Truncate(y)
  {
    if drift >= 0.0 { TruncateGrows(x, y); } else { TruncateSteps(x, y); }
  }

  lemma {:induction false} LocalGrows(c: HostClock, a: nat, b: nat)
    requires c.drift >= -1.0 && a <= b
    ensures ToLocalTime(c, a) <= ToLocalTime(c, b)
    ensures c.drift >= 0.0 ==> ToLocalTime(c, b) - ToLocalTime(c, a) >= b - a
    decreases b - a
  {
    if a < b {
      LocalGrows(c, a, b - 1);
      LocalNext(c, b - 1);
    }
  }

  lemma TruncateBounds(x: real)
    ensures x >= 0.0 ==> Truncate(x) as real <= x < Truncate(x) as real + 1.0
    ensures x <= 0.0 ==> Truncate(x) as real - 1.0 < x <= Truncate(x) as real
  {
    assert x <= 0.0 ==> (-x).Floor as real <= -x < (-x).Floor as real + 1.0;
  }

  lemma DriftOf(drift: real, g: real)
    requires g >= 0.0
    ensures (drift >= 0.0 ==> drift * g >= 0.0) && (drift <= 0.0 ==> drift * g <= 0.0)
    ensures (1.0 + drift) * g == g + drift * g
  {}

  /** The clock shows its start time at time 0 and advances 1 + drift times as fast as global time, up
      to less than one tick: a fast clock is not ahead of that, and a slow one not behind. */
  lemma LocalRate(c: HostClock, g: nat)
    ensures ToLocalTime(c, 0) == c.startTime
    ensures var shown, exact := (ToLocalTime(c, g) - c.startTime) as real, (1.0 + c.drift) * g as real;
            && (c.drift >= 0.0 ==> shown <= exact < shown + 1.0)
            && (c.drift <= 0.0 ==> shown - 1.0 < exact <= shown)
  {
    assert c.drift * 0.0 == 0.0;
    DriftOf(c.drift, g as real);
    TruncateBounds(c.drift * g as real);
    var shift := Shift(c.drift, g);
    assert (g + shift) as real == g as real + shift as real;
  }

  /** The local time is one the clock reaches. */
  predicate InRange(c: HostClock, local: int) { local <= ToLocalTime(c, c.limit) }

  /** The earliest global time at which the host's clock shows at least the local time: it has come
      if and only if the local time has. */
  method ToGlobalTime(c: HostClock, local: int) returns (global: nat)
    requires c.drift >= -1.0 && InRange(c, local)
    ensures global <= c.limit
    ensures forall g: nat :: g <= c.limit ==> (global <= g <==> local <= ToLocalTime(c, g))
  {
    var r := BinarySearch(0, c.limit, val => ToLocalTime(c, val) >= local);
    global := r;
    forall a: nat, b: nat | a <= b && ToLocalTime(c, a) >= local ensures ToLocalTime(c, b) >= local {
      LocalGrows(c, a, b);
    }
    assert ToLocalTime(c, global) >= local;
  }

  /** The inverse gives the time back if and only if the clock moved at that tick. */
  method RoundTrip(c: HostClock, now: nat) returns (global: nat)
    requires c.drift >= -1.0 && now <= c.limit
    ensures global <= now
    ensures global == now <==> now == 0 || ToLocalTime(c, now - 1) < ToLocalTime(c, now)
    ensures c.drift >= 0.0 ==> global == now
  {
    LocalGrows(c, now, c.limit);
    global := ToGlobalTime(c, ToLocalTime(c, now));
    if now > 0 {
      LocalNext(c, now - 1);
      assert global <= now - 1 <==> ToLocalTime(c, now) <= ToLocalTime(c, now - 1);
    }
  }

  /** The target of a sleep that starts now. It is not in the past if and only if the tick before
      showed less than the time slept for; on a clock that is not slow it never is. */
  method SleepTarget(c: HostClock, now: nat, duration: nat, lag: nat) returns (target: nat)
    requires c.drift >= -1.0 && now <= c.limit && InRange(c, ToLocalTime(c, now) + duration + lag)
    ensures target <= c.limit && ToLocalTime(c, target) >= ToLocalTime(c, now) + duration + lag
    ensures now <= target <==> now == 0 || ToLocalTime(c, now - 1) < ToLocalTime(c, now) + duration + lag
    ensures c.drift >= 0.0 ==> now <= target <= now + duration + lag
  {
    target := ToGlobalTime(c, ToLocalTime(c, now) + duration + lag);
    if now > 0 {
      LocalNext(c, now - 1);
      assert target <= now - 1 <==> ToLocalTime(c, now) + duration + lag <= ToLocalTime(c, now - 1);
    }
    if now + duration + lag <= c.limit { LocalGrows(c, now, now + duration + lag); }
  }

  /** A slow clock can send a sleeper into the past: it may show the same time at two ticks. */
  method SlowClock() returns (target: nat)
    ensures target < 2
  {
    var c := HostClock(-0.5, 0, 10);
    assert ToLocalTime(c, 1) == 1 && ToLocalTime(c, 2) == 1 && ToLocalTime(c, 10) == 5;
    target := ToGlobalTime(c, ToLocalTime(c, 2));
  }
}
