// The delay before the next attempt: exponential, capped, with jitter added on top. `unit` is RETRY_BASE_MS, `cap`
// RETRY_MAX_MS, and a jitter is what the random draw returned.
module Backoff {
  predicate Jitter(r: real) { 0.0 <= r < 1.0 }

  function Pow2(n: nat): (p: nat)
    ensures p >= 1 && (n > 0 ==> p >= 2)
  {
    if n == 0 then 1 else 2 * Pow2(n - 1)
  }

  // Math.round
  function Round(x: real): int { (x + 0.5).Floor }

  function Uncapped(attempts: nat, unit: real): real { Pow2(attempts) as real * unit }

  function Base(attempts: nat, unit: real, cap: real): real {
    if Uncapped(attempts, unit) < cap then Uncapped(attempts, unit) else cap
  }

  function NextDelay(attempts: nat, unit: real, cap: real, jitter: real): int {
    var base := Base(attempts, unit, cap);
    Round(base + Extra(base, jitter))
  }

  function Extra(base: real, jitter: real): real { jitter * base * 0.3 }

  lemma RoundMonotone(x: real, y: real)
    requires x <= y
    ensures Round(x) <= Round(y)
  {}

  lemma RoundNear(x: real)
    ensures x - 0.5 < Round(x) as real <= x + 0.5
  {}

  lemma RoundWhole(n: int)
    ensures Round(n as real) == n
  {}

  lemma UncappedPositive(attempts: nat, unit: real)
    requires unit >= 0.0
    ensures Uncapped(attempts, unit) >= 0.0
    ensures Uncapped(attempts + 1, unit) == 2.0 * Uncapped(attempts, unit)
  {
    var p := Pow2(attempts) as real;
    assert p * unit >= 0.0;
  }

  lemma JitterAdds(base: real, jitter: real)
    requires base >= 0.0 && Jitter(jitter)
    ensures 0.0 <= Extra(base, jitter) <= 0.3 * base
  {
    assert 0.0 <= jitter * base;
    assert jitter * base <= base by { assert (1.0 - jitter) * base >= 0.0; }
  }

  // Main result: for every attempt and draw the delay lies between a floor and 1.3 times it, both rounded to the nearest
  // millisecond; the floor is 2^attempts units while that is below the cap, and the cap from there on.
  lemma DelayBounds(attempts: nat, unit: real, cap: real, jitter: real, full: real)
    requires unit >= 0.0 && cap >= 0.0 && Jitter(jitter) && full == Pow2(attempts) as real * unit
    ensures var delay := NextDelay(attempts, unit, cap, jitter);
      && (full < cap ==> Round(full) <= delay <= Round(1.3 * full) && full - 0.5 < delay as real <= 1.3 * full + 0.5)
      && (full >= cap ==> Round(cap) <= delay <= Round(1.3 * cap) && cap - 0.5 < delay as real <= 1.3 * cap + 0.5)
  {
    assert full == Uncapped(attempts, unit);
    assert Base(attempts, unit, cap) == if full < cap then full else cap;
    hide NextDelay, Round, Uncapped, Base, Pow2;
    var delay := NextDelay(attempts, unit, cap, jitter);
    BaseBounds(attempts, unit, cap, jitter);
    if full < cap { NearestMillisecond(full, delay); } else { NearestMillisecond(cap, delay); }
  }

  lemma NearestMillisecond(floor: real, delay: int)
    requires Round(floor) <= delay <= Round(1.3 * floor)
    ensures floor - 0.5 < delay as real <= 1.3 * floor + 0.5
  {
    RoundNear(floor);
    RoundNear(1.3 * floor);
  }

  lemma BaseBounds(attempts: nat, unit: real, cap: real, jitter: real)
    requires unit >= 0.0 && cap >= 0.0 && Jitter(jitter)
    ensures var base := Base(attempts, unit, cap);
      Round(base) <= NextDelay(attempts, unit, cap, jitter) <= Round(1.3 * base)
  {
    var base := Base(attempts, unit, cap);
    UncappedPositive(attempts, unit);
    JitterAdds(base, jitter);
    hide Uncapped, Extra;
    RoundMonotone(base, base + Extra(base, jitter));
    RoundMonotone(base + Extra(base, jitter), 1.3 * base);
  }

  // Main result: whatever the draw, the delay is never below its floor if and only if rounding the floor does not lower
  // it - it is whole, or its fraction is a half or more.
  lemma NeverBelowFloorExactly(attempts: nat, unit: real, cap: real)
    requires unit >= 0.0 && cap >= 0.0
    ensures var base := Base(attempts, unit, cap);
      (forall jitter :: Jitter(jitter) ==> base <= NextDelay(attempts, unit, cap, jitter) as real)
      <==> base == base.Floor as real || base - base.Floor as real >= 0.5
  {
    var base := Base(attempts, unit, cap);
    assert Jitter(0.0) && Extra(base, 0.0) == 0.0;
    assert NextDelay(attempts, unit, cap, 0.0) == Round(base);
    RoundedUpExactly(base);
    forall jitter | Jitter(jitter) ensures Round(base) <= NextDelay(attempts, unit, cap, jitter) {
      BaseBounds(attempts, unit, cap, jitter);
    }
  }

  lemma RoundedUpExactly(x: real)
    ensures x <= Round(x) as real <==> x == x.Floor as real || x - x.Floor as real >= 0.5
  {
    var n := x.Floor;
    var f := x - n as real;
    assert 0.0 <= f < 1.0;
    assert Round(x) == if f >= 0.5 then n + 1 else n;
  }

  // The default unit and cap: 2 s, 4 s, 8 s, 16 s, 32 s, and from the sixth attempt on a minute, before jitter.
  lemma DefaultDelays()
    ensures NextDelay(1, 1000.0, 60000.0, 0.0) == 2000 && NextDelay(5, 1000.0, 60000.0, 0.0) == 32000
    ensures NextDelay(6, 1000.0, 60000.0, 0.0) == 60000 && NextDelay(6, 1000.0, 60000.0, 0.5) == 69000
  {
    assert Pow2(1) == 2 && Pow2(5) == 32 && Pow2(6) == 64;
  }

  // It does happen: a unit of a fifth of a millisecond, a floor of 0.4 ms, no jitter, no wait.
  lemma BelowFloor()
    ensures Base(1, 0.2, 60000.0) == 0.4 && NextDelay(1, 0.2, 60000.0, 0.0) == 0
  {
    assert Pow2(1) == 2;
  }

  // The jitter spreads: every whole millisecond from the floor up to 1.3 times it is the delay of some draw.
  lemma DelaySpreads(attempts: nat, unit: real, cap: real, delay: int)
    requires unit >= 0.0 && cap >= 0.0
    requires var base := Base(attempts, unit, cap); base <= delay as real < 1.3 * base
    ensures exists jitter :: Jitter(jitter) && NextDelay(attempts, unit, cap, jitter) == delay
  {
    var base := Base(attempts, unit, cap);
    UncappedPositive(attempts, unit);
    var jitter := (delay as real - base) / (0.3 * base);
    assert jitter * (0.3 * base) == delay as real - base;
    assert jitter * base * 0.3 == jitter * (0.3 * base);
    assert Jitter(jitter) by { QuotientInUnit(delay as real - base, 0.3 * base); }
    assert NextDelay(attempts, unit, cap, jitter) == Round(delay as real) == delay;
  }

  lemma QuotientInUnit(x: real, y: real)
    requires 0.0 <= x < y
    ensures Jitter(x / y)
  {
    var q := x / y;
    assert q * y == x;
    assert q >= 1.0 ==> (q - 1.0) * y >= 0.0;
    assert q < 0.0 ==> q * y < 0.0;
  }

  // Main result: while the cap is not reached, each delay exceeds the one before it, whatever the two draws, if and
  // only if 1.3 floors and the half of rounding stay within the next floor, rounded.
  lemma DelaysGrowExactly(attempts: nat, unit: real, cap: real)
    requires unit >= 0.0 && Uncapped(attempts + 1, unit) <= cap
    ensures (forall r, r' :: Jitter(r) && Jitter(r') ==>
               NextDelay(attempts, unit, cap, r) < NextDelay(attempts + 1, unit, cap, r'))
      <==> 1.3 * Uncapped(attempts, unit) + 0.5 <= Round(2.0 * Uncapped(attempts, unit)) as real
  {
    var base := Uncapped(attempts, unit);
    UncappedPositive(attempts, unit);
    assert Base(attempts, unit, cap) == base && Base(attempts + 1, unit, cap) == 2.0 * base;
    hide Uncapped, Base, NextDelay;
    if 1.3 * base + 0.5 <= Round(2.0 * base) as real {
      forall r, r' | Jitter(r) && Jitter(r')
        ensures NextDelay(attempts, unit, cap, r) < NextDelay(attempts + 1, unit, cap, r')
      {
        DelayOf(attempts, unit, cap, r);
        DelayOf(attempts + 1, unit, cap, r');
        BelowTheTop(base, r);
        JitterAdds(2.0 * base, r');
        hide Extra;
        RoundMonotone(2.0 * base, 2.0 * base + Extra(2.0 * base, r'));
      }
    } else {
      var r := NearTheTop(base, Round(2.0 * base));
      DelayOf(attempts, unit, cap, r);
      DelayOf(attempts + 1, unit, cap, 0.0);
      assert Jitter(r) && Jitter(0.0) && Extra(2.0 * base, 0.0) == 0.0;
      assert !(NextDelay(attempts, unit, cap, r) < NextDelay(attempts + 1, unit, cap, 0.0));
    }
  }

  lemma DelayOf(attempts: nat, unit: real, cap: real, jitter: real)
    ensures var base := Base(attempts, unit, cap); NextDelay(attempts, unit, cap, jitter) == Round(base + Extra(base, jitter))
  {}

  // A draw is less than one, so 1.3 times a floor is never quite reached.
  lemma BelowTheTop(base: real, r: real)
    requires base > 0.0 && Jitter(r)
    ensures base + Extra(base, r) < 1.3 * base
  {
    assert (1.0 - r) * base > 0.0;
  }

  // But some draw rounds to any delay below 1.3 floors plus a half, or the floor is there already.
  lemma NearTheTop(base: real, n: int) returns (r: real)
    requires base >= 0.0 && 1.3 * base + 0.5 > n as real
    ensures Jitter(r) && Round(base + Extra(base, r)) >= n
  {
    var x := n as real - 0.5;
    if x <= base {
      r := 0.0;
      assert Extra(base, 0.0) == 0.0;
    } else {
      r := (x - base) / (0.3 * base);
      QuotientInUnit(x - base, 0.3 * base);
      assert r * (0.3 * base) == x - base;
      assert Extra(base, r) == r * (0.3 * base);
    }
  }

  // A floor of 10/7 ms is enough, and any unit of a millisecond or more makes it that from the first failure on.
  lemma DelaysGrow(attempts: nat, unit: real, cap: real)
    requires unit >= 0.0 && 7.0 * Uncapped(attempts, unit) >= 10.0 && Uncapped(attempts + 1, unit) <= cap
    ensures forall r, r' :: Jitter(r) && Jitter(r') ==>
      NextDelay(attempts, unit, cap, r) < NextDelay(attempts + 1, unit, cap, r')
  {
    DelaysGrowExactly(attempts, unit, cap);
    RoundNear(2.0 * Uncapped(attempts, unit));
    hide Uncapped, NextDelay;
    GrowsEnough(Uncapped(attempts, unit));
  }

  lemma GrowsEnough(base: real)
    requires 7.0 * base >= 10.0
    ensures 1.3 * base + 0.5 <= Round(2.0 * base) as real
  {}

  // It does happen that they do not: with a unit of a tenth of a millisecond the first two delays can both be none.
  lemma DelaysStall()
    ensures NextDelay(1, 0.1, 60000.0, 0.0) == 0 == NextDelay(2, 0.1, 60000.0, 0.0)
  {
    assert Pow2(1) == 2 && Pow2(2) == 4;
  }

  // The whole wait of a job that fails once for each jitter and is not buried in between.
  function TotalWait(unit: real, cap: real, jitters: seq<real>): int {
    if |jitters| == 0 then 0
    else
      var k := |jitters| - 1;
      TotalWait(unit, cap, jitters[..k]) + NextDelay(k + 1, unit, cap, jitters[k])
  }

  // Main result: a life of m attempts has m - 1 waits, and they add up to at most 1.3 * (2^m - 2) units and half a
  // millisecond of rounding each; and to more than (2^m - 2) units less the rounding when the cap is never reached.
  lemma {:induction false} TotalWaitBounds(m: nat, unit: real, cap: real, jitters: seq<real>)
    requires m >= 1 && |jitters| == m - 1 && unit >= 0.0 && cap >= 0.0
    requires forall r :: r in jitters ==> Jitter(r)
    ensures var total := TotalWait(unit, cap, jitters) as real; var rounding := (m - 1) as real / 2.0;
      && total <= 1.3 * (Uncapped(m, unit) - 2.0 * unit) + rounding
      && (Uncapped(m - 1, unit) <= cap ==> total >= Uncapped(m, unit) - 2.0 * unit - rounding)
  {
    if m == 1 {
      assert Pow2(1) == 2;
      assert Uncapped(1, unit) == 2.0 * unit;
    } else {
      var k := m - 2;
      TotalWaitBounds(m - 1, unit, cap, jitters[..k]);
      UncappedPositive(m - 2, unit);
      UncappedPositive(m - 1, unit);
      OneDelay(m - 1, unit, cap, jitters[k]);
      hide Uncapped, NextDelay;
      var before, delay := TotalWait(unit, cap, jitters[..k]), NextDelay(m - 1, unit, cap, jitters[k]);
      assert TotalWait(unit, cap, jitters) == before + delay;
      SumAsReal(before, delay);
      hide TotalWait;
      assert Uncapped(m, unit) == 2.0 * Uncapped(m - 1, unit);
      assert Uncapped(m - 1, unit) == 2.0 * Uncapped(m - 2, unit);
    }
  }

  lemma SumAsReal(x: int, y: int)
    ensures (x + y) as real == x as real + y as real
  {}

  // Main result: with the cap, waits grow only linearly in the number of attempts, and linearly they do grow: from the
  // first attempt whose floor reaches the cap, each wait is the whole cap, rounded, or more.
  lemma {:induction false} TotalWaitCapped(unit: real, cap: real, jitters: seq<real>, first: nat)
    requires unit >= 0.0 && cap >= 0.0
    requires forall r :: r in jitters ==> Jitter(r)
    requires 1 <= first <= |jitters| + 1 && Pow2(first) as real * unit >= cap
    ensures (|jitters| + 1 - first) * Round(cap) <= TotalWait(unit, cap, jitters) <= |jitters| * Round(1.3 * cap)
  {
    TotalWaitAtMost(unit, cap, jitters);
    TotalWaitAtLeast(unit, cap, jitters, first);
  }

  lemma {:induction false} TotalWaitAtMost(unit: real, cap: real, jitters: seq<real>)
    requires unit >= 0.0 && cap >= 0.0
    requires forall r :: r in jitters ==> Jitter(r)
    ensures 0 <= TotalWait(unit, cap, jitters) <= |jitters| * Round(1.3 * cap)
  {
    if |jitters| > 0 {
      var k := |jitters| - 1;
      TotalWaitAtMost(unit, cap, jitters[..k]);
      BaseBounds(k + 1, unit, cap, jitters[k]);
      UncappedPositive(k + 1, unit);
      RoundMonotone(1.3 * Base(k + 1, unit, cap), 1.3 * cap);
      RoundMonotone(0.0, Base(k + 1, unit, cap));
      RoundWhole(0);
      hide Uncapped, NextDelay, Round;
      assert |jitters| * Round(1.3 * cap) == k * Round(1.3 * cap) + Round(1.3 * cap);
    }
  }

  lemma {:induction false} TotalWaitAtLeast(unit: real, cap: real, jitters: seq<real>, first: nat)
    requires unit >= 0.0 && cap >= 0.0
    requires forall r :: r in jitters ==> Jitter(r)
    requires 1 <= first <= |jitters| + 1 && Uncapped(first, unit) >= cap
    ensures TotalWait(unit, cap, jitters) >= (|jitters| + 1 - first) * Round(cap)
    decreases |jitters|
  {
    var k := |jitters| - 1;
    if first == |jitters| + 1 {
      TotalWaitAtMost(unit, cap, jitters);
    } else {
      TotalWaitAtLeast(unit, cap, jitters[..k], first);
      UncappedGrows(first, k + 1, unit);
      BaseBounds(k + 1, unit, cap, jitters[k]);
      assert Base(k + 1, unit, cap) == cap;
      hide Uncapped, NextDelay, Round, Base;
      assert (|jitters| + 1 - first) * Round(cap) == (|jitters| - first) * Round(cap) + Round(cap);
    }
  }

  lemma {:induction false} UncappedGrows(a: nat, b: nat, unit: real)
    requires a <= b && unit >= 0.0
    ensures Uncapped(a, unit) <= Uncapped(b, unit)
  {
    if a < b {
      UncappedGrows(a, b - 1, unit);
      UncappedPositive(b - 1, unit);
    }
  }

  lemma OneDelay(attempts: nat, unit: real, cap: real, jitter: real)
    requires unit >= 0.0 && cap >= 0.0 && Jitter(jitter)
    ensures var delay := NextDelay(attempts, unit, cap, jitter) as real;
      && delay <= 1.3 * Uncapped(attempts, unit) + 0.5
      && (Uncapped(attempts, unit) <= cap ==> delay > Uncapped(attempts, unit) - 0.5)
  {
    var base := Base(attempts, unit, cap);
    UncappedPositive(attempts, unit);
    JitterAdds(base, jitter);
    hide Uncapped, Extra;
    RoundNear(base + Extra(base, jitter));
  }
}
