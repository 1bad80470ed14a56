/** Single-precision arithmetic: an exact result is rounded to 24 significant bits, to nearest, ties
    to even. Results that are too large or too small for the format are not part of this model; the
    numbers rounded here are zero or lie between 2^-32 and 2^33. */
module Single {
  /** 2^23: a number in [1, 2) is rounded to a multiple of 1 / SCALE. */
  const SCALE := 8388608.0

  /** Half the distance of two neighbours in [1, 2). */
  const HALF_STEP := 1.0 / 16777216.0

  function Nearest(x: real): int {
    var n := x.Floor;
    var rest := x - n as real;
    if rest < 0.5 || (rest == 0.5 && n % 2 == 0) then n else n + 1
  }

  /** How far x is from [1, 2). */
  function Distance(x: real): nat
    requires x > 0.0
  {
    if x < 1.0 then (1.0 / x).Floor else if x < 2.0 then 0 else x.Floor
  }

  lemma CloserByHalving(x: real)
    requires x >= 2.0
    ensures Distance(x / 2.0) < Distance(x)
  {
  }

  lemma CloserByDoubling(x: real)
    requires 0.0 < x < 1.0
    ensures Distance(2.0 * x) < Distance(x)
  {
    assert 1.0 / (2.0 * x) == (1.0 / x) / 2.0;
    assert 1.0 / x > 1.0;
  }

  /** The representable number that is nearest. */
  function F32(x: real): (r: real)
    requires x >= 0.0
    ensures r >= 0.0
    decreases if x == 0.0 then 0 else Distance(x)
  {
    if x == 0.0 then 0.0
    else if x >= 2.0 then CloserByHalving(x); 2.0 * F32(x / 2.0)
    else if x < 1.0 then CloserByDoubling(x); F32(2.0 * x) / 2.0
    else Nearest(x * SCALE) as real / SCALE
  }

  lemma Scaled(x: real)
    requires x >= 0.0
    ensures F32(0.0) == 0.0
    ensures x >= 2.0 ==> F32(x) == 2.0 * F32(x / 2.0)
    ensures 0.0 < x < 1.0 ==> F32(x) == F32(2.0 * x) / 2.0
  {
  }

  lemma InTheMiddle(x: real)
    requires 1.0 <= x < 2.0
    ensures F32(x) == Nearest(x * SCALE) as real / SCALE
    ensures 1.0 <= F32(x) <= 2.0 && x - HALF_STEP <= F32(x) <= x + HALF_STEP
  {
  }

  /** In [1, 2) the result is the nearest multiple of 2^-23, of two equally near ones the even one. */
  lemma NearestMultiple(x: real, n: int)
    requires 1.0 <= x < 2.0 && F32(x) == n as real / 8388608.0
    ensures -0.5 <= n as real - x * 8388608.0 <= 0.5
    ensures n as real - x * 8388608.0 == 0.5 || n as real - x * 8388608.0 == -0.5 ==> n % 2 == 0
  {
    assert n == Nearest(x * SCALE);
  }

  /** The relative error is at most half a step. */
  lemma {:induction false} ErrorIsSmall(x: real)
    requires x >= 0.0
    ensures x - x * HALF_STEP <= F32(x) <= x + x * HALF_STEP
    decreases if x == 0.0 then 0 else Distance(x)
  {
    Scaled(x);
    hide F32, Distance, Nearest;
    if x == 0.0 {
    } else if x >= 2.0 {
      CloserByHalving(x);
      ErrorIsSmall(x / 2.0);
    } else if x < 1.0 {
      CloserByDoubling(x);
      ErrorIsSmall(2.0 * x);
    } else {
      InTheMiddle(x);
      Grows(1.0, x, HALF_STEP);
    }
  }

  /** Rounding does not cross 1 or 2. */
  lemma {:induction false} StaysOnItsSide(x: real)
    requires x >= 0.0
    ensures x <= 1.0 ==> F32(x) <= 1.0
    ensures x >= 1.0 ==> F32(x) >= 1.0
    ensures x <= 2.0 ==> F32(x) <= 2.0
    ensures x >= 2.0 ==> F32(x) >= 2.0
    decreases if x == 0.0 then 0 else Distance(x)
  {
    Scaled(x);
    HundredIsExact();
    hide F32, Distance, Nearest;
    if x == 0.0 {
    } else if x >= 2.0 {
      CloserByHalving(x);
      StaysOnItsSide(x / 2.0);
    } else if x < 1.0 {
      CloserByDoubling(x);
      StaysOnItsSide(2.0 * x);
    } else {
      InTheMiddle(x);
    }
  }

  lemma NearestIsMonotone(x: real, y: real)
    requires x <= y
    ensures Nearest(x) <= Nearest(y)
  {
    if x.Floor == y.Floor {
      assert x - x.Floor as real <= y - y.Floor as real;
    } else {
      assert Nearest(x) <= x.Floor + 1 <= y.Floor <= Nearest(y);
    }
  }

  lemma MonotoneInTheMiddle(x: real, y: real)
    requires 1.0 <= x <= y < 2.0
    ensures F32(x) <= F32(y)
  {
    InTheMiddle(x);
    InTheMiddle(y);
    hide F32, Nearest;
    NearestIsMonotone(x * SCALE, y * SCALE);
  }

  lemma {:induction false} Monotone(x: real, y: real)
    requires 0.0 <= x <= y
    ensures F32(x) <= F32(y)
    decreases if x == 0.0 then 0 else Distance(x)
  {
    Scaled(x);
    Scaled(y);
    StaysOnItsSide(x);
    StaysOnItsSide(y);
    hide F32, Distance, Nearest;
    if x == 0.0 {
    } else if x >= 2.0 {
      CloserByHalving(x);
      Monotone(x / 2.0, y / 2.0);
    } else if y < 1.0 {
      CloserByDoubling(x);
      Monotone(2.0 * x, 2.0 * y);
    } else if 1.0 <= x && y < 2.0 {
      MonotoneInTheMiddle(x, y);
    }
  }

  lemma HundredIsExact()
    ensures F32(1.0) == 1.0 && F32(2.0) == 2.0 && F32(100.0) == 100.0
  {
    var x := 1.5625;
    assert F32(x) == x;
    assert F32(2.0 * x) == 2.0 * x;
    assert F32(4.0 * x) == 4.0 * x;
    assert F32(8.0 * x) == 8.0 * x;
    assert F32(16.0 * x) == 16.0 * x;
    assert F32(32.0 * x) == 32.0 * x;
    assert F32(64.0 * x) == 64.0 * x;
  }

  // --------------------------------------------------------------- a percentage

  /** Part of a total in percent, as three rounded operations and a truncation to eight bits. */
  function Percent(part: nat, total: nat): nat {
    var all := if total == 0 then 1 else total;
    ErrorIsSmall(all as real);
    var ratio := F32(F32(part as real) / F32(all as real));
    var whole := F32(ratio * 100.0).Floor;
    if whole > 255 then 255 else whole
  }

  const TOLERANCE := 1.0 / 10000.0

  lemma Cancel(a: real, b: real, t: real)
    requires t > 0.0 && a * t <= b * t
    ensures a <= b
  {
  }

  lemma Grows(a: real, b: real, x: real)
    requires a <= b && x >= 0.0
    ensures x * a <= x * b
  {
  }

  lemma QuotientIsSmall(p: real, t: real)
    requires 0.0 <= p <= t && t > 0.0
    ensures 0.0 <= p / t <= 1.0 && p == (p / t) * t
    ensures (p == t ==> p / t == 1.0) && (p == 0.0 ==> p / t == 0.0)
  {
  }

  lemma Spread(r: real, t: real, h: real)
    ensures r * (t - t * h) == (r - r * h) * t && r * (t + t * h) == (r + r * h) * t
  {
  }

  /** If u is t up to the error h, r u lies between these. */
  lemma ProductIsClose(r: real, u: real, t: real, h: real)
    requires r >= 0.0 && t - t * h <= u <= t + t * h
    ensures (r - r * h) * t <= r * u <= (r + r * h) * t
  {
    Spread(r, t, h);
    Grows(t - t * h, u, r);
    Grows(u, t + t * h, r);
  }

  /** From e t = p, r u = q and the errors of q and u: the error of r. */
  lemma RatiosAreClose(e: real, r: real, p: real, t: real, q: real, u: real, h: real)
    requires p == e * t && q == r * u && t > 0.0 && r >= 0.0
    requires p - p * h <= q <= p + p * h && t - t * h <= u <= t + t * h
    ensures r - r * h <= e + e * h && e - e * h <= r + r * h
  {
    Factor(e, t, p, h);
    ProductIsClose(r, u, t, h);
    CancelThrough(r - r * h, e + e * h, t, q, p + p * h);
    CancelThrough(e - e * h, r + r * h, t, p - p * h, q);
  }

  lemma Factor(e: real, t: real, p: real, h: real)
    requires p == e * t
    ensures p + p * h == (e + e * h) * t && p - p * h == (e - e * h) * t
  {
  }

  lemma CancelThrough(a: real, b: real, t: real, low: real, high: real)
    requires t > 0.0 && a * t <= low <= high <= b * t
    ensures a <= b
  {
    Cancel(a, b, t);
  }

  lemma QuotientIsClose(p: real, t: real, q: real, u: real)
    requires 0.0 <= p <= t && t > 0.0 && u > 0.0 && 0.0 <= q <= u
    requires p - p * HALF_STEP <= q <= p + p * HALF_STEP
    requires t - t * HALF_STEP <= u <= t + t * HALF_STEP
    ensures 0.0 <= p / t <= 1.0 && 0.0 <= q / u <= 1.0
    ensures p / t - 2.0 * HALF_STEP <= q / u <= p / t + 2.0 * HALF_STEP
    ensures (q == u ==> q / u == 1.0) && (q == 0.0 ==> q / u == 0.0)
  {
    QuotientIsSmall(p, t);
    QuotientIsSmall(q, u);
    RatiosAreClose(p / t, q / u, p, t, q, u, HALF_STEP);
    Grows(q / u, 1.0, HALF_STEP);
    Grows(p / t, 1.0, HALF_STEP);
  }

  /** The ratio of two rounded numbers, before it is rounded itself. */
  lemma RawRatioIsClose(part: nat, total: nat)
    requires part <= total && total > 0
    ensures F32(total as real) > 0.0
    ensures var exact, raw := part as real / total as real, F32(part as real) / F32(total as real);
      && 0.0 <= exact <= 1.0 && 0.0 <= raw <= 1.0
      && exact - 2.0 * HALF_STEP <= raw <= exact + 2.0 * HALF_STEP
      && (part == total ==> raw == 1.0) && (part == 0 ==> raw == 0.0)
  {
    var p, t := part as real, total as real;
    hide F32, Distance;
    ErrorIsSmall(p);
    ErrorIsSmall(t);
    ErrorIsSmall(0.0);
    Monotone(p, t);
    Grows(HALF_STEP, 0.5, t);
    QuotientIsClose(p, t, F32(p), F32(t));
  }

  /** The rounded ratio is between 0 and 1, and close. */
  lemma RatioIsClose(part: nat, total: nat)
    requires part <= total && total > 0
    ensures F32(total as real) > 0.0
    ensures var exact, ratio := part as real / total as real, F32(F32(part as real) / F32(total as real));
      && 0.0 <= exact <= 1.0 && 0.0 <= ratio <= 1.0
      && exact - 3.0 * HALF_STEP <= ratio <= exact + 3.0 * HALF_STEP
      && (part == total ==> ratio == 1.0) && (part == 0 ==> ratio == 0.0)
  {
    RawRatioIsClose(part, total);
    RoundedIsClose(F32(part as real) / F32(total as real));
  }

  lemma RoundedIsClose(x: real)
    requires 0.0 <= x <= 1.0
    ensures x - HALF_STEP <= F32(x) <= x + HALF_STEP
    ensures F32(x) <= 1.0 && (x == 1.0 ==> F32(x) == 1.0) && (x == 0.0 ==> F32(x) == 0.0)
  {
    ErrorIsSmall(x);
    StaysOnItsSide(x);
    HundredIsExact();
    hide F32;
    Grows(x, 1.0, HALF_STEP);
  }

  /** The percentage is between 0 and 100, it is 100 when the part is the total and 0 when there
      is none, and it is the exact percentage truncated, up to one part in ten thousand. */
  lemma PercentIsClose(part: nat, total: nat)
    requires part <= total && total > 0
    ensures var percent, exact := Percent(part, total), 100.0 * (part as real / total as real);
      && percent <= 100 && (part == total ==> percent == 100) && (part == 0 ==> percent == 0)
      && percent as real - TOLERANCE <= exact < percent as real + 1.0 + TOLERANCE
  {
    RatioIsClose(part, total);
    HundredIsExact();
    hide F32, Distance;
    InPercent(part as real / total as real, F32(F32(part as real) / F32(total as real)));
  }

  lemma InPercent(exact: real, ratio: real)
    requires 0.0 <= exact <= 1.0 && 0.0 <= ratio <= 1.0
    requires exact - 3.0 * HALF_STEP <= ratio <= exact + 3.0 * HALF_STEP
    ensures var scaled := F32(ratio * 100.0);
      && 0.0 <= scaled <= 100.0 && (ratio == 1.0 ==> scaled == 100.0) && (ratio == 0.0 ==> scaled == 0.0)
      && scaled - TOLERANCE <= 100.0 * exact <= scaled + TOLERANCE
  {
    HundredIsExact();
    hide F32, Distance;
    Monotone(ratio * 100.0, 100.0);
    ErrorIsSmall(ratio * 100.0);
    ErrorIsSmall(0.0);
    Grows(ratio, 1.0, 100.0 * HALF_STEP);
  }
}
