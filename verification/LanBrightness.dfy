/** Brightness between a device's own range and the LAN 0-100 scale, in exact rationals (api/lan_control.py). */
module LanBrightness {
  import opened Scaling

  const LAN_MIN := 0
  const LAN_MAX := 100
  const CONFIRM_TOLERANCE := 2

  /** round(n / d): the nearest integer, a tie going to the even one. */
  function RoundDiv(n: int, d: Pos): int {
    var q, rest := n / d, n % d;
    if 2 * rest < d || (2 * rest == d && q % 2 == 0) then q else q + 1
  }

  /** device_brightness_to_lan */
  function ToLan(native: int, min: int, max: int): int {
    if max == LAN_MAX then Clamp(native, LAN_MIN, LAN_MAX)
    else if max - min <= 0 then LAN_MIN
    else Clamp(RoundDiv((native - min) * LAN_MAX, max - min), LAN_MIN, LAN_MAX)
  }

  /** lan_brightness_to_device */
  function ToNative(lan: int, min: int, max: int): int {
    if max == LAN_MAX then Clamp(lan, LAN_MIN, LAN_MAX)
    else if max - min <= 0 then min
    else Clamp(RoundDiv(min * LAN_MAX + Mul(Clamp(lan, LAN_MIN, LAN_MAX), max - min), LAN_MAX), min, max)
  }

  predicate EchoConfirms(native: int, min: int, max: int) {
    -CONFIRM_TOLERANCE <= ToNative(ToLan(native, min, max), min, max) - native <= CONFIRM_TOLERANCE
  }

  // ---------- rounding ----------

  lemma RoundMonotone(a: int, b: int, d: Pos)
    requires a <= b
    ensures RoundDiv(a, d) <= RoundDiv(b, d)
  {
    FloorMonotone(a, b, d);
  }

  lemma RoundNear(n: int, d: Pos)
    ensures 2 * n - d <= 2 * Mul(RoundDiv(n, d), d) <= 2 * n + d
  {
    FloorParts(n, d);
    MulLe(n / d, n / d, d);
    hide Mul;
  }

  lemma NearestIs(n: int, d: Pos, r: int)
    requires 2 * Mul(r, d) - d < 2 * n < 2 * Mul(r, d) + d
    ensures RoundDiv(n, d) == r
  {
    var q := RoundDiv(n, d);
    RoundNear(n, d);
    MulLe(q + 1, r, d);
    MulLe(r + 1, q, d);
    MulLe(q, q, d);
    MulLe(r, r, d);
    hide Mul, RoundDiv;
  }

  lemma RoundBounds(n: int, d: Pos, low: int, high: int)
    requires Mul(low, d) <= n <= Mul(high, d)
    ensures low <= RoundDiv(n, d) <= high
  {
    hide RoundDiv, Mul;
    NearestIs(Mul(low, d), d, low);
    NearestIs(Mul(high, d), d, high);
    RoundMonotone(Mul(low, d), n, d);
    RoundMonotone(n, Mul(high, d), d);
  }

  // ---------- an honest echo ----------

  /** The LAN level is on its scale and within half a LAN step of the native one. */
  lemma LanNear(native: int, min: int, max: int)
    requires max != LAN_MAX && min < max && min <= native <= max
    ensures ToLan(native, min, max) == RoundDiv((native - min) * LAN_MAX, max - min)
    ensures LAN_MIN <= ToLan(native, min, max) <= LAN_MAX
    ensures var twice := 2 * Mul(ToLan(native, min, max), max - min);
      200 * (native - min) - (max - min) <= twice <= 200 * (native - min) + (max - min)
  {
    hide Mul;
    MulConstants(max - min);
    RoundBounds((native - min) * LAN_MAX, max - min, 0, LAN_MAX);
    RoundNear((native - min) * LAN_MAX, max - min);
    hide RoundDiv;
  }

  /** The native level is within half a native step of the LAN one, exactly on it when steps are whole. */
  lemma NativeNear(lan: int, min: int, max: int)
    requires max != LAN_MAX && min < max && LAN_MIN <= lan <= LAN_MAX
    ensures ToNative(lan, min, max) == RoundDiv(min * LAN_MAX + Mul(lan, max - min), LAN_MAX)
    ensures min <= ToNative(lan, min, max) <= max
    ensures var twice := 2 * Mul(lan, max - min);
      twice - 100 <= 200 * (ToNative(lan, min, max) - min) <= twice + 100
    ensures max - min == 100 ==> ToNative(lan, min, max) == min + lan
    ensures max - min == 500 ==> ToNative(lan, min, max) == min + 5 * lan
  {
    MulLe(0, lan, max - min);
    MulLe(lan, LAN_MAX, max - min);
    MulConstants(max - min);
    hide Mul;
    var n := min * LAN_MAX + Mul(lan, max - min);
    MulConstants(min);
    MulConstants(max);
    RoundBounds(n, LAN_MAX, min, max);
    RoundNear(n, LAN_MAX);
    MulConstants(RoundDiv(n, LAN_MAX));
    hide RoundDiv;
    MulConstants(lan);
    MulConstants(min + lan);
    MulConstants(min + 5 * lan);
    if max - min == 100 { NearestIs(n, LAN_MAX, min + lan); }
    if max - min == 500 { NearestIs(n, LAN_MAX, min + 5 * lan); }
  }

  /** A device that echoes exactly the level it was sent is confirmed, for every level of every range up to
      500 steps wide. */
  lemma HonestEchoConfirms(native: int, min: int, max: int)
    requires min <= native <= max && max - min <= 500
    requires max == LAN_MAX ==> 0 <= native
    ensures EchoConfirms(native, min, max)
  {
    if max != LAN_MAX && min < max {
      LanNear(native, min, max);
      NativeNear(ToLan(native, min, max), min, max);
      hide ToLan, ToNative, Mul, RoundDiv;
      MulConstants(ToLan(native, min, max));
    }
  }

  // ---------- where an honest echo is missed ----------

  /** A tie goes to the even neighbour. */
  lemma NearestEven(n: int, d: Pos, q: int)
    requires 2 * Mul(q, d) - d <= 2 * n <= 2 * Mul(q, d) + d
    requires 2 * n == 2 * Mul(q, d) - d || 2 * n == 2 * Mul(q, d) + d ==> q % 2 == 0
    ensures RoundDiv(n, d) == q
  {
    MulLe(q - 1, q, d);
    hide Mul;
    if 2 * n == 2 * Mul(q, d) + d {
      FloorIs(n, d, q);
      FloorParts(n, d);
    } else if 2 * n == 2 * Mul(q, d) - d {
      FloorIs(n, d, q - 1);
      FloorParts(n, d);
    } else {
      hide RoundDiv;
      NearestIs(n, d, q);
    }
  }

  lemma MulWiden(v: int, extra: int)
    ensures Mul(v, 500 + extra) == 500 * v + Mul(v, extra)
    ensures Mul(v + 1, extra) == Mul(v, extra) + extra
  {
  }

  /** LAN level v of a range of 500 and some extra steps stands at 5 v native steps and x hundredths; where
      that lies within half a width of a half step, native level t reaches it. */
  predicate Stands(v: nat, extra: nat, x: nat, t: int) {
    if t == 5 * v + 3 then 100 - extra <= 2 * x <= 100 && (2 * x == 100 - extra ==> v % 2 == 0)
    else t == 5 * v - 2 && 100 <= 2 * x <= 100 + extra && (2 * x == 100 + extra ==> v % 2 == 0)
  }

  /** From there an honest echo is off by three, when the LAN level rounds the other way. */
  lemma MissesAt(min: int, max: int, extra: nat, v: nat, x: nat, t: int)
    requires 0 < extra < 100 && max == min + 500 + extra && max != LAN_MAX
    requires x == Mul(v, extra) && Stands(v, extra, x, t) && 0 <= t <= 500 + extra
    requires ToNative(v, min, max) - min == if t == 5 * v + 3 then 5 * v else 5 * v + 1
    ensures !EchoConfirms(min + t, min, max)
  {
    MulWiden(v, extra);
    LanNear(min + t, min, max);
    hide Mul, ToNative, RoundDiv, ToLan;
    NearestEven(t * LAN_MAX, 500 + extra, v);
  }

  /** The way back rounds down below a half step and up above it, and either way at the half itself. */
  lemma BackAt(min: int, max: int, extra: nat, v: nat, x: nat)
    requires 0 < extra < 100 && max == min + 500 + extra && max != LAN_MAX
    requires x == Mul(v, extra) && x < 100 && v <= 100
    ensures var back := ToNative(v, min, max) - min;
      && (2 * x < 100 ==> back == 5 * v)
      && (2 * x > 100 ==> back == 5 * v + 1)
      && (back == 5 * v || back == 5 * v + 1)
  {
    MulWiden(v, extra);
    NativeNear(v, min, max);
    hide Mul, ToNative, RoundDiv;
  }

  lemma MissedFrom(min: int, max: int, extra: nat, v: nat)
    requires 0 < extra < 100 && max == min + 500 + extra && max != LAN_MAX && 0 < v <= 99
    requires 100 - extra <= 2 * Mul(v, extra) <= 100 + extra
    requires 2 * Mul(v, extra) == 100 - extra || 2 * Mul(v, extra) == 100 + extra ==> v % 2 == 0
    ensures exists native :: min <= native <= max && !EchoConfirms(native, min, max)
  {
    hide ToNative, EchoConfirms, Mul;
    var x := Mul(v, extra);
    BackAt(min, max, extra, v, x);
    var t := if ToNative(v, min, max) - min == 5 * v then 5 * v + 3 else 5 * v - 2;
    MissesAt(min, max, extra, v, x, t);
    assert !EchoConfirms(min + t, min, max);
  }

  /** On every range of more than 500 steps some level is missed: walking the LAN levels, one of them stands
      near enough to a half step. */
  lemma SomeEchoIsMissed(min: int, max: int)
    requires max != LAN_MAX && max - min > 500
    ensures exists native :: min <= native <= max && !EchoConfirms(native, min, max)
  {
    if max - min >= 600 {
      WideRangesMiss(min, max);
      assert !EchoConfirms(min + 3, min, max);
    } else {
      hide EchoConfirms, Mul;
      var extra: nat := max - min - 500;
      var v := FirstNearHalf(extra);
      if 2 * Mul(v, extra) == 100 - extra && v % 2 != 0 {
        MulWiden(v, extra);
        MissedFrom(min, max, extra, v + 1);
      } else {
        MissedFrom(min, max, extra, v);
      }
    }
  }

  /** The first LAN level at least half a width below the half step; it overshoots by less than a width. */
  lemma FirstNearHalf(extra: nat) returns (v: nat)
    requires 0 < extra < 100
    ensures 0 < v <= 50 && 100 - extra <= 2 * Mul(v, extra) < 100 + extra
  {
    v := 0;
    MulConstants(extra);
    while 2 * Mul(v, extra) < 100 - extra
      invariant v <= Mul(v, extra) && 2 * Mul(v, extra) < 100 + extra && v <= 50
      invariant v == 0 ==> Mul(v, extra) == 0
      decreases 100 - v
    {
      hide Mul;
      MulWiden(v, extra);
      v := v + 1;
    }
  }

  /** From 600 steps on it is the third level from the bottom. */
  lemma WideRangesMiss(min: int, max: int)
    requires max - min >= 600 && max != LAN_MAX
    ensures !EchoConfirms(min + 3, min, max)
  {
    var span := max - min;
    assert 300 / span == 0;
    assert RoundDiv(300, span) == 0;
    assert min * LAN_MAX / LAN_MAX == min;
  }

  /** Every honest echo on a range confirms exactly when the range is at most 500 steps wide; on the ranges
      that share the LAN maximum, when they start no lower than the tolerance below zero. */
  lemma EchoConfirmsIff(min: int, max: int)
    requires min <= max
    ensures (forall native | min <= native <= max :: EchoConfirms(native, min, max)) <==>
      if max == LAN_MAX then min >= -CONFIRM_TOLERANCE else max - min <= 500
  {
    if max == LAN_MAX {
      if min < -CONFIRM_TOLERANCE { assert !EchoConfirms(min, min, max); }
    } else if max - min <= 500 {
      forall native | min <= native <= max ensures EchoConfirms(native, min, max) {
        HonestEchoConfirms(native, min, max);
      }
    } else {
      SomeEchoIsMissed(min, max);
    }
  }

  // ---------- the round trip from the LAN side ----------

  predicate LanStable(lan: int, min: int, max: int) {
    ToLan(ToNative(lan, min, max), min, max) == lan
  }

  lemma WideIsStable(lan: int, min: int, max: int)
    requires LAN_MIN <= lan <= LAN_MAX && max != LAN_MAX && max - min >= 100
    ensures LanStable(lan, min, max)
  {
    var native := ToNative(lan, min, max);
    NativeNear(lan, min, max);
    LanNear(native, min, max);
    hide RoundDiv, ToLan, ToNative, Mul;
    MulConstants(lan);
    NearestIs((native - min) * LAN_MAX, max - min, lan);
  }

  lemma NativeMonotone(a: int, b: int, min: int, max: int)
    requires LAN_MIN <= a <= b <= LAN_MAX && max != LAN_MAX && min < max
    ensures ToNative(a, min, max) <= ToNative(b, min, max)
  {
    NativeNear(a, min, max);
    NativeNear(b, min, max);
    MulLe(a, b, max - min);
    hide RoundDiv, ToLan, ToNative, Mul;
    RoundMonotone(min * LAN_MAX + Mul(a, max - min), min * LAN_MAX + Mul(b, max - min), LAN_MAX);
  }

  /** Stability makes the native levels of 0..lan distinct and increasing, so they need that much room. */
  lemma {:induction false} StableNeedsRoom(lan: int, min: int, max: int)
    requires LAN_MIN <= lan <= LAN_MAX && max != LAN_MAX && min < max
    requires forall v | LAN_MIN <= v <= LAN_MAX :: LanStable(v, min, max)
    ensures ToNative(lan, min, max) >= min + lan
    decreases lan
  {
    if lan == 0 {
      NativeNear(0, min, max);
    } else {
      StableNeedsRoom(lan - 1, min, max);
      NativeMonotone(lan - 1, lan, min, max);
      assert LanStable(lan - 1, min, max) && LanStable(lan, min, max);
    }
  }

  /** The round trip from the LAN side is stable on the whole scale exactly when the device range tops out
      at 100 or is at least 100 steps wide. */
  lemma LanRoundTripIff(min: int, max: int)
    ensures (forall v | LAN_MIN <= v <= LAN_MAX :: LanStable(v, min, max)) <==> max == LAN_MAX || max - min >= 100
  {
    if max != LAN_MAX && max - min >= 100 {
      forall v | LAN_MIN <= v <= LAN_MAX ensures LanStable(v, min, max) {
        WideIsStable(v, min, max);
      }
    } else if max != LAN_MAX {
      NarrowIsUnstable(min, max);
    }
  }

  lemma NarrowIsUnstable(min: int, max: int)
    requires max != LAN_MAX && max - min < 100
    ensures exists v :: LAN_MIN <= v <= LAN_MAX && !LanStable(v, min, max)
  {
    if min >= max {
      assert !LanStable(1, min, max);
    } else {
      NativeNear(LAN_MAX, min, max);
      hide RoundDiv, ToLan, ToNative;
      if forall v | LAN_MIN <= v <= LAN_MAX :: LanStable(v, min, max) {
        StableNeedsRoom(LAN_MAX, min, max);
        assert false;
      }
    }
  }
}
