/** Brightness between Home Assistant's 0-255 and a light's own range, in exact rationals (light.py). */
module LightBrightness {
  import opened Scaling

  const HA_MAX := 255

  /** int(n / d): towards zero. */
  function Trunc(n: int, d: Pos): int {
    if n >= 0 then n / d else -((-n) / d)
  }

  /** _ha_to_device_brightness */
  function ToDevice(ha: int, min: int, max: int): int {
    Clamp(Trunc(min * HA_MAX + Mul(ha, max - min), HA_MAX), min, max)
  }

  /** _device_to_ha_brightness */
  function ToHa(device: int, min: int, max: int): int {
    if max - min <= 0 then 0
    else Clamp(Trunc((device - min) * HA_MAX, max - min), 0, HA_MAX)
  }

  /** Both results stay in their range, whatever they are given; no range at all gives its minimum and 0. */
  lemma InRange(x: int, min: int, max: int)
    ensures min <= max ==> min <= ToDevice(x, min, max) <= max
    ensures max <= min ==> ToDevice(x, min, max) == min && ToHa(x, min, max) == 0
    ensures 0 <= ToHa(x, min, max) <= HA_MAX
  {
    hide Trunc, Mul;
  }

  lemma TruncMonotone(a: int, b: int, d: Pos)
    requires a <= b
    ensures Trunc(a, d) <= Trunc(b, d)
  {
    if a >= 0 {
      FloorMonotone(a, b, d);
    } else if b < 0 {
      FloorMonotone(-b, -a, d);
    } else {
      MulConstants(d);
      FloorIs(0, d, 0);
      FloorMonotone(0, -a, d);
      FloorMonotone(0, b, d);
    }
  }

  lemma BothMonotone(a: int, b: int, min: int, max: int)
    requires a <= b
    ensures min < max ==> ToDevice(a, min, max) <= ToDevice(b, min, max)
    ensures ToHa(a, min, max) <= ToHa(b, min, max)
  {
    if min < max {
      MulLe(a, b, max - min);
      hide Mul, Trunc;
      TruncMonotone(min * HA_MAX + Mul(a, max - min), min * HA_MAX + Mul(b, max - min), HA_MAX);
      TruncMonotone((a - min) * HA_MAX, (b - min) * HA_MAX, max - min);
    }
  }

  lemma TruncExact(q: int, d: Pos)
    ensures Trunc(Mul(q, d), d) == q
  {
    if q >= 0 {
      MulLe(0, q, d);
      FloorIs(Mul(q, d), d, q);
    } else {
      MulLe(q, -1, d);
      assert Mul(-q, d) == -Mul(q, d);
      FloorIs(Mul(-q, d), d, -q);
    }
  }

  lemma EndpointsFixed(min: int, max: int)
    requires min < max
    ensures ToDevice(0, min, max) == min && ToDevice(HA_MAX, min, max) == max
    ensures ToHa(min, min, max) == 0 && ToHa(max, min, max) == HA_MAX
  {
    MulConstants(max - min);
    MulConstants(min);
    MulConstants(max);
    hide Mul, Trunc;
    TruncExact(min, HA_MAX);
    TruncExact(max, HA_MAX);
    TruncExact(0, max - min);
    TruncExact(HA_MAX, max - min);
  }

  /** The part of a step by which the exact device level lies above the last whole one, in 255ths. */
  function Fraction(ha: int, min: int, max: int): int {
    Mul(ha, max - min) % HA_MAX
  }

  /** Truncation towards zero rounds the level up: it is negative and not whole. */
  predicate RoundsUp(ha: int, min: int, max: int) {
    min * HA_MAX + Mul(ha, max - min) < 0 && Fraction(ha, min, max) != 0
  }

  /** What the device is sent: the whole part of the exact level, or the next whole level where it rounds up. */
  lemma DeviceLevel(ha: int, min: int, max: int)
    requires min < max && 0 <= ha <= HA_MAX
    ensures var exact := Mul(ha, max - min);
      && ToDevice(ha, min, max) == min + exact / HA_MAX + (if RoundsUp(ha, min, max) then 1 else 0)
      && exact == 255 * (exact / HA_MAX) + Fraction(ha, min, max) && 0 <= Fraction(ha, min, max) < 255
      && min <= ToDevice(ha, min, max) <= max
  {
    var exact := Mul(ha, max - min);
    var n := min * HA_MAX + exact;
    MulLe(0, ha, max - min);
    MulLe(ha, HA_MAX, max - min);
    MulConstants(max - min);
    FloorParts(exact, HA_MAX);
    MulConstants(exact / HA_MAX);
    hide Mul;
    var whole := min + exact / HA_MAX;
    WholePart(n, whole, Fraction(ha, min, max));
    hide Trunc;
  }

  /** int() of a level of so many whole steps and a fraction of one. */
  lemma WholePart(n: int, whole: int, rest: int)
    requires n == 255 * whole + rest && 0 <= rest < 255
    ensures Trunc(n, HA_MAX) == whole + if n < 0 && rest != 0 then 1 else 0
  {
    MulConstants(whole);
    MulConstants(-whole);
    MulConstants(-whole - 1);
    hide Mul;
    if n >= 0 {
      FloorIs(n, HA_MAX, whole);
    } else if rest == 0 {
      FloorIs(-n, HA_MAX, -whole);
    } else {
      FloorIs(-n, HA_MAX, -whole - 1);
    }
  }

  lemma HaFloor(device: int, min: int, max: int)
    requires min < max && min <= device <= max
    ensures var h := ToHa(device, min, max);
      && 0 <= h <= HA_MAX
      && Mul(h, max - min) <= 255 * (device - min) < Mul(h, max - min) + (max - min)
  {
    var n := (device - min) * HA_MAX;
    MulConstants(max - min);
    FloorParts(n, max - min);
    hide Mul;
    FloorBounds(n, max - min, 0, HA_MAX);
  }

  /** Home Assistant to the device and back loses less than 255 / range + 1, and it rises exactly where the
      level was rounded up and the step it was rounded over is wide enough to hold another HA step. */
  lemma HaRoundTrip(ha: int, min: int, max: int)
    requires min < max && 0 <= ha <= HA_MAX
    ensures var back := ToHa(ToDevice(ha, min, max), min, max);
      && Mul(ha - back, max - min) < HA_MAX + (max - min)
      && (back > ha <==> RoundsUp(ha, min, max) && Fraction(ha, min, max) + (max - min) <= HA_MAX)
  {
    var device := ToDevice(ha, min, max);
    DeviceLevel(ha, min, max);
    HaFloor(device, min, max);
    var back := ToHa(device, min, max);
    CompareProducts(ha, back, max - min);
    hide Mul, ToHa, ToDevice, Fraction, RoundsUp;
    var rounded := RoundsUp(ha, min, max);
    Compared(Mul(ha, max - min), Mul(back, max - min), max - min, device - min, Fraction(ha, min, max), rounded);
  }

  lemma CompareProducts(a: int, b: int, d: Pos)
    ensures b > a <==> Mul(b, d) >= Mul(a, d) + d
    ensures b > a <==> Mul(b, d) > Mul(a, d)
    ensures Mul(a - b, d) == Mul(a, d) - Mul(b, d)
  {
    MulLe(a + 1, b, d);
    MulLe(b, a, d);
    MulLe(a, a, d);
  }

  /** The two products around the device's level. */
  lemma Compared(there: int, back: int, range: Pos, level: int, rest: int, up: bool)
    requires there + (if up then 255 - rest else -rest) == 255 * level && 0 <= rest < 255
    requires back <= 255 * level < back + range
    ensures there - back < HA_MAX + range
    ensures back >= there + range ==> up && rest + range <= HA_MAX
    ensures up && rest + range <= HA_MAX ==> back > there
  {
  }

  /** So with a minimum of zero or more it never rises. */
  lemma HaNeverRises(ha: int, min: int, max: int)
    requires 0 <= min < max && 0 <= ha <= HA_MAX
    ensures ToHa(ToDevice(ha, min, max), min, max) <= ha
  {
    HaRoundTrip(ha, min, max);
    MulLe(0, ha, max - min);
    MulConstants(max - min);
    hide Mul, ToHa, ToDevice;
  }

  /** And with a negative one, on a range of at most 127 steps, it does at 1. */
  lemma NegativeMinimumRises(min: int, max: int)
    requires min < 0 && 0 < max - min <= 127
    ensures ToHa(ToDevice(1, min, max), min, max) > 1
  {
    HaRoundTrip(1, min, max);
    assert Mul(1, max - min) == max - min;
    hide ToHa, ToDevice;
  }

  /** The device to Home Assistant and back never rises and loses less than range / 255 + 1, so at most one
      step when the range is at most 255 wide. */
  lemma DeviceRoundTrip(device: int, min: int, max: int)
    requires min < max && min <= device <= max
    ensures var back := ToDevice(ToHa(device, min, max), min, max);
      && back <= device
      && 255 * (device - back) < (max - min) + 255
      && (max - min <= 255 ==> device - back <= 1)
  {
    HaFloor(device, min, max);
    DeviceLevel(ToHa(device, min, max), min, max);
    hide Mul, ToHa, ToDevice, Fraction;
  }
}
