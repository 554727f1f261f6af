/** Integer arithmetic of the palette cursor: JavaScript's `Math.floor(a / b)` and
    JavaScript's `%`, and the palette index that processNextColor derives from the
    time elapsed since a visualizer's last accepted beat. All times are milliseconds. */
module Timing {

  /** `Math.floor(a / b)` for a positive divisor: the unique q with b*q <= a < b*(q+1). */
  function FloorDiv(a: int, b: int): (q: int)
    requires b > 0
    ensures b * q <= a < b * (q + 1)
  {
    a / b
  }

  /** Any q bracketing a between consecutive multiples of b is the floor quotient. */
  lemma FloorDivUnique(a: int, b: int, q: int)
    requires b > 0
    requires b * q <= a < b * (q + 1)
    ensures FloorDiv(a, b) == q
  {
    var f := FloorDiv(a, b);
    if f < q {
      assert b * (f + 1) <= b * q by { MulMonotone(b, f + 1, q); }
      assert false;
    } else if f > q {
      assert b * (q + 1) <= b * f by { MulMonotone(b, q + 1, f); }
      assert false;
    }
  }

  lemma MulMonotone(b: int, x: int, y: int)
    requires b > 0 && x <= y
    ensures b * x <= b * y
  {
    assert b * y - b * x == b * (y - x);
  }

  /** JavaScript's `a % n` for a positive modulus: the remainder of the division
      truncated toward zero, which takes the sign of the dividend. */
  function JsRem(a: int, n: int): (r: int)
    requires n > 0
    ensures a >= 0 ==> 0 <= r < n
    ensures a < 0 ==> -n < r <= 0
    ensures (a - r) % n == 0
  {
    if a >= 0 then
      assert a - a % n == n * (a / n);
      MultipleRem(a / n, n);
      a % n
    else
      var b := -a;
      assert b - b % n == n * (b / n);
      assert a - -(b % n) == n * -(b / n);
      MultipleRem(-(b / n), n);
      -(b % n)
  }

  lemma MultipleRem(k: int, n: int)
    requires n > 0
    ensures (n * k) % n == 0
  {
    FloorDivUnique(n * k, n, k);
  }

  /** `Math.floor((now - lastBeatTimestamp) / colorTickRate) % length`, the palette
      position at instant `now`. It is a valid position whenever `now` is not before
      the anchor; before it, JavaScript's `%` yields a non-positive number. */
  function PaletteIndex(now: int, lastBeatTimestamp: int, colorTickRate: int, length: int): (index: int)
    requires colorTickRate > 0 && length > 0
    ensures now >= lastBeatTimestamp ==> 0 <= index < length
    ensures -length < index < length
  {
    var ticks := FloorDiv(now - lastBeatTimestamp, colorTickRate);
    assert now >= lastBeatTimestamp ==> ticks >= 0 by {
      if ticks < 0 { MulMonotone(colorTickRate, ticks + 1, 0); }
    }
    JsRem(ticks, length)
  }

  /** Number of whole ticks elapsed, once the anchor is in the past. */
  lemma ElapsedTicks(now: int, lastBeatTimestamp: int, colorTickRate: int, length: int)
    requires colorTickRate > 0 && length > 0 && now >= lastBeatTimestamp
    ensures FloorDiv(now - lastBeatTimestamp, colorTickRate) >= 0
    ensures PaletteIndex(now, lastBeatTimestamp, colorTickRate, length)
         == FloorDiv(now - lastBeatTimestamp, colorTickRate) % length
  {
    var ticks := FloorDiv(now - lastBeatTimestamp, colorTickRate);
    if ticks < 0 { MulMonotone(colorTickRate, ticks + 1, 0); }
  }

  /** One more tick of elapsed time adds exactly one to the floor quotient. */
  lemma FloorDivShift(a: int, b: int, k: int)
    requires b > 0
    ensures FloorDiv(a + b * k, b) == FloorDiv(a, b) + k
  {
    var q := FloorDiv(a, b);
    assert b * (q + k) == b * q + b * k;
    assert b * (q + k + 1) == b * (q + 1) + b * k;
    FloorDivUnique(a + b * k, b, q + k);
  }

  /** Euclidean remainder is unchanged by adding a multiple of the modulus. */
  lemma RemShift(q: int, n: int, k: int)
    requires n > 0
    ensures (q + n * k) % n == q % n
  {
    var d := q / n;
    assert q == n * d + q % n;
    assert q + n * k == n * (d + k) + q % n;
    assert n * (d + k) <= q + n * k < n * (d + k + 1);
    FloorDivUnique(q + n * k, n, d + k);
  }

  /** The palette cursor is periodic in elapsed time, with period length * colorTickRate. */
  lemma {:induction false} PaletteIndexPeriodic(now: int, lastBeatTimestamp: int, colorTickRate: int, length: int)
    requires colorTickRate > 0 && length > 0 && now >= lastBeatTimestamp
    ensures now + length * colorTickRate >= lastBeatTimestamp
    ensures PaletteIndex(now + length * colorTickRate, lastBeatTimestamp, colorTickRate, length)
         == PaletteIndex(now, lastBeatTimestamp, colorTickRate, length)
  {
    var e := now - lastBeatTimestamp;
    var later := now + length * colorTickRate;
    assert length * colorTickRate > 0 by { MulMonotone(colorTickRate, 1, length); }
    ElapsedTicks(now, lastBeatTimestamp, colorTickRate, length);
    ElapsedTicks(later, lastBeatTimestamp, colorTickRate, length);
    assert later - lastBeatTimestamp == e + colorTickRate * length;
    FloorDivShift(e, colorTickRate, length);
    RemShift(FloorDiv(e, colorTickRate), length, 1);
  }

  /** Every further tick of elapsed time moves the cursor one palette entry forward,
      wrapping from the last entry to the first. */
  lemma {:induction false} PaletteIndexAdvances(now: int, lastBeatTimestamp: int, colorTickRate: int, length: int)
    requires colorTickRate > 0 && length > 0 && now >= lastBeatTimestamp
    ensures PaletteIndex(now + colorTickRate, lastBeatTimestamp, colorTickRate, length)
         == (PaletteIndex(now, lastBeatTimestamp, colorTickRate, length) + 1) % length
  {
    var e := now - lastBeatTimestamp;
    ElapsedTicks(now, lastBeatTimestamp, colorTickRate, length);
    ElapsedTicks(now + colorTickRate, lastBeatTimestamp, colorTickRate, length);
    assert now + colorTickRate - lastBeatTimestamp == e + colorTickRate * 1;
    FloorDivShift(e, colorTickRate, 1);
    var q := FloorDiv(e, colorTickRate);
    var d := q / length;
    assert q == length * d + q % length;
    assert q + 1 == length * d + (q % length + 1);
    RemShift(q % length + 1, length, d);
  }

  /** Within the first tick after the anchor the cursor sits on the first palette entry. */
  lemma PaletteIndexFirstTick(now: int, lastBeatTimestamp: int, colorTickRate: int, length: int)
    requires colorTickRate > 0 && length > 0
    requires lastBeatTimestamp <= now < lastBeatTimestamp + colorTickRate
    ensures PaletteIndex(now, lastBeatTimestamp, colorTickRate, length) == 0
  {
    FloorDivUnique(now - lastBeatTimestamp, colorTickRate, 0);
  }

  /** The cursor depends on the elapsed time only, not on the instants themselves. */
  lemma PaletteIndexDependsOnElapsed(now: int, lastBeatTimestamp: int, shift: int, colorTickRate: int, length: int)
    requires colorTickRate > 0 && length > 0
    ensures PaletteIndex(now + shift, lastBeatTimestamp + shift, colorTickRate, length)
         == PaletteIndex(now, lastBeatTimestamp, colorTickRate, length)
  {
  }

  /** Three colours, a 1000 ms tick and an anchor 2500 ms in the past give index 2. */
  lemma PaletteIndexExample(now: int)
    ensures PaletteIndex(now, now - 2500, 1000, 3) == 2
  {
    FloorDivUnique(2500, 1000, 2);
  }
}
