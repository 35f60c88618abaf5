/** Linear resampling of PCM samples, in exact rational arithmetic. */
module Resample {

  predicate Int16(x: int) { -32768 <= x < 32768 }

  // Division truncated toward zero, as a cast to int16 does it.
  function Truncated(num: int, den: nat): int
    requires den > 0
  {
    if num >= 0 then num / den else -((-num) / den)
  }

  // int(src.size * dst / src)
  function NewLength(size: nat, srcRate: nat, dstRate: nat): nat
    requires srcRate > 0
  {
    size * dstRate / srcRate
  }

  function Clip(x: int, low: int, high: int): int {
    if x > high then high else if x < low then low else x
  }

  // The left neighbour of output i; a negative index counts from the end.
  function Left(i: nat, size: nat, srcRate: nat, dstRate: nat): int
    requires size > 0 && dstRate > 0
  {
    Clip(i * srcRate / dstRate, 0, size - 2)
  }

  function At(samples: seq<int>, i: int): int
    requires -|samples| <= i < |samples|
  {
    if i < 0 then samples[|samples| + i] else samples[i]
  }

  // samples[left] * (1 - frac) + samples[left + 1] * frac, as a numerator over dstRate
  function Blend(samples: seq<int>, i: nat, srcRate: nat, dstRate: nat): int
    requires samples != [] && dstRate > 0
  {
    var left := Left(i, |samples|, srcRate, dstRate);
    var frac := i * srcRate - left * dstRate;
    At(samples, left) * (dstRate - frac) + At(samples, left + 1) * frac
  }

  function Resampled(samples: seq<int>, srcRate: nat, dstRate: nat): seq<int>
    requires srcRate > 0
  {
    if srcRate == dstRate || samples == [] then samples
    else if NewLength(|samples|, srcRate, dstRate) == 0 then []
    else seq(NewLength(|samples|, srcRate, dstRate),
             i requires 0 <= i && dstRate > 0 => Truncated(Blend(samples, i, srcRate, dstRate), dstRate))
  }

  ghost predicate Between(x: int, a: int, b: int) { a <= x <= b || b <= x <= a }

  // Output i is an interpolation, not an extrapolation, exactly when it falls no later than the
  // last input.
  lemma InterpolatesIff(size: nat, i: nat, srcRate: nat, dstRate: nat)
    requires size >= 2 && srcRate > 0 && dstRate > 0
    ensures var left := Left(i, size, srcRate, dstRate);
            0 <= left <= size - 2
            && (0 <= i * srcRate - left * dstRate <= dstRate <==> i * srcRate <= (size - 1) * dstRate)
  {
    var left := Left(i, size, srcRate, dstRate);
    LeftSplits(i * srcRate, left, size, dstRate);
  }

  lemma LeftSplits(pos: nat, left: int, size: nat, dstRate: nat)
    requires size >= 2 && dstRate > 0 && left == Clip(pos / dstRate, 0, size - 2)
    ensures 0 <= left <= size - 2
    ensures 0 <= pos - left * dstRate <= dstRate <==> pos <= (size - 1) * dstRate
  {
    var q, r := pos / dstRate, pos % dstRate;
    assert pos == q * dstRate + r;
    if q <= size - 2 {
      TimesMono(q + 1, size - 1, dstRate);
      assert (q + 1) * dstRate == q * dstRate + dstRate;
    } else {
      assert (size - 1) * dstRate == left * dstRate + dstRate;
      TimesMono(left, q, dstRate);
    }
  }

  // When the rate does not rise, every output falls before the last input.
  lemma LoweringStaysInside(size: nat, i: nat, srcRate: nat, dstRate: nat)
    requires 0 < dstRate < srcRate && i < NewLength(size, srcRate, dstRate)
    ensures size >= 2 && i * srcRate <= (size - 1) * dstRate
  {
    var n := NewLength(size, srcRate, dstRate);
    assert n * srcRate <= size * dstRate by { DivTimes(size * dstRate, srcRate); }
    assert (i + 1) * srcRate <= n * srcRate by { TimesMono(i + 1, n, srcRate); }
    assert (i + 1) * srcRate == i * srcRate + srcRate;
    assert (size - 1) * dstRate == size * dstRate - dstRate;
    assert size <= 1 ==> size * dstRate <= dstRate;
  }

  lemma DivTimes(a: nat, b: nat)
    requires b > 0
    ensures a / b * b <= a
  {
  }

  lemma TimesMonoIf(a: nat, b: nat, c: nat)
    ensures a <= b ==> a * c <= b * c
  {
    if a <= b {
      TimesMono(a, b, c);
    }
  }

  lemma TimesMono(a: nat, b: nat, c: nat)
    requires a <= b
    ensures a * c <= b * c
  {
  }

  lemma BlendBetween(a: int, b: int, frac: nat, den: nat)
    requires 0 < den && frac <= den
    ensures Between(Truncated(a * (den - frac) + b * frac, den), a, b)
  {
    var low, high := if a <= b then a else b, if a <= b then b else a;
    var num := a * (den - frac) + b * frac;
    WeightedBetween(a, b, low, high, frac, den);
    TruncatedBetween(num, den, low, high);
  }

  lemma WeightedBetween(a: int, b: int, low: int, high: int, frac: nat, den: nat)
    requires frac <= den && low <= a <= high && low <= b <= high
    ensures low * den <= a * (den - frac) + b * frac <= high * den
  {
    assert low * (den - frac) <= a * (den - frac) <= high * (den - frac);
    assert low * frac <= b * frac <= high * frac;
    assert low * (den - frac) + low * frac == low * den;
    assert high * (den - frac) + high * frac == high * den;
  }

  lemma TruncatedBetween(num: int, den: nat, low: int, high: int)
    requires den > 0 && low * den <= num <= high * den
    ensures low <= Truncated(num, den) <= high
  {
    if num >= 0 {
      var q, r := num / den, num % den;
      assert num == q * den + r;
      Cancel(q, high, den, r);
      Cancel(low, q, den, den - 1 - r);
    } else {
      var q, r := (-num) / den, (-num) % den;
      assert -num == q * den + r;
      assert (-low) * den == -(low * den) && (-high) * den == -(high * den);
      Cancel(q, -low, den, r);
      Cancel(-high, q, den, den - 1 - r);
    }
  }

  lemma Cancel(a: int, b: int, den: nat, slack: nat)
    requires den > 0 && slack < den && a * den <= b * den + (den - 1)
    ensures a <= b
  {
    assert (b + 1) * den == b * den + den;
    assert a >= b + 1 ==> a * den >= (b + 1) * den;
  }

  // Lowering the rate never leaves the range of the input: every output lies between two adjacent
  // inputs, so the cast to int16 never wraps.
  lemma LoweringInterpolates(samples: seq<int>, srcRate: nat, dstRate: nat, i: nat)
    requires 0 < dstRate < srcRate && i < |Resampled(samples, srcRate, dstRate)|
    ensures exists k ::
              && 0 <= k && k + 1 < |samples|
              && Between(Resampled(samples, srcRate, dstRate)[i], samples[k], samples[k + 1])
    ensures (forall k | 0 <= k < |samples| :: Int16(samples[k])) ==> Int16(Resampled(samples, srcRate, dstRate)[i])
  {
    hide Resampled, Truncated, Blend, Left;
    var size := |samples|;
    ResampledAt(samples, srcRate, dstRate, i);
    LoweringStaysInside(size, i, srcRate, dstRate);
    InterpolatesIff(size, i, srcRate, dstRate);
    var left := Left(i, size, srcRate, dstRate);
    BlendAt(samples, i, srcRate, dstRate);
    BlendBetween(samples[left], samples[left + 1], i * srcRate - left * dstRate, dstRate);
    assert Between(Resampled(samples, srcRate, dstRate)[i], samples[left], samples[left + 1]);
  }

  lemma ResampledAt(samples: seq<int>, srcRate: nat, dstRate: nat, i: nat)
    requires 0 < dstRate < srcRate && i < |Resampled(samples, srcRate, dstRate)|
    ensures samples != []
    ensures Resampled(samples, srcRate, dstRate)[i] == Truncated(Blend(samples, i, srcRate, dstRate), dstRate)
    ensures i < NewLength(|samples|, srcRate, dstRate)
  {
    hide Truncated, Blend, NewLength;
  }

  lemma BlendAt(samples: seq<int>, i: nat, srcRate: nat, dstRate: nat)
    requires |samples| >= 2 && dstRate > 0
    ensures var left := Left(i, |samples|, srcRate, dstRate);
            var frac := i * srcRate - left * dstRate;
            0 <= left <= |samples| - 2
            && Blend(samples, i, srcRate, dstRate) == samples[left] * (dstRate - frac) + samples[left + 1] * frac
  {
  }

  // ----- past the last input ------------------------------------------------------------------------

  // Output i of these samples before the cast.
  function Output(samples: seq<int>, i: nat, srcRate: nat, dstRate: nat): int
    requires samples != [] && dstRate > 0
  {
    Truncated(Blend(samples, i, srcRate, dstRate), dstRate)
  }

  // How far output i lies past the last input, in units of 1 / dstRate; negative before it.
  function Past(size: nat, i: nat, srcRate: nat, dstRate: nat): int { i * srcRate - (size - 1) * dstRate }

  // Past the last input the last difference is continued.
  lemma BlendPast(samples: seq<int>, i: nat, srcRate: nat, dstRate: nat)
    requires |samples| >= 2 && dstRate > 0 && Past(|samples|, i, srcRate, dstRate) > 0
    ensures var a, b := samples[|samples| - 2], samples[|samples| - 1];
            Left(i, |samples|, srcRate, dstRate) == |samples| - 2
            && Blend(samples, i, srcRate, dstRate) == b * dstRate + (b - a) * Past(|samples|, i, srcRate, dstRate)
  {
    var size := |samples|;
    DividesAtLeast(i * srcRate, size - 1, dstRate);
    assert (size - 1) * dstRate == (size - 2) * dstRate + dstRate;
    var past := Past(size, i, srcRate, dstRate);
    Distribute(samples[size - 2], samples[size - 1], past, dstRate);
  }

  lemma Distribute(a: int, b: int, past: int, den: int)
    ensures a * (den - (past + den)) + b * (past + den) == b * den + (b - a) * past
  {
  }

  ghost predicate AllInt16(samples: seq<int>, size: nat) {
    |samples| == size && forall k | 0 <= k < size :: Int16(samples[k])
  }

  // The steepest rise at the end.
  function Steepest(size: nat): seq<int> { seq(size, k => if k == size - 1 then 32767 else -32768) }

  // Output i stays in the int16 range for every int16 input exactly when it lies before, or less than
  // 1/65535 of an input step past, the last input.
  lemma StaysInt16Iff(size: nat, i: nat, srcRate: nat, dstRate: nat)
    requires size >= 2 && srcRate > 0 && dstRate > 0
    ensures (forall samples | AllInt16(samples, size) :: Int16(Output(samples, i, srcRate, dstRate)))
       <==> Past(size, i, srcRate, dstRate) * 65535 < dstRate
  {
    hide Output, Past, Steepest;
    if Past(size, i, srcRate, dstRate) * 65535 < dstRate {
      forall samples | AllInt16(samples, size) ensures Int16(Output(samples, i, srcRate, dstRate)) {
        OutputInRange(samples, i, srcRate, dstRate);
      }
    } else {
      SteepestLeaves(size, i, srcRate, dstRate);
    }
  }

  lemma OutputInRange(samples: seq<int>, i: nat, srcRate: nat, dstRate: nat)
    requires |samples| >= 2 && AllInt16(samples, |samples|) && srcRate > 0 && dstRate > 0
    requires Past(|samples|, i, srcRate, dstRate) * 65535 < dstRate
    ensures Int16(Output(samples, i, srcRate, dstRate))
  {
    hide Blend, Past, Truncated, Left;
    var size, past := |samples|, Past(|samples|, i, srcRate, dstRate);
    if past > 0 {
      BlendPast(samples, i, srcRate, dstRate);
      SmallStep(samples[size - 2], samples[size - 1], past, dstRate);
    } else {
      OutputBetween(samples, i, srcRate, dstRate);
    }
  }

  lemma SteepestLeaves(size: nat, i: nat, srcRate: nat, dstRate: nat)
    requires size >= 2 && srcRate > 0 && dstRate > 0 && Past(size, i, srcRate, dstRate) * 65535 >= dstRate
    ensures AllInt16(Steepest(size), size) && !Int16(Output(Steepest(size), i, srcRate, dstRate))
  {
    hide Blend, Past, Truncated, Left;
    BlendPast(Steepest(size), i, srcRate, dstRate);
    TruncatedFloor(32767, 65535 * Past(size, i, srcRate, dstRate), dstRate);
  }

  lemma SmallStep(a: int, b: int, past: nat, den: nat)
    requires Int16(a) && Int16(b) && past * 65535 < den
    ensures Int16(Truncated(b * den + (b - a) * past, den))
  {
    TimesBetween(b - a, past, 65535, 65535);
    TimesBetween(b, den, 32768, 32767);
    RangeDivides(b * den, (b - a) * past, past, den);
  }

  lemma RangeDivides(base: int, d: int, past: nat, den: nat)
    requires -(32768 * den) <= base <= 32767 * den && -(65535 * past) <= d <= 65535 * past && past * 65535 < den
    ensures Int16(Truncated(base + d, den))
  {
    var num := base + d;
    if num >= 0 {
      LessThanDivides(num, 32768, den);
    } else {
      LessThanDivides(-num, 32769, den);
    }
  }

  lemma TimesBetween(x: int, n: nat, low: int, high: int)
    requires -low <= x <= high
    ensures -(low * n) <= x * n <= high * n
  {
    assert (x + low) * n == x * n + low * n;
    assert (high - x) * n == high * n - x * n;
  }

  lemma LessThanDivides(a: nat, b: nat, den: nat)
    requires den > 0 && a < b * den
    ensures a / den < b
  {
    var q, r := a / den, a % den;
    assert a == q * den + r;
    if q >= b {
      TimesMono(b, q, den);
    }
  }

  lemma TruncatedFloor(b: nat, d: nat, den: nat)
    requires den > 0 && d >= den
    ensures Truncated(b * den + d, den) >= b + 1
  {
    assert (b + 1) * den == b * den + den;
    DividesAtLeast(b * den + d, b + 1, den);
  }

  lemma DividesAtLeast(a: nat, b: nat, den: nat)
    requires den > 0 && b * den <= a
    ensures a / den >= b
  {
    var q, r := a / den, a % den;
    assert a == q * den + r;
    assert (q + 1) * den == q * den + den;
    TimesMonoIf(q + 1, b, den);
  }

  lemma OutputBetween(samples: seq<int>, i: nat, srcRate: nat, dstRate: nat)
    requires |samples| >= 2 && srcRate > 0 && dstRate > 0 && Past(|samples|, i, srcRate, dstRate) <= 0
    ensures var left := Left(i, |samples|, srcRate, dstRate);
            0 <= left <= |samples| - 2
            && Between(Output(samples, i, srcRate, dstRate), samples[left], samples[left + 1])
  {
    var left := Left(i, |samples|, srcRate, dstRate);
    InterpolatesIff(|samples|, i, srcRate, dstRate);
    BlendBetween(samples[left], samples[left + 1], i * srcRate - left * dstRate, dstRate);
  }

  // Two negative inputs that rise: past the last one the cast rounds up, out of their range.
  function RisingBelowZero(size: nat): seq<int> { seq(size, k => if k == size - 1 then -1 else -2) }

  // Output i lies between its two neighbours for every int16 input exactly when it falls no later
  // than the last input.
  lemma AlwaysBetweenIff(size: nat, i: nat, srcRate: nat, dstRate: nat)
    requires size >= 2 && srcRate > 0 && dstRate > 0
    ensures (forall samples | AllInt16(samples, size) :: BetweenNeighbours(samples, i, srcRate, dstRate))
       <==> i * srcRate <= (size - 1) * dstRate
  {
    if Past(size, i, srcRate, dstRate) <= 0 {
      forall samples | AllInt16(samples, size) ensures BetweenNeighbours(samples, i, srcRate, dstRate) {
        OutputBetween(samples, i, srcRate, dstRate);
      }
    } else {
      var samples := RisingBelowZero(size);
      assert AllInt16(samples, size);
      BlendPast(samples, i, srcRate, dstRate);
      RoundsUp(Past(size, i, srcRate, dstRate), dstRate);
      assert !BetweenNeighbours(samples, i, srcRate, dstRate);
    }
  }

  ghost predicate BetweenNeighbours(samples: seq<int>, i: nat, srcRate: nat, dstRate: nat)
    requires samples != [] && dstRate > 0
  {
    var left := Left(i, |samples|, srcRate, dstRate);
    0 <= left && left + 1 < |samples| && Between(Output(samples, i, srcRate, dstRate), samples[left], samples[left + 1])
  }

  lemma RoundsUp(past: nat, den: nat)
    requires 0 < past && 0 < den
    ensures Truncated(-1 * den + 1 * past, den) >= 0
  {
  }

  // For one, raising the rate from 1 to 2.
  lemma RaisingOverflows()
    ensures var out := Resampled([0, 32767], 1, 2);
            |out| == 4 && out[3] == 49150 && !Int16(out[3])
  {
    assert NewLength(2, 1, 2) == 4;
    assert Left(3, 2, 1, 2) == 0;
    assert Blend([0, 32767], 3, 1, 2) == 98301;
  }
}
