/**
 * The slider's value <-> position mapping (src/components/Slider/utils.ts).
 *
 * A domain value (a timestamp in milliseconds) is mapped onto a percentage
 * position in [0, 100] along the track, and back, by clamped linear
 * interpolation between the first and the last reference value.  All
 * arithmetic is exact (Dafny `real`), not IEEE-754.
 */
module RangeMapper {

  /** One day in milliseconds: 24 * 60 * 60 * 1000. */
  const OneDay: real := 86400000.0

  /** Number of samples generated when no reference data is supplied. */
  const DefaultSampleCount: nat := 5

  /** A sub-interval of position space, rendered as a break marker. */
  datatype Gap = Gap(start: real, end: real)

  /**
   * The object built by generateSliderData: the reference data the two
   * mapping closures capture, the gap markers, and the position ranges
   * between gaps.
   */
  datatype SliderData = SliderData(data: seq<real>, gaps: seq<Gap>, dataByGapsPositions: seq<Gap>)
  {
    /** The closures read data[0] and data[last]: the data is never empty. */
    predicate Valid() { |data| > 0 }

    function Min(): (m: real) requires Valid() { data[0] }

    function Max(): (m: real) requires Valid() { data[|data| - 1] }
  }

  /**
   * generateSampleTimestamps(count): `count` timestamps one day apart, the
   * last of which is `now` (the clock reading, passed in).
   */
  function SampleTimestamps(count: nat, now: real): (r: seq<real>)
    ensures |r| == count
    ensures count > 0 ==> r[count - 1] == now
    ensures forall i :: 0 <= i < count - 1 ==> r[i + 1] == r[i] + OneDay
  {
    seq(count, i requires 0 <= i < count => now - (count - 1 - i) as real * OneDay)
  }

  /** The generated timestamps are strictly increasing. */
  lemma SampleTimestampsIncreasing(count: nat, now: real)
    ensures var r := SampleTimestamps(count, now);
            forall i, j :: 0 <= i < j < count ==> r[i] < r[j]
  {
  }

  /**
   * generateSliderData(data): empty data falls back to the five default
   * samples; there are never any gaps and one position range [0, 100].
   */
  function GenerateSliderData(data: seq<real>, now: real): (r: SliderData)
    ensures r.Valid()
    ensures data != [] ==> r.data == data
    ensures data == [] ==> r.data == SampleTimestamps(DefaultSampleCount, now)
    ensures r.gaps == []
    ensures r.dataByGapsPositions == [Gap(0.0, 100.0)]
  {
    var d := if |data| == 0 then SampleTimestamps(DefaultSampleCount, now) else data;
    SliderData(d, [], [Gap(0.0, 100.0)])
  }

  /**
   * valueToPosition: 100 at or above max (checked first), 0 at or below min,
   * linear in between.  The division is reached only when min < value < max,
   * so it never divides by zero, whatever the order of min and max.
   */
  function ValueToPosition(s: SliderData, value: real): (p: real)
    requires s.Valid()
    ensures 0.0 <= p <= 100.0
    ensures value >= s.Max() ==> p == 100.0
    ensures value < s.Max() && value <= s.Min() ==> p == 0.0
    ensures s.Min() < value < s.Max() ==> 0.0 < p < 100.0
    ensures s.Min() < value < s.Max() ==> p * (s.Max() - s.Min()) == (value - s.Min()) * 100.0
  {
    var min, max := s.Min(), s.Max();
    if value >= max then 100.0
    else if value <= min then 0.0
    else
      var f := (value - min) / (max - min);
      assert 0.0 < f < 1.0 by { FractionBounds(value - min, max - min); }
      f * 100.0
  }

  /** 0 < a < b gives a fraction strictly between 0 and 1. */
  lemma FractionBounds(a: real, b: real)
    requires 0.0 < a < b
    ensures 0.0 < a / b < 1.0
  {
    var q := a / b;
    assert q * b == a;
    if q >= 1.0 {
      assert (q - 1.0) * b == q * b - b;
      MulNonNeg(q - 1.0, b);
    }
  }

  lemma MulNonNeg(x: real, y: real)
    requires 0.0 <= x && 0.0 <= y
    ensures 0.0 <= x * y
  {
  }

  /**
   * positionToValue: max at or above 100 (checked first), min at or below 0,
   * linear in between.  The result lies between min and max, whichever of
   * the two is larger, and is min when the range is degenerate.
   */
  function PositionToValue(s: SliderData, position: real): (v: real)
    requires s.Valid()
    ensures position >= 100.0 ==> v == s.Max()
    ensures position < 100.0 && position <= 0.0 ==> v == s.Min()
    ensures s.Min() <= s.Max() ==> s.Min() <= v <= s.Max()
    ensures s.Max() <= s.Min() ==> s.Max() <= v <= s.Min()
    ensures s.Min() == s.Max() ==> v == s.Min()
    ensures 0.0 < position < 100.0 ==> (v - s.Min()) * 100.0 == position * (s.Max() - s.Min())
  {
    var min, max := s.Min(), s.Max();
    if position >= 100.0 then max
    else if position <= 0.0 then min
    else
      var t := position / 100.0;
      var step := t * (max - min);
      InterpolationBounds(min, max, t, step);
      min + step
  }

  /**
   * Moving from min towards max by a fraction t in [0, 1] of the distance
   * (step == t * (max - min)) stays between the two end points.
   */
  lemma InterpolationBounds(min: real, max: real, t: real, step: real)
    requires 0.0 <= t <= 1.0 && step == t * (max - min)
    ensures min <= max ==> min <= min + step <= max
    ensures max <= min ==> max <= min + step <= min
  {
    assert (1.0 - t) * (max - min) == (max - min) - step;
    if min <= max {
      MulNonNeg(t, max - min);
      MulNonNeg(1.0 - t, max - min);
    } else {
      assert t * (min - max) == -step;
      assert (1.0 - t) * (min - max) == step - (max - min);
      MulNonNeg(t, min - max);
      MulNonNeg(1.0 - t, min - max);
    }
  }

  /** Mapping a strictly interior value to a position and back gives the value. */
  lemma PositionRoundTrip(s: SliderData, v: real)
    requires s.Valid() && s.Min() < v < s.Max()
    ensures PositionToValue(s, ValueToPosition(s, v)) == v
  {
  }

  /** Mapping a strictly interior position to a value and back gives the position. */
  lemma ValueRoundTrip(s: SliderData, p: real)
    requires s.Valid() && s.Min() < s.Max() && 0.0 < p < 100.0
    ensures ValueToPosition(s, PositionToValue(s, p)) == p
  {
    var min, max := s.Min(), s.Max();
    var t := p / 100.0;
    var v := PositionToValue(s, p);
    assert v == min + t * (max - min);
    assert 0.0 < t * (max - min) < max - min by {
      assert (max - min) - t * (max - min) == (1.0 - t) * (max - min);
    }
    assert min < v < max;
    assert (v - min) / (max - min) == t;
  }

  /** valueToPosition never decreases as the value grows, for an ordered range. */
  lemma ValueToPositionMonotone(s: SliderData, v1: real, v2: real)
    requires s.Valid() && s.Min() <= s.Max() && v1 <= v2
    ensures ValueToPosition(s, v1) <= ValueToPosition(s, v2)
  {
    var min, max := s.Min(), s.Max();
    if min < v1 && v2 < max {
      var d := max - min;
      assert (v1 - min) / d <= (v2 - min) / d by {
        assert (v2 - min) / d - (v1 - min) / d == (v2 - v1) / d;
        assert (v2 - v1) / d * d == v2 - v1;
      }
    }
  }

  /** positionToValue never decreases as the position grows, for an ordered range. */
  lemma PositionToValueMonotone(s: SliderData, p1: real, p2: real)
    requires s.Valid() && s.Min() <= s.Max() && p1 <= p2
    ensures PositionToValue(s, p1) <= PositionToValue(s, p2)
  {
    var min, max := s.Min(), s.Max();
    if 0.0 < p1 && p2 < 100.0 {
      assert (p1 / 100.0) * (max - min) <= (p2 / 100.0) * (max - min) by {
        assert (p2 / 100.0) * (max - min) - (p1 / 100.0) * (max - min)
            == ((p2 - p1) / 100.0) * (max - min);
        MulNonNeg((p2 - p1) / 100.0, max - min);
      }
    }
  }

  /**
   * The default five samples span four days ending at `now`; the middle
   * sample maps to position 50.
   */
  lemma DefaultMiddleSampleAtHalf(now: real)
    ensures var s := GenerateSliderData([], now);
            ValueToPosition(s, s.data[2]) == 50.0
  {
  }
}
