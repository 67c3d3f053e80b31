/** The Z-offset schedule: one offset per square, evenly spaced from the
    minimum to the maximum and rounded to three decimals. */
module Offsets {
  import opened Config

  /** Rounding to the nearest integer with ties to even, as Python's `round`
      does. The two postconditions determine the result uniquely. */
  function RoundHalfEven(v: real): (r: int)
    ensures -0.5 <= r as real - v <= 0.5
    ensures (r as real - v == 0.5 || v - r as real == 0.5) ==> r % 2 == 0
  {
    var f := v.Floor;
    var d := v - f as real;
    if d < 0.5 then f
    else if d > 0.5 then f + 1
    else if f % 2 == 0 then f
    else f + 1
  }

  /** Rounding never reverses the order of two values. */
  lemma RoundHalfEvenMonotone(a: real, b: real)
    requires a <= b
    ensures RoundHalfEven(a) <= RoundHalfEven(b)
  {
  }

  /** Python's `round(v, 3)` on an exact value: the nearest number of
      thousandths, and on an exact tie the even one. */
  function Round3(v: real): (r: real)
    ensures -0.0005 <= r - v <= 0.0005
    ensures (r * 1000.0).Floor as real == r * 1000.0
    ensures (r - v == 0.0005 || v - r == 0.0005) ==> (r * 1000.0).Floor % 2 == 0
  {
    var k := RoundHalfEven(v * 1000.0);
    assert k as real / 1000.0 * 1000.0 == k as real;
    assert (k as real / 1000.0 - v == 0.0005) == (k as real - v * 1000.0 == 0.5);
    assert (v - k as real / 1000.0 == 0.0005) == (v * 1000.0 - k as real == 0.5);
    k as real / 1000.0
  }

  lemma Round3Monotone(a: real, b: real)
    requires a <= b
    ensures Round3(a) <= Round3(b)
  {
    RoundHalfEvenMonotone(a * 1000.0, b * 1000.0);
  }

  /** A value that already has at most three decimals is unchanged. */
  lemma Round3Exact(k: int)
    ensures Round3(k as real / 1000.0) == k as real / 1000.0
  {
    assert (k as real / 1000.0) * 1000.0 == k as real;
    var r := RoundHalfEven(k as real);
    assert r == k;
  }

  /** The spacing between consecutive offsets before rounding. */
  function OffsetStep(zMin: real, zMax: real, n: int): real
    requires n != 1
  {
    (zMax - zMin) / (n - 1) as real
  }

  /** The `i`-th offset before rounding, for `n` squares. */
  function ExactOffset(zMin: real, zMax: real, n: int, i: int): real
    requires n != 1
  {
    zMin + i as real * (zMax - zMin) / (n - 1) as real
  }

  /** The list of offsets for `n` squares. The source builds it before any
      square is printed, and a single square makes the step divide by zero. */
  function Schedule(zMin: real, zMax: real, n: int): (r: Result<seq<real>>)
    ensures r.Failure? <==> n == 1
    ensures r.Failure? ==> r.error == OffsetStepByZero
    ensures r.Success? ==> |r.value| == Max0(n)
    ensures r.Success? ==> forall i :: 0 <= i < |r.value| ==>
      -0.0005 <= r.value[i] - ExactOffset(zMin, zMax, n, i) <= 0.0005
  {
    if n == 1 then Failure(OffsetStepByZero)
    else Success(seq(Max0(n), i => Round3(ExactOffset(zMin, zMax, n, i))))
  }

  /** Before rounding, the schedule starts at the minimum, ends at the
      maximum and advances by a constant step. */
  lemma ExactScheduleShape(zMin: real, zMax: real, n: int, i: int)
    requires n >= 2
    ensures ExactOffset(zMin, zMax, n, 0) == zMin
    ensures ExactOffset(zMin, zMax, n, n - 1) == zMax
    ensures ExactOffset(zMin, zMax, n, i + 1) - ExactOffset(zMin, zMax, n, i) == OffsetStep(zMin, zMax, n)
  {
    var d := (n - 1) as real;
    assert (n - 1) as real * (zMax - zMin) / d == zMax - zMin;
    assert (i + 1) as real * (zMax - zMin) / d == i as real * (zMax - zMin) / d + (zMax - zMin) / d;
  }

  /** The rounded schedule starts at the rounded minimum and ends at the
      rounded maximum. */
  lemma ScheduleEnds(zMin: real, zMax: real, n: int)
    requires n >= 2
    ensures Schedule(zMin, zMax, n).value[0] == Round3(zMin)
    ensures Schedule(zMin, zMax, n).value[n - 1] == Round3(zMax)
  {
    ExactScheduleShape(zMin, zMax, n, 0);
    assert Schedule(zMin, zMax, n).value[n - 1] == Round3(ExactOffset(zMin, zMax, n, n - 1));
  }

  /** Before rounding, the `i`-th offset is `i` steps above the minimum. */
  lemma ExactOffsetLinear(zMin: real, zMax: real, n: int, i: int)
    requires n != 1
    ensures ExactOffset(zMin, zMax, n, i) == zMin + i as real * OffsetStep(zMin, zMax, n)
  {
    var d := (n - 1) as real;
    assert i as real * (zMax - zMin) / d == i as real * ((zMax - zMin) / d);
  }

  /** The rounded schedule runs monotonically in the direction of
      `zMax - zMin`: rounding never breaks the order of the exact offsets. */
  lemma ScheduleMonotone(zMin: real, zMax: real, n: int, i: int, j: int)
    requires n != 1 && 0 <= i <= j < n
    ensures zMin <= zMax ==> Schedule(zMin, zMax, n).value[i] <= Schedule(zMin, zMax, n).value[j]
    ensures zMax <= zMin ==> Schedule(zMin, zMax, n).value[j] <= Schedule(zMin, zMax, n).value[i]
  {
    var step := OffsetStep(zMin, zMax, n);
    var a, b := ExactOffset(zMin, zMax, n, i), ExactOffset(zMin, zMax, n, j);
    ExactOffsetLinear(zMin, zMax, n, i);
    ExactOffsetLinear(zMin, zMax, n, j);
    assert b - a == (j - i) as real * step;
    assert (n - 1) as real > 0.0;
    if zMin <= zMax {
      assert step >= 0.0;
      assert (j - i) as real * step >= 0.0;
      Round3Monotone(a, b);
    }
    if zMax <= zMin {
      assert step <= 0.0;
      assert (j - i) as real * step <= 0.0;
      Round3Monotone(b, a);
    }
  }
}
