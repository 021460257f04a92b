/** The HX711 load-cell weight path: taring the scale into a zero offset,
    and converting a raw count into kilograms with that offset and the
    calibration factor. Python floats are idealised as exact reals. */
module LoadCell {
  import opened Wrappers

  /** How many times a tare calls `hx.read()`. */
  const TareAttempts: nat := 10

  /** Raw counts per gram of load, as configured for the unit. */
  const DefaultCalibrationFactor: real := 102.372

  /** The weight path computes grams and publishes kilograms. */
  const GramsPerKilogram: real := 1000.0

  // ---------------------------------------------------------------------
  // The readings a tare keeps, and their statistics

  /** The successful reads among `results` (the ones that did not return
      `None`), in the order they were made. A failed read is dropped, not
      replaced by a zero: the length is the number of reads minus the
      number of failures. */
  function ValidReadings(results: seq<Option<int>>): (valid: seq<int>)
    ensures |valid| + multiset(results)[None] == |results|
  {
    if results == [] then []
    else
      assert results == [results[0]] + results[1..];
      match results[0]
      case Some(x) => [x] + ValidReadings(results[1..])
      case None => ValidReadings(results[1..])
  }

  /** Collecting the valid readings of two consecutive runs of reads gives
      the first run's readings followed by the second's: the order of the
      reads is kept. */
  lemma {:induction false} ValidReadingsAppend(a: seq<Option<int>>, b: seq<Option<int>>)
    ensures ValidReadings(a + b) == ValidReadings(a) + ValidReadings(b)
  {
    if a == [] {
      assert a + b == b;
    } else {
      assert (a + b)[0] == a[0];
      assert (a + b)[1..] == a[1..] + b;
      ValidReadingsAppend(a[1..], b);
    }
  }

  /** A value is among the valid readings exactly when some read returned it;
      in particular a zero appears only if the hardware read a zero. */
  lemma {:induction false} ValidReadingsMembership(results: seq<Option<int>>, x: int)
    ensures x in ValidReadings(results) <==> Some(x) in results
  {
    if results != [] {
      assert results == [results[0]] + results[1..];
      ValidReadingsMembership(results[1..], x);
    }
  }

  /** There are no valid readings exactly when every read failed. */
  lemma {:induction false} ValidReadingsEmpty(results: seq<Option<int>>)
    ensures ValidReadings(results) == [] <==> forall i :: 0 <= i < |results| ==> results[i].None?
  {
    if results != [] {
      ValidReadingsEmpty(results[1..]);
      assert forall i :: 1 <= i < |results| ==> results[i] == results[1..][i - 1];
    }
  }

  /** Python's `sum` of a list of integers. */
  function Sum(s: seq<int>): int
  {
    if s == [] then 0 else s[0] + Sum(s[1..])
  }

  /** Python's `sum(s) / len(s)` with true division. */
  function Mean(s: seq<int>): real
    requires s != []
  {
    Sum(s) as real / |s| as real
  }

  /** The smallest element of a non-empty sequence. */
  function Min(s: seq<int>): (m: int)
    requires s != []
    ensures m in s
    ensures forall i :: 0 <= i < |s| ==> m <= s[i]
  {
    if |s| == 1 then s[0]
    else
      var rest := Min(s[1..]);
      if s[0] <= rest then s[0] else rest
  }

  /** The largest element of a non-empty sequence. */
  function Max(s: seq<int>): (m: int)
    requires s != []
    ensures m in s
    ensures forall i :: 0 <= i < |s| ==> s[i] <= m
  {
    if |s| == 1 then s[0]
    else
      var rest := Max(s[1..]);
      if s[0] >= rest then s[0] else rest
  }

  /** A sum lies between |s| times the bounds of its elements. */
  lemma {:induction false} SumBetween(s: seq<int>, lo: int, hi: int)
    requires forall i :: 0 <= i < |s| ==> lo <= s[i] <= hi
    ensures |s| * lo <= Sum(s) <= |s| * hi
  {
    if s != [] {
      SumBetween(s[1..], lo, hi);
    }
  }

  /** The mean lies between the smallest and the largest reading. */
  lemma MeanBounds(s: seq<int>)
    requires s != []
    ensures Min(s) as real <= Mean(s) <= Max(s) as real
  {
    SumBetween(s, Min(s), Max(s));
    QuotientBetween(Sum(s), |s|, Min(s), Max(s));
  }

  /** Dividing a total by a positive count `n` keeps it between the bounds
      whose `n`-fold multiples enclose it. */
  lemma QuotientBetween(total: int, n: int, lo: int, hi: int)
    requires n > 0
    requires n * lo <= total <= n * hi
    ensures lo as real <= total as real / n as real <= hi as real
  {
  }

  /** The mean of readings that all equal `v` is `v`. */
  lemma MeanOfConstant(s: seq<int>, v: int)
    requires s != []
    requires forall i :: 0 <= i < |s| ==> s[i] == v
    ensures Mean(s) == v as real
  {
    SumBetween(s, v, v);
    assert Sum(s) == |s| * v;
  }

  // ---------------------------------------------------------------------
  // Weight conversion

  /** The weight in kilograms for the raw read `raw`: `None` when the read
      failed, otherwise the count above the zero offset, scaled by the
      calibration factor into grams and then into kilograms. Stated as the
      inverse: the raw count is recovered from the weight. */
  function Weight(raw: Option<int>, zeroOffset: real, calibrationFactor: real): (w: Option<real>)
    requires calibrationFactor != 0.0
    ensures w.None? <==> raw.None?
    ensures w.Some? ==> w.value * GramsPerKilogram * calibrationFactor + zeroOffset == raw.value as real
  {
    match raw
    case None => None
    case Some(r) => Some((r as real - zeroOffset) / calibrationFactor / GramsPerKilogram)
  }

  /** A raw count equal to the zero offset weighs nothing. */
  lemma WeightAtZeroOffset(r: int, calibrationFactor: real)
    requires calibrationFactor != 0.0
    ensures Weight(Some(r), r as real, calibrationFactor) == Some(0.0)
  {
  }

  /** With a positive calibration factor a larger raw count weighs more. */
  lemma WeightMonotone(r1: int, r2: int, zeroOffset: real, calibrationFactor: real)
    requires calibrationFactor > 0.0
    requires r1 < r2
    ensures Weight(Some(r1), zeroOffset, calibrationFactor).value
          < Weight(Some(r2), zeroOffset, calibrationFactor).value
  {
  }

  /** Taring an unloaded scale whose successful reads all return `v`, then
      reading `v` again, weighs zero: at least one read succeeded, so the
      offset becomes their mean, which is `v`. */
  lemma TaredAtRestWeighsZero(results: seq<Option<int>>, v: int, calibrationFactor: real)
    requires calibrationFactor != 0.0
    requires Some(v) in results
    requires forall i :: 0 <= i < |results| && results[i].Some? ==> results[i].value == v
    ensures ValidReadings(results) != []
    ensures Weight(Some(v), Mean(ValidReadings(results)), calibrationFactor) == Some(0.0)
  {
    var valid := ValidReadings(results);
    ValidReadingsMembership(results, v);
    forall i | 0 <= i < |valid|
      ensures valid[i] == v
    {
      ValidReadingsMembership(results, valid[i]);
    }
    MeanOfConstant(valid, v);
  }

  // ---------------------------------------------------------------------
  // The scale: the calibration state the source keeps in module globals

  /** The module-level `zero_offset` and `calibration_factor` of the source.
      Only a successful tare writes the offset; the factor never changes. */
  class Scale {
    var zeroOffset: real
    const calibrationFactor: real := DefaultCalibrationFactor

    /** At start-up the offset is zero. */
    constructor ()
      ensures zeroOffset == 0.0
    {
      zeroOffset := 0.0;
    }

    /** Tares the scale from the stream `results` of successive `hx.read()`
        results. Exactly the first `TareAttempts` entries are read, whether
        or not they succeed: the new offset is a function of
        `results[..TareAttempts]` alone. When
        at least one succeeded the offset becomes the mean of the successful
        ones, which lies between their minimum and maximum; when all failed
        the source raises and catches its own error, and the offset is left
        as it was. */
    method Tare(results: seq<Option<int>>)
      requires |results| >= TareAttempts
      modifies this
      ensures var valid := ValidReadings(results[..TareAttempts]);
        if valid == [] then
          zeroOffset == old(zeroOffset)
        else
          zeroOffset == Mean(valid) && Min(valid) as real <= zeroOffset <= Max(valid) as real
    {
      var rawReadings: seq<int> := [];
      for i := 0 to TareAttempts
        invariant rawReadings == ValidReadings(results[..i])
        invariant zeroOffset == old(zeroOffset)
      {
        var rawValue := results[i];
        if rawValue.Some? {
          rawReadings := rawReadings + [rawValue.value];
        }
        assert results[..i + 1] == results[..i] + [results[i]];
        ValidReadingsAppend(results[..i], [results[i]]);
      }
      if rawReadings != [] {
        zeroOffset := Mean(rawReadings);
        MeanBounds(rawReadings);
      }
    }

    /** Converts one `hx.read()` result with the current calibration state,
        which it reads but does not change. */
    method GetWeight(raw: Option<int>) returns (weight: Option<real>)
      ensures weight == Weight(raw, zeroOffset, calibrationFactor)
      ensures weight.None? <==> raw.None?
    {
      weight := Weight(raw, zeroOffset, calibrationFactor);
    }
  }
}
