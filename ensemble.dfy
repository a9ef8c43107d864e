/** The ensemble of ecl_quantile: the loaded summary cases, the running
    start/end bounds kept while cases are added, and the evenly spaced
    time axis every case is resampled onto. Timestamps are `time_t`
    seconds, modelled as unbounded `int`. */
module Ensembles {
  import opened Fallible

  /** Number of interpolation points when NUM_INTERP is not given. */
  const DefaultNumInterp: int := 50

  /** Fewest cases for which quantiles are computed at all. */
  const MinRealizations: int := 10

  /** One loaded summary case: where it came from and the time span it
      simulates. The value lookup of a case is foreign and is passed to
      the operations that need it. */
  datatype SumCase = SumCase(dataFile: string, startTime: int, endTime: int)

  function Min(a: int, b: int): int { if a <= b then a else b }

  function Max(a: int, b: int): int { if a >= b then a else b }

  // ---------------------------------------------------------------
  // Ensemble bounds

  /** The start bound after one more case: it is only min-combined while
      the current bound is positive; otherwise the new case's start
      replaces it (the initial bound -1 included). */
  function NextStart(current: int, caseStart: int): int
  {
    if current > 0 then Min(current, caseStart) else caseStart
  }

  /** The start bound left by adding `cases` in order to a fresh ensemble. */
  function StartBound(cases: seq<SumCase>): int
  {
    if cases == [] then -1
    else NextStart(StartBound(cases[..|cases| - 1]), cases[|cases| - 1].startTime)
  }

  /** The end bound left by adding `cases` in order to a fresh ensemble. */
  function EndBound(cases: seq<SumCase>): int
  {
    if cases == [] then -1
    else Max(EndBound(cases[..|cases| - 1]), cases[|cases| - 1].endTime)
  }

  /** The end bound is the largest of -1 and every case's end time. */
  lemma {:induction false} EndBoundIsMax(cases: seq<SumCase>)
    ensures EndBound(cases) >= -1
    ensures forall i :: 0 <= i < |cases| ==> cases[i].endTime <= EndBound(cases)
    ensures EndBound(cases) == -1 || exists i :: 0 <= i < |cases| && cases[i].endTime == EndBound(cases)
  {
    if cases != [] {
      var n := |cases| - 1;
      var prefix := cases[..n];
      EndBoundIsMax(prefix);
      assert forall i :: 0 <= i < n ==> prefix[i] == cases[i];
      if EndBound(prefix) != -1 && EndBound(cases) == EndBound(prefix) {
        var i :| 0 <= i < |prefix| && prefix[i].endTime == EndBound(prefix);
        assert cases[i].endTime == EndBound(cases);
      }
    }
  }

  predicate PositiveStarts(cases: seq<SumCase>)
  {
    forall i :: 0 <= i < |cases| ==> cases[i].startTime > 0
  }

  /** While every case starts at a positive time, the start bound is the
      earliest start of a non-empty ensemble. */
  lemma {:induction false} StartBoundIsMin(cases: seq<SumCase>)
    requires cases != [] && PositiveStarts(cases)
    ensures forall i :: 0 <= i < |cases| ==> StartBound(cases) <= cases[i].startTime
    ensures exists i :: 0 <= i < |cases| && cases[i].startTime == StartBound(cases)
  {
    var n := |cases| - 1;
    var prefix := cases[..n];
    assert forall i :: 0 <= i < n ==> prefix[i] == cases[i];
    if prefix == [] {
      assert StartBound(cases) == cases[0].startTime;
    } else {
      StartBoundIsMin(prefix);
      var i :| 0 <= i < |prefix| && prefix[i].startTime == StartBound(prefix);
      assert StartBound(prefix) > 0;
      if StartBound(cases) == StartBound(prefix) {
        assert cases[i].startTime == StartBound(cases);
      }
    }
  }

  /** The end bound does not depend on the order the cases were added in. */
  lemma EndBoundOrderIndependent(a: seq<SumCase>, b: seq<SumCase>)
    requires multiset(a) == multiset(b)
    ensures EndBound(a) == EndBound(b)
  {
    EndBoundIsMax(a);
    EndBoundIsMax(b);
    forall i | 0 <= i < |b| ensures b[i].endTime <= EndBound(a) {
      assert b[i] in multiset(a);
      var j :| 0 <= j < |a| && a[j] == b[i];
    }
    forall i | 0 <= i < |a| ensures a[i].endTime <= EndBound(b) {
      assert a[i] in multiset(b);
      var j :| 0 <= j < |b| && b[j] == a[i];
    }
  }

  /** With positive start times the start bound does not depend on the
      order the cases were added in either. */
  lemma StartBoundOrderIndependent(a: seq<SumCase>, b: seq<SumCase>)
    requires multiset(a) == multiset(b)
    requires PositiveStarts(a)
    ensures StartBound(a) == StartBound(b)
  {
    if a == [] {
      assert |b| == |multiset(b)| == 0;
    } else {
      assert |b| == |multiset(b)| == |a|;
      forall i | 0 <= i < |b| ensures b[i] in a {
        assert b[i] in multiset(a);
      }
      forall i | 0 <= i < |a| ensures a[i] in b {
        assert a[i] in multiset(b);
      }
      StartBoundIsMin(a);
      StartBoundIsMin(b);
      var i :| 0 <= i < |a| && a[i].startTime == StartBound(a);
      var j :| 0 <= j < |b| && b[j].startTime == StartBound(b);
      var ib :| 0 <= ib < |b| && b[ib] == a[i];
      var ja :| 0 <= ja < |a| && a[ja] == b[j];
    }
  }

  /** When a case has a start time of zero or earlier, a later case's
      start replaces the bound instead of being min-combined with it. */
  lemma StartBoundNonPositiveExample()
    ensures StartBound([SumCase("A", 0, 10), SumCase("B", 5, 20)]) == 5
  {
    var cases := [SumCase("A", 0, 10), SumCase("B", 5, 20)];
    assert cases[..1] == [SumCase("A", 0, 10)];
    assert cases[..1][..0] == [];
  }

  /** If every case starts no later than it ends, the ensemble's start
      bound is not after its end bound. */
  lemma BoundsOrdered(cases: seq<SumCase>)
    requires forall i :: 0 <= i < |cases| ==> cases[i].startTime <= cases[i].endTime
    ensures StartBound(cases) <= EndBound(cases)
  {
    // The start bound is at most the last case's start, which is at most
    // its end, which is at most the end bound.
    EndBoundIsMax(cases);
  }

  /** Once the start bound is zero or earlier, the next case replaces it
      and the cases before no longer matter. */
  lemma {:induction false} StartBoundAfterNonPositive(a: seq<SumCase>, b: seq<SumCase>)
    requires StartBound(a) <= 0 && b != []
    ensures StartBound(a + b) == StartBound(b)
  {
    var n := |b| - 1;
    assert (a + b)[..|a + b| - 1] == a + b[..n];
    assert (a + b)[|a + b| - 1] == b[n];
    if n > 0 {
      StartBoundAfterNonPositive(a, b[..n]);
    } else {
      assert b[..n] == [];
    }
  }

  /** A case starting at time zero or earlier discards every earlier case
      from the start bound. */
  lemma StartBoundResets(cases: seq<SumCase>, j: int)
    requires 0 <= j < |cases| - 1 && cases[j].startTime <= 0
    ensures StartBound(cases) == StartBound(cases[j + 1..])
  {
    var a, b := cases[..j + 1], cases[j + 1..];
    assert a[..|a| - 1] == cases[..j];
    assert StartBound(a) <= 0;
    assert cases == a + b;
    StartBoundAfterNonPositive(a, b);
  }

  // ---------------------------------------------------------------
  // Time axis

  /** C's integer division of `a` by a positive `b`: the quotient is
      truncated toward zero. */
  function TruncDiv(a: int, b: int): (q: int)
    requires b > 0
    ensures a >= 0 ==> q * b <= a < q * b + b
    ensures a < 0 ==> q * b - b < a <= q * b
  {
    if a >= 0 then a / b else -((-a) / b)
  }

  /** Entry `i` of an axis of `n` points from `start` to `end`. */
  function AxisPoint(start: int, end: int, n: int, i: int): int
    requires n >= 2
  {
    start + TruncDiv(i * (end - start), n - 1)
  }

  /** The time axis built for `n` interpolation points. No point is built
      for `n <= 0`; `n == 1` divides by zero in the source. */
  function Axis(start: int, end: int, n: int): seq<int>
    requires n != 1
  {
    if n <= 0 then []
    else seq(n, i requires 0 <= i < n => AxisPoint(start, end, n, i))
  }

  lemma MulMono(i: int, j: int, d: int)
    requires i <= j && d >= 0
    ensures i * d <= j * d
  {
    assert j * d - i * d == (j - i) * d;
  }

  lemma MulCancelLt(x: int, y: int, b: int)
    requires b > 0
    ensures x * b < y * b ==> x < y
  {
    if x >= y {
      MulMono(y, x, b);
    }
  }

  lemma DivUnique(a: int, b: int, q: int)
    requires b > 0 && q * b <= a < q * b + b
    ensures a / b == q
  {
    var r := a / b;
    assert (q + 1) * b == q * b + b;
    assert (r + 1) * b == r * b + b;
    MulCancelLt(r, q + 1, b);
    MulCancelLt(q, r + 1, b);
  }

  lemma ExactDiv(d: int, b: int)
    requires b > 0
    ensures TruncDiv(b * d, b) == d
  {
    if d >= 0 {
      MulMono(0, d, b);
      DivUnique(b * d, b, d);
    } else {
      assert -(b * d) == b * (-d);
      MulMono(0, -d, b);
      DivUnique(b * (-d), b, -d);
    }
  }

  lemma DivMono(a: int, a': int, b: int)
    requires 0 <= a <= a' && b > 0
    ensures a / b <= a' / b
  {
    if a / b > a' / b {
      assert b * (a / b) >= b * (a' / b + 1) by { MulMono(a' / b + 1, a / b, b); }
    }
  }

  /** The axis has exactly `n` entries, the first is the start and the
      last is exactly the end. */
  lemma AxisEndpoints(start: int, end: int, n: int)
    requires n >= 2
    ensures |Axis(start, end, n)| == n
    ensures Axis(start, end, n)[0] == start
    ensures Axis(start, end, n)[n - 1] == end
  {
    ExactDiv(end - start, n - 1);
    assert (n - 1) * (end - start) == (n - 1) * (end - start);
  }

  /** For `start <= end` the axis never decreases. */
  lemma AxisMonotone(start: int, end: int, n: int, i: int, j: int)
    requires n >= 2 && start <= end
    requires 0 <= i <= j < n
    ensures Axis(start, end, n)[i] <= Axis(start, end, n)[j]
  {
    assert 0 <= i * (end - start) by { MulMono(0, i, end - start); }
    MulMono(i, j, end - start);
    DivMono(i * (end - start), j * (end - start), n - 1);
  }

  /** For `start <= end` every axis entry lies in `[start, end]`. */
  lemma AxisWithinBounds(start: int, end: int, n: int)
    requires n >= 2 && start <= end
    ensures forall i :: 0 <= i < n ==> start <= Axis(start, end, n)[i] <= end
  {
    AxisEndpoints(start, end, n);
    forall i | 0 <= i < n ensures start <= Axis(start, end, n)[i] <= end {
      AxisMonotone(start, end, n, 0, i);
      AxisMonotone(start, end, n, i, n - 1);
    }
  }

  /** The axis is strictly increasing when the span holds at least one
      second per step. */
  lemma AxisStrictlyIncreasing(start: int, end: int, n: int, i: int)
    requires n >= 2 && end - start >= n - 1
    requires 0 <= i < n - 1
    ensures Axis(start, end, n)[i] < Axis(start, end, n)[i + 1]
  {
    var d, b := end - start, n - 1;
    var x := i * d;
    assert x >= 0 by { MulMono(0, i, d); }
    assert (i + 1) * d == x + d;
    assert (x / b + 1) * b == x / b * b + b;
    DivUnique(x + b, b, x / b + 1);
    DivMono(x + b, x + d, b);
  }

  /** Dividing a sum of two non-negative numbers gives the sum of their
      quotients, or one more. */
  lemma DivAddBounds(x: int, d: int, b: int)
    requires x >= 0 && d >= 0 && b > 0
    ensures x / b + d / b <= (x + d) / b <= x / b + d / b + 1
  {
    var u, q := x / b, d / b;
    var s, r := x - u * b, d - q * b;
    assert (u + q) * b == u * b + q * b;
    assert (u + q + 1) * b == (u + q) * b + b;
    if s + r < b {
      DivUnique(x + d, b, u + q);
    } else {
      DivUnique(x + d, b, u + q + 1);
    }
  }

  /** For `start <= end` consecutive entries are `(end - start) / (n - 1)`
      apart, or one more where the truncated remainders carry over: the
      axis is evenly spaced up to the rounding of the division. */
  lemma AxisSpacing(start: int, end: int, n: int, i: int)
    requires n >= 2 && start <= end
    requires 0 <= i < n - 1
    ensures TruncDiv(end - start, n - 1) <= Axis(start, end, n)[i + 1] - Axis(start, end, n)[i]
    ensures Axis(start, end, n)[i + 1] - Axis(start, end, n)[i] <= TruncDiv(end - start, n - 1) + 1
  {
    var d := end - start;
    assert i * d >= 0 by { MulMono(0, i, d); }
    assert (i + 1) * d == i * d + d;
    DivAddBounds(i * d, d, n - 1);
  }

  /** With fewer seconds than steps the integer division repeats entries. */
  lemma AxisRepeatsExample()
    ensures Axis(0, 1, 3) == [0, 0, 1]
  {
  }

  lemma {:induction false} AxisGrowth(start: int, end: int, n: int, k: int)
    requires n >= 2 && 0 <= k < n
    ensures (forall i :: 0 <= i < n - 1 ==> Axis(start, end, n)[i] < Axis(start, end, n)[i + 1]) ==>
      Axis(start, end, n)[k] >= start + k
  {
    if k == 0 {
      AxisEndpoints(start, end, n);
    } else {
      AxisGrowth(start, end, n, k - 1);
    }
  }

  /** With fewer seconds than steps some entry repeats: the axis is
      strictly increasing only when the span is at least the number of
      steps. */
  lemma AxisRepeatsWhenShort(start: int, end: int, n: int)
    requires n >= 2 && 0 <= end - start < n - 1
    ensures exists i :: 0 <= i < n - 1 && Axis(start, end, n)[i] == Axis(start, end, n)[i + 1]
  {
    AxisEndpoints(start, end, n);
    AxisGrowth(start, end, n, n - 1);
    forall i | 0 <= i < n - 1 ensures Axis(start, end, n)[i] <= Axis(start, end, n)[i + 1] {
      AxisMonotone(start, end, n, i, i + 1);
    }
  }

  // ---------------------------------------------------------------
  // The ensemble object

  datatype InitOutcome = Initialised | NoCases | TooFewRealizations

  class Ensemble {
    /** The loaded cases, in the order they were added. */
    var data: seq<SumCase>
    var interpTime: seq<int>
    var numInterp: int
    var startTime: int
    var endTime: int
    /** The case whose metadata is used when writing headers. */
    var refcase: Option<SumCase>

    /** The bounds are those left by adding `data` in order. */
    ghost predicate Valid()
      reads this
    {
      startTime == StartBound(data) && endTime == EndBound(data)
    }

    constructor ()
      ensures Valid()
      ensures data == [] && interpTime == [] && refcase == None
      ensures numInterp == DefaultNumInterp && startTime == -1 && endTime == -1
    {
      data := [];
      interpTime := [];
      numInterp := DefaultNumInterp;
      startTime := -1;
      endTime := -1;
      refcase := None;
    }

    method AddCase(sumCase: SumCase)
      requires Valid()
      modifies this
      ensures Valid()
      ensures data == old(data) + [sumCase]
      ensures startTime == NextStart(old(startTime), sumCase.startTime)
      ensures endTime == Max(old(endTime), sumCase.endTime)
      ensures interpTime == old(interpTime) && numInterp == old(numInterp) && refcase == old(refcase)
    {
      data := data + [sumCase];
      if startTime > 0 {
        startTime := Min(startTime, sumCase.startTime);
      } else {
        startTime := sumCase.startTime;
      }
      endTime := Max(endTime, sumCase.endTime);
      assert data[..|data| - 1] == old(data);
    }

    /** Adds the cases one at a time, in the order given, as loading one
        glob pattern does. */
    method AddCases(loaded: seq<SumCase>)
      requires Valid()
      modifies this
      ensures Valid()
      ensures data == old(data) + loaded
      ensures interpTime == old(interpTime) && numInterp == old(numInterp) && refcase == old(refcase)
    {
      var i := 0;
      while i < |loaded|
        invariant 0 <= i <= |loaded|
        invariant Valid()
        invariant data == old(data) + loaded[..i]
        invariant interpTime == old(interpTime) && numInterp == old(numInterp) && refcase == old(refcase)
      {
        AddCase(loaded[i]);
        assert loaded[..i + 1] == loaded[..i] + [loaded[i]];
        i := i + 1;
      }
      assert loaded[..i] == loaded;
    }

    method InitTimeInterp()
      requires Valid()
      requires numInterp != 1
      modifies this`interpTime
      ensures Valid()
      ensures interpTime == old(interpTime) + Axis(startTime, endTime, numInterp)
    {
      ghost var axis := Axis(startTime, endTime, numInterp);
      var i := 0;
      while i < numInterp
        invariant 0 <= i <= |axis|
        invariant interpTime == old(interpTime) + axis[..i]
      {
        interpTime := interpTime + [startTime + TruncDiv(i * (endTime - startTime), numInterp - 1)];
        i := i + 1;
        assert axis[..i] == axis[..i - 1] + [axis[i - 1]];
      }
      assert axis[..i] == axis;
    }

    /** Adds the loaded cases, takes the first as reference case, applies
        the NUM_INTERP setting, builds the axis, and only then checks the
        number of cases. */
    method Init(loaded: seq<SumCase>, numInterpSetting: Option<int>) returns (outcome: InitOutcome)
      requires Valid()
      requires |data| + |loaded| > 0 ==> (if numInterpSetting.Some? then numInterpSetting.value else numInterp) != 1
      modifies this
      ensures Valid()
      ensures data == old(data) + loaded
      ensures outcome == NoCases <==> data == []
      ensures outcome == TooFewRealizations <==> 0 < |data| < MinRealizations
      ensures outcome == NoCases ==>
        interpTime == old(interpTime) && numInterp == old(numInterp) && refcase == old(refcase)
      ensures outcome != NoCases ==>
        && refcase == Some(data[0])
        && numInterp == (if numInterpSetting.Some? then numInterpSetting.value else old(numInterp))
        && interpTime == old(interpTime) + Axis(startTime, endTime, numInterp)
    {
      AddCases(loaded);
      if |data| == 0 {
        return NoCases;
      }
      refcase := Some(data[0]);
      if numInterpSetting.Some? {
        numInterp := numInterpSetting.value;
      }
      InitTimeInterp();
      if |data| < MinRealizations {
        return TooFewRealizations;
      }
      return Initialised;
    }
  }
}
