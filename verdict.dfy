/**
 * The final verdict on the accepted data samples: each sample is divided by
 * the elapsed time, then the run fails when the sample variance exceeds 0.05
 * (checked first) or the mean is below 90% of 16 GB/s.  Arithmetic is on
 * exact reals; Python's floating-point rounding is not modelled.
 */
module Bandwidth {

  /** How the tail of the program ends. */
  datatype Verdict =
    | DivisionByZero          // a sample divided by an elapsed time of zero
    | TooFewSamples(count: nat) // `statistics.mean`/`variance` refuse fewer than two values
    | Uneven(variance: real)
    | Low(mean: real)
    | Pass

  const MaxVariance: real := 0.05
  const MinMean: real := 0.9 * 16.0

  /** `[x / elapsed for x in xs]`. */
  function Normalise(xs: seq<int>, elapsed: real): seq<real>
    requires elapsed != 0.0
  {
    seq(|xs|, i requires 0 <= i < |xs| => xs[i] as real / elapsed)
  }

  function Sum(ys: seq<real>): real
    decreases |ys|
  {
    if |ys| == 0 then 0.0 else Sum(ys[..|ys| - 1]) + ys[|ys| - 1]
  }

  /** The sum of squared deviations from `m`. */
  function Deviation(ys: seq<real>, m: real): real
    decreases |ys|
  {
    if |ys| == 0 then 0.0
    else Deviation(ys[..|ys| - 1], m) + (ys[|ys| - 1] - m) * (ys[|ys| - 1] - m)
  }

  /** `statistics.mean`. */
  function Mean(ys: seq<real>): real
    requires |ys| > 0
  {
    Sum(ys) / |ys| as real
  }

  /** `statistics.variance`: the sample variance, divided by n - 1. */
  function Variance(ys: seq<real>): real
    requires |ys| >= 2
  {
    Deviation(ys, Mean(ys)) / (|ys| - 1) as real
  }

  /** The checks at the end of the run, in the order the program makes them. */
  function Judge(datas: seq<int>, elapsed: real): (v: Verdict)
    ensures v.Uneven? || v.Low? || v.Pass? ==> |datas| >= 2 && elapsed != 0.0
  {
    if |datas| > 0 && elapsed == 0.0 then DivisionByZero
    else if |datas| < 2 then TooFewSamples(|datas|)
    else
      var ys := Normalise(datas, elapsed);
      var variance := Variance(ys);
      if variance > MaxVariance then Uneven(variance)
      else
        var mean := Mean(ys);
        if mean < MinMean then Low(mean) else Pass
  }

  /** The process exit status of a verdict. */
  function ExitStatus(v: Verdict): int {
    if v.Pass? then 0 else 1
  }

  lemma {:induction false} DeviationNonNegative(ys: seq<real>, m: real)
    ensures Deviation(ys, m) >= 0.0
    decreases |ys|
  {
    if |ys| > 0 {
      DeviationNonNegative(ys[..|ys| - 1], m);
      var d := ys[|ys| - 1] - m;
      assert d * d >= 0.0;
    }
  }

  /** The sample variance is never negative, so an uneven verdict reports a positive spread. */
  lemma VarianceNonNegative(ys: seq<real>)
    requires |ys| >= 2
    ensures Variance(ys) >= 0.0
  {
    DeviationNonNegative(ys, Mean(ys));
  }

  lemma {:induction false} SumBelow(ys: seq<real>, b: real)
    requires forall i :: 0 <= i < |ys| ==> ys[i] < b
    ensures |ys| > 0 ==> Sum(ys) < |ys| as real * b
    decreases |ys|
  {
    if |ys| > 1 {
      SumBelow(ys[..|ys| - 1], b);
    }
  }

  /** A passing run has at least one link at 90% of 16 GB/s or more. */
  lemma PassHasFastLink(datas: seq<int>, elapsed: real)
    requires Judge(datas, elapsed) == Pass
    ensures exists i :: 0 <= i < |datas| && datas[i] as real / elapsed >= MinMean
  {
    var ys := Normalise(datas, elapsed);
    if forall i :: 0 <= i < |ys| ==> ys[i] < MinMean {
      SumBelow(ys, MinMean);
      assert false;
    }
    var i :| 0 <= i < |ys| && ys[i] >= MinMean;
    assert datas[i] as real / elapsed >= MinMean;
  }

  lemma {:induction false} SumOfConstant(ys: seq<real>, c: real)
    requires forall i :: 0 <= i < |ys| ==> ys[i] == c
    ensures Sum(ys) == |ys| as real * c
    ensures Deviation(ys, c) == 0.0
    decreases |ys|
  {
    if |ys| > 0 {
      SumOfConstant(ys[..|ys| - 1], c);
    }
  }

  /** Links that all carried the same amount never look uneven: the run
      passes exactly when that amount per second reaches 90% of 16 GB/s. */
  lemma UniformRun(datas: seq<int>, c: int, elapsed: real)
    requires |datas| >= 2 && elapsed != 0.0
    requires forall i :: 0 <= i < |datas| ==> datas[i] == c
    ensures Judge(datas, elapsed) == if c as real / elapsed < MinMean then Low(c as real / elapsed) else Pass
  {
    var ys := Normalise(datas, elapsed);
    var rate := c as real / elapsed;
    SumOfConstant(ys, rate);
    var n := |ys| as real;
    assert Sum(ys) == n * rate;
    assert Mean(ys) == rate;
    assert Variance(ys) == 0.0;
  }

  /** The spread is judged before the level: a run that is both uneven and slow is reported uneven. */
  lemma UnevenReportedBeforeLow(datas: seq<int>, elapsed: real)
    requires |datas| >= 2 && elapsed != 0.0
    requires Variance(Normalise(datas, elapsed)) > MaxVariance
    ensures Judge(datas, elapsed).Uneven?
  {
  }
}
