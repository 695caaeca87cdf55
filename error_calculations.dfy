/**
 * Loss functions comparing a target vector with a network output
 * (NNX.Core/ErrorCalculations.cs). Doubles are modelled as reals; the
 * natural logarithm is a parameter `ln`, so only the structure of the
 * cross-entropy sum and its guard are checked.
 */
module ErrorCalculations {

  /** What a metric call produces: a number, the IEEE NaN that 0.0 / 0 yields,
      or the exception raised when the two vectors differ in length. */
  datatype Metric = Value(value: real) | NaN | LengthMismatch(outputLength: nat, targetLength: nat)

  // ---------------------------------------------------------------- mean square

  /** Sum of (target[i] - output[i])^2 over the first n positions, added left to right. */
  function SquaredDiffSum(target: seq<real>, output: seq<real>, n: nat): real
    requires n <= |target| && n <= |output|
  {
    if n == 0 then 0.0
    else SquaredDiffSum(target, output, n - 1) + (target[n - 1] - output[n - 1]) * (target[n - 1] - output[n - 1])
  }

  /** The value MeanSquareError computes: the mean of the squared differences. */
  function MeanSquare(target: seq<real>, output: seq<real>): Metric
  {
    if |output| != |target| then LengthMismatch(|output|, |target|)
    else if |output| == 0 then NaN
    else Value(SquaredDiffSum(target, output, |output|) / |output| as real)
  }

  method MeanSquareError(target: seq<real>, output: seq<real>) returns (r: Metric)
    ensures r == MeanSquare(target, output)
    ensures r.LengthMismatch? <==> |output| != |target|
  {
    if |output| != |target| {
      return LengthMismatch(|output|, |target|);
    }
    var error := 0.0;
    for i := 0 to |output|
      invariant error == SquaredDiffSum(target, output, i)
    {
      error := error + (target[i] - output[i]) * (target[i] - output[i]);
    }
    if |output| == 0 {
      // 0.0 / 0 is NaN in double arithmetic
      return NaN;
    }
    r := Value(error / |output| as real);
  }

  lemma {:induction false} SquaredDiffSumSymmetric(t: seq<real>, o: seq<real>, n: nat)
    requires n <= |t| && n <= |o|
    ensures SquaredDiffSum(t, o, n) == SquaredDiffSum(o, t, n)
  {
    if n > 0 {
      SquaredDiffSumSymmetric(t, o, n - 1);
      var d := t[n - 1] - o[n - 1];
      assert (o[n - 1] - t[n - 1]) * (o[n - 1] - t[n - 1]) == (-d) * (-d) == d * d;
    }
  }

  lemma {:induction false} SquaredDiffSumNonNegative(t: seq<real>, o: seq<real>, n: nat)
    requires n <= |t| && n <= |o|
    ensures SquaredDiffSum(t, o, n) >= 0.0
  {
    if n > 0 {
      SquaredDiffSumNonNegative(t, o, n - 1);
      var d := t[n - 1] - o[n - 1];
      assert d * d >= 0.0;
    }
  }

  lemma {:induction false} SquaredDiffSumSelf(v: seq<real>, n: nat)
    requires n <= |v|
    ensures SquaredDiffSum(v, v, n) == 0.0
  {
    if n > 0 {
      SquaredDiffSumSelf(v, n - 1);
    }
  }

  /** Swapping target and output does not change the mean square error. */
  lemma MeanSquareSymmetric(t: seq<real>, o: seq<real>)
    requires |t| == |o|
    ensures MeanSquare(t, o) == MeanSquare(o, t)
  {
    SquaredDiffSumSymmetric(t, o, |t|);
  }

  /** The mean square error of equal-length vectors is never negative. */
  lemma MeanSquareNonNegative(t: seq<real>, o: seq<real>)
    requires |t| == |o| && |t| > 0
    ensures MeanSquare(t, o).Value? && MeanSquare(t, o).value >= 0.0
  {
    SquaredDiffSumNonNegative(t, o, |t|);
  }

  /** A vector compared with itself has mean square error zero (NaN when empty). */
  lemma MeanSquareSelfIsZero(v: seq<real>)
    ensures MeanSquare(v, v) == if |v| == 0 then NaN else Value(0.0)
  {
    SquaredDiffSumSelf(v, |v|);
  }

  // ---------------------------------------------------------------- cross-entropy

  /** The accumulator `error` after n rounds of `error -= target[i] * ln(output[i])`. */
  function CrossEntropyAcc(target: seq<real>, output: seq<real>, ln: real -> real, n: nat): real
    requires n <= |target| && n <= |output|
  {
    if n == 0 then 0.0
    else CrossEntropyAcc(target, output, ln, n - 1) - target[n - 1] * ln(output[n - 1])
  }

  /** The value CrossEntropyError computes. There is no guard on output[i] <= 0:
      whatever `ln` gives there is used. */
  function CrossEntropy(target: seq<real>, output: seq<real>, ln: real -> real): Metric
  {
    if |output| != |target| then LengthMismatch(|output|, |target|)
    else Value(CrossEntropyAcc(target, output, ln, |output|))
  }

  method CrossEntropyError(target: seq<real>, output: seq<real>, ln: real -> real) returns (r: Metric)
    ensures r == CrossEntropy(target, output, ln)
    ensures r.LengthMismatch? <==> |output| != |target|
  {
    if |output| != |target| {
      return LengthMismatch(|output|, |target|);
    }
    var error := 0.0;
    for i := 0 to |output|
      invariant error == CrossEntropyAcc(target, output, ln, i)
    {
      error := error - target[i] * ln(output[i]);
    }
    r := Value(error);
  }

  /** Reference definition: the textbook sum  target[0]·ln(output[0]) + target[1]·ln(output[1]) + ... */
  function WeightedLogSum(target: seq<real>, output: seq<real>, ln: real -> real): real
    requires |target| == |output|
  {
    if |target| == 0 then 0.0
    else target[0] * ln(output[0]) + WeightedLogSum(target[1..], output[1..], ln)
  }

  lemma {:induction false} WeightedLogSumSnoc(t: seq<real>, o: seq<real>, ln: real -> real)
    requires |t| == |o| && |t| > 0
    ensures WeightedLogSum(t, o, ln)
         == WeightedLogSum(t[..|t| - 1], o[..|o| - 1], ln) + t[|t| - 1] * ln(o[|o| - 1])
  {
    if |t| > 1 {
      WeightedLogSumSnoc(t[1..], o[1..], ln);
      assert t[1..][..|t| - 2] == t[..|t| - 1][1..];
      assert o[1..][..|o| - 2] == o[..|o| - 1][1..];
    }
  }

  lemma {:induction false} CrossEntropyAccIsNegatedSum(t: seq<real>, o: seq<real>, ln: real -> real, n: nat)
    requires n <= |t| && n <= |o|
    ensures CrossEntropyAcc(t, o, ln, n) == -WeightedLogSum(t[..n], o[..n], ln)
  {
    if n > 0 {
      CrossEntropyAccIsNegatedSum(t, o, ln, n - 1);
      WeightedLogSumSnoc(t[..n], o[..n], ln);
      assert t[..n][..n - 1] == t[..n - 1];
      assert o[..n][..n - 1] == o[..n - 1];
    }
  }

  /** The left-to-right accumulation equals minus the textbook weighted-log sum. */
  lemma CrossEntropyIsNegatedSum(t: seq<real>, o: seq<real>, ln: real -> real)
    requires |t| == |o|
    ensures CrossEntropy(t, o, ln) == Value(-WeightedLogSum(t, o, ln))
  {
    CrossEntropyAccIsNegatedSum(t, o, ln, |t|);
    assert t[..|t|] == t && o[..|o|] == o;
  }

  lemma {:induction false} CrossEntropyAccNonNegative(t: seq<real>, o: seq<real>, ln: real -> real, n: nat)
    requires n <= |t| && n <= |o|
    requires forall i :: 0 <= i < n ==> t[i] >= 0.0 && ln(o[i]) <= 0.0
    ensures CrossEntropyAcc(t, o, ln, n) >= 0.0
  {
    if n > 0 {
      CrossEntropyAccNonNegative(t, o, ln, n - 1);
      var a, b := t[n - 1], ln(o[n - 1]);
      assert a * b <= 0.0 by {
        assert a * (-b) >= 0.0;
      }
    }
  }

  /** For a logarithm that is non-positive on (0, 1], a probability vector compared
      with itself has non-negative cross-entropy. */
  lemma CrossEntropySelfNonNegative(v: seq<real>, ln: real -> real)
    requires forall x :: 0.0 < x <= 1.0 ==> ln(x) <= 0.0
    requires forall i :: 0 <= i < |v| ==> 0.0 < v[i] <= 1.0
    ensures CrossEntropy(v, v, ln).Value? && CrossEntropy(v, v, ln).value >= 0.0
  {
    CrossEntropyAccNonNegative(v, v, ln, |v|);
  }
}
