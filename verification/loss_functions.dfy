/** The squared-error loss: its mean over the outputs, and its per-output gradient. */
module LossFunctions {
  import opened Wrappers
  import opened Runtime

  const LengthMismatchMessage: string := "Predicted and actual must have the same number of elements."

  /** Σ (actual[i] - predicted[i])², accumulated from the front as the loop does. */
  function SumSquaredError(predicted: seq<real>, actual: seq<real>): real
    requires |predicted| == |actual|
    decreases |predicted|
  {
    if |predicted| == 0 then 0.0
    else
      var n := |predicted| - 1;
      SumSquaredError(predicted[..n], actual[..n]) + Square(actual[n] - predicted[n])
  }

  function Square(x: real): real { x * x }

  /** A square is never negative, and it is positive for every non-zero number. */
  lemma SquarePositive(x: real)
    ensures Square(x) >= 0.0
    ensures x != 0.0 ==> Square(x) > 0.0
  {
    if x != 0.0 {
      assert Square(x) * Square(1.0 / x) == 1.0;
    }
  }

  /** The mean squared error; defined for non-empty vectors (for empty ones the double division is 0/0). */
  function MeanSquaredError(predicted: seq<real>, actual: seq<real>): real
    requires |predicted| == |actual| > 0
  {
    SumSquaredError(predicted, actual) / |predicted| as real
  }

  /** (actual[i] - predicted[i]) / n for every i: the code's sign, which is minus the true gradient of the mean. */
  function ErrorGradient(predicted: seq<real>, actual: seq<real>): (g: seq<real>)
    requires |predicted| == |actual|
    ensures |g| == |predicted|
  {
    seq(|predicted|, i requires 0 <= i < |predicted| => (actual[i] - predicted[i]) / |predicted| as real)
  }

  lemma {:induction false} SumSquaredErrorNonNegative(predicted: seq<real>, actual: seq<real>)
    requires |predicted| == |actual|
    ensures SumSquaredError(predicted, actual) >= 0.0
    ensures SumSquaredError(predicted, actual) == 0.0 <==> predicted == actual
    decreases |predicted|
  {
    if |predicted| > 0 {
      var n := |predicted| - 1;
      SumSquaredErrorNonNegative(predicted[..n], actual[..n]);
      SquarePositive(actual[n] - predicted[n]);
      assert predicted == predicted[..n] + [predicted[n]];
      assert actual == actual[..n] + [actual[n]];
    }
  }

  /** The loss is never negative, and it is zero exactly when the prediction equals the target. */
  lemma MeanSquaredErrorZeroIff(predicted: seq<real>, actual: seq<real>)
    requires |predicted| == |actual| > 0
    ensures MeanSquaredError(predicted, actual) >= 0.0
    ensures MeanSquaredError(predicted, actual) == 0.0 <==> predicted == actual
  {
    SumSquaredErrorNonNegative(predicted, actual);
  }

  lemma {:induction false} SumSquaredErrorSymmetric(predicted: seq<real>, actual: seq<real>)
    requires |predicted| == |actual|
    ensures SumSquaredError(predicted, actual) == SumSquaredError(actual, predicted)
    decreases |predicted|
  {
    if |predicted| > 0 {
      var n := |predicted| - 1;
      SumSquaredErrorSymmetric(predicted[..n], actual[..n]);
      assert Square(actual[n] - predicted[n]) == Square(predicted[n] - actual[n]);
    }
  }

  /** Swapping prediction and target leaves the loss unchanged. */
  lemma MeanSquaredErrorSymmetric(predicted: seq<real>, actual: seq<real>)
    requires |predicted| == |actual| > 0
    ensures MeanSquaredError(predicted, actual) == MeanSquaredError(actual, predicted)
  {
    SumSquaredErrorSymmetric(predicted, actual);
  }

  /** Every gradient element is zero exactly when the prediction equals the target. */
  lemma ErrorGradientZeroIff(predicted: seq<real>, actual: seq<real>)
    requires |predicted| == |actual|
    ensures (forall i :: 0 <= i < |predicted| ==> ErrorGradient(predicted, actual)[i] == 0.0) <==> predicted == actual
  {
    var g := ErrorGradient(predicted, actual);
    if forall i :: 0 <= i < |predicted| ==> g[i] == 0.0 {
      forall i | 0 <= i < |predicted| ensures predicted[i] == actual[i] {
        assert g[i] == (actual[i] - predicted[i]) / |predicted| as real;
      }
    }
  }

  /** SquaredErrorLossFunction: stateless, so a value with two methods. */
  datatype SquaredErrorLossFunction = SquaredErrorLossFunction {

    /**
     * The mean squared error, or the exception the code throws. For two empty vectors the
     * division is 0/0, which is NaN in double arithmetic.
     */
    method Calculate(predicted: Option<seq<real>>, actual: Option<seq<real>>) returns (r: Result<Double, Error>)
      ensures predicted.None? ==> r == Failure(ArgumentNull("predicted"))
      ensures predicted.Some? && actual.None? ==> r == Failure(ArgumentNull("actual"))
      ensures predicted.Some? && actual.Some? && |predicted.value| != |actual.value| ==>
                r == Failure(Argument(LengthMismatchMessage))
      ensures predicted.Some? && actual.Some? && |predicted.value| == |actual.value| > 0 ==>
                r == Success(Finite(MeanSquaredError(predicted.value, actual.value)))
      ensures predicted.Some? && actual.Some? && |predicted.value| == |actual.value| == 0 ==> r == Success(NaN)
    {
      if predicted.None? { return Failure(ArgumentNull("predicted")); }
      if actual.None? { return Failure(ArgumentNull("actual")); }
      var p, a := predicted.value, actual.value;
      if |p| != |a| { return Failure(Argument(LengthMismatchMessage)); }

      var totalError := 0.0;
      for i := 0 to |p|
        invariant totalError == SumSquaredError(p[..i], a[..i])
      {
        var error := a[i] - p[i];
        totalError := totalError + error * error;
        assert p[..i + 1][..i] == p[..i] && a[..i + 1][..i] == a[..i];
      }
      assert p[..|p|] == p && a[..|a|] == a;
      return Success(DivideByCount(totalError, |p|));
    }

    /** The per-output error gradient, or the exception the code throws. */
    method Derivative(predicted: Option<seq<real>>, actual: Option<seq<real>>) returns (r: Result<seq<real>, Error>)
      ensures predicted.None? ==> r == Failure(ArgumentNull("predicted"))
      ensures predicted.Some? && actual.None? ==> r == Failure(ArgumentNull("actual"))
      ensures predicted.Some? && actual.Some? && |predicted.value| != |actual.value| ==>
                r == Failure(Argument(LengthMismatchMessage))
      ensures predicted.Some? && actual.Some? && |predicted.value| == |actual.value| ==>
                r.Success? && |r.value| == |predicted.value| &&
                (forall i :: 0 <= i < |r.value| ==>
                   r.value[i] == (actual.value[i] - predicted.value[i]) / |predicted.value| as real) &&
                r.value == ErrorGradient(predicted.value, actual.value)
    {
      if predicted.None? { return Failure(ArgumentNull("predicted")); }
      if actual.None? { return Failure(ArgumentNull("actual")); }
      var p, a := predicted.value, actual.value;
      if |p| != |a| { return Failure(Argument(LengthMismatchMessage)); }

      var derivatives := new real[|p|];
      for i := 0 to |p|
        invariant forall k :: 0 <= k < i ==> derivatives[k] == (a[k] - p[k]) / |p| as real
      {
        derivatives[i] := (a[i] - p[i]) / |p| as real;
      }
      return Success(derivatives[..]);
    }
  }

  /**
   * Any loss function a trainer can be given: the loss of a prediction against its target,
   * and the per-output error gradients; either may raise an exception.
   */
  datatype LossFunction = LossFunction(
    calculate: (seq<real>, seq<real>) -> Result<real, Error>,
    derivative: (seq<real>, seq<real>) -> Result<seq<real>, Error>)

  /**
   * The trainer-facing value of the same squared-error loss that `SquaredErrorLossFunction`
   * computes above, on a prediction and a target that are present: both are built on
   * `MeanSquaredError` and `ErrorGradient` and agree wherever the vectors are non-empty. Two
   * empty vectors, whose loss is NaN in `Calculate`, get 0 here.
   */
  function SquaredErrorLoss(): LossFunction
  {
    LossFunction(
      (predicted: seq<real>, actual: seq<real>) =>
        if |predicted| != |actual| then Failure(Argument(LengthMismatchMessage))
        else if |predicted| == 0 then Success(0.0)
        else Success(MeanSquaredError(predicted, actual)),
      (predicted: seq<real>, actual: seq<real>) =>
        if |predicted| != |actual| then Failure(Argument(LengthMismatchMessage))
        else Success(ErrorGradient(predicted, actual)))
  }

  /**
   * The squared-error loss value raises the code's length-mismatch exception from both
   * functions; otherwise its loss is the mean squared error, never negative and zero exactly
   * at the target, and its gradient is (actual[i] - predicted[i]) / n.
   */
  lemma SquaredErrorLossValues(predicted: seq<real>, actual: seq<real>)
    ensures |predicted| != |actual| ==>
              && SquaredErrorLoss().calculate(predicted, actual) == Failure(Argument(LengthMismatchMessage))
              && SquaredErrorLoss().derivative(predicted, actual) == Failure(Argument(LengthMismatchMessage))
    ensures |predicted| == |actual| > 0 ==>
              && SquaredErrorLoss().calculate(predicted, actual) == Success(MeanSquaredError(predicted, actual))
              && SquaredErrorLoss().calculate(predicted, actual).value >= 0.0
              && (SquaredErrorLoss().calculate(predicted, actual).value == 0.0 <==> predicted == actual)
    ensures |predicted| == |actual| ==>
              && SquaredErrorLoss().derivative(predicted, actual).Success?
              && |SquaredErrorLoss().derivative(predicted, actual).value| == |predicted|
              && (forall i :: 0 <= i < |predicted| ==>
                    SquaredErrorLoss().derivative(predicted, actual).value[i] == (actual[i] - predicted[i]) / |predicted| as real)
  {
    if |predicted| == |actual| > 0 {
      MeanSquaredErrorZeroIff(predicted, actual);
    }
  }
}
