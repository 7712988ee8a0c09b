/**
 * The activation strategies (ReLU, sigmoid, tanh) and the factory that picks one.
 * Each derivative takes the activation's OUTPUT, not its input.
 */
module ActivationFunctions {
  import opened Runtime

  /** Sign rules for a product of reals, which the solver's nonlinear arithmetic does not find alone. */
  lemma ProductSigns(a: real, b: real)
    ensures a > 0.0 && b > 0.0 ==> a * b > 0.0
    ensures a >= 0.0 && b >= 0.0 ==> a * b >= 0.0
    ensures a * b == 0.0 <==> a == 0.0 || b == 0.0
    ensures a == b ==> a * b >= 0.0
  {
    if a < 0.0 && a == b {
      assert a * b == (-a) * (-b);
    }
  }

  // ---- ReLUActivationFunction ----

  /** Math.Max(0, input). */
  function ReLUActivate(input: real): (r: real)
    ensures r >= 0.0 && r >= input
    ensures r == 0.0 || r == input
  {
    if input <= 0.0 then 0.0 else input
  }

  /** 1 for a positive output, else 0; an output of exactly 0 yields 0. */
  function ReLUDerivative(output: real): (d: real)
    ensures d == 0.0 || d == 1.0
    ensures d == 1.0 <==> output > 0.0
  {
    if output > 0.0 then 1.0 else 0.0
  }

  lemma ReLUActivateIdempotent(x: real)
    ensures ReLUActivate(ReLUActivate(x)) == ReLUActivate(x)
  {
  }

  /** Derivative from the output cannot tell an input of 0 from a negative one: both give 0. */
  lemma ReLUDerivativeOfActivation(x: real)
    ensures ReLUDerivative(ReLUActivate(x)) == 1.0 <==> x > 0.0
    ensures x <= 0.0 ==> ReLUDerivative(ReLUActivate(x)) == 0.0
    ensures ReLUDerivative(0.0) == 0.0
  {
  }

  // ---- SigmoidActivationFunction ----

  /** 1 / (1 + e^-input). */
  function SigmoidActivate(platform: Platform, input: real): (r: real)
    ensures 0.0 < r < 1.0
  {
    var e := platform.exp(-input);
    assert e > 0.0;
    1.0 / (1.0 + e)
  }

  lemma SigmoidActivateAtZero(platform: Platform)
    ensures SigmoidActivate(platform, 0.0) == 0.5
  {
    assert -0.0 == 0.0;
  }

  /** output * (1 - output). */
  function SigmoidDerivative(output: real): (d: real)
    ensures d <= 0.25 && (d == 0.25 <==> output == 0.5)
    ensures 0.0 <= output <= 1.0 ==> d >= 0.0
    ensures 0.0 < output < 1.0 ==> d > 0.0
  {
    assert output * (1.0 - output) == 0.25 - (output - 0.5) * (output - 0.5);
    ProductSigns(output, 1.0 - output);
    ProductSigns(output - 0.5, output - 0.5);
    output * (1.0 - output)
  }

  lemma SigmoidDerivativeSymmetric(y: real)
    ensures SigmoidDerivative(y) == SigmoidDerivative(1.0 - y)
    ensures SigmoidDerivative(0.5) == 0.25
    ensures SigmoidDerivative(0.0) == 0.0 && SigmoidDerivative(1.0) == 0.0
  {
  }

  /** Fed the sigmoid's own output, the derivative is positive and at most 1/4. */
  lemma SigmoidDerivativeOfActivation(platform: Platform, x: real)
    ensures 0.0 < SigmoidDerivative(SigmoidActivate(platform, x)) <= 0.25
  {
  }

  // ---- TanhActivationFunction ----

  /** Math.Tanh(input): within [-1, 1], and 0 at 0. */
  function TanhActivate(platform: Platform, input: real): (r: real)
    ensures -1.0 <= r <= 1.0
    ensures input == 0.0 ==> r == 0.0
  {
    platform.tanh(input)
  }

  /** 1 - output * output. */
  function TanhDerivative(output: real): (d: real)
    ensures d <= 1.0 && (d == 1.0 <==> output == 0.0)
    ensures -1.0 <= output <= 1.0 ==> d >= 0.0
    ensures d == 0.0 <==> output == 1.0 || output == -1.0
  {
    assert 1.0 - output * output == (1.0 - output) * (1.0 + output);
    ProductSigns(1.0 - output, 1.0 + output);
    ProductSigns(output, output);
    1.0 - output * output
  }

  lemma TanhDerivativeEven(y: real)
    ensures TanhDerivative(-y) == TanhDerivative(y)
  {
  }

  /** Fed tanh's own output, the derivative lies in [0, 1], and it is 1 at input 0. */
  lemma TanhDerivativeOfActivation(platform: Platform, x: real)
    ensures 0.0 <= TanhDerivative(TanhActivate(platform, x)) <= 1.0
    ensures x == 0.0 ==> TanhDerivative(TanhActivate(platform, x)) == 1.0
  {
  }

  // ---- the IActivationFunction strategy ----

  datatype ActivationFunction = ReLU | Sigmoid | Tanh {

    function Activate(platform: Platform, input: real): (r: real)
      ensures ReLU? ==> r >= 0.0 && r >= input
      ensures Sigmoid? ==> 0.0 < r < 1.0
      ensures Tanh? ==> -1.0 <= r <= 1.0
    {
      match this
      case ReLU => ReLUActivate(input)
      case Sigmoid => SigmoidActivate(platform, input)
      case Tanh => TanhActivate(platform, input)
    }

    function Derivative(output: real): (d: real)
      ensures ReLU? ==> d == 0.0 || d == 1.0
      ensures Sigmoid? || Tanh? ==> d <= 1.0
    {
      match this
      case ReLU => ReLUDerivative(output)
      case Sigmoid => SigmoidDerivative(output)
      case Tanh => TanhDerivative(output)
    }
  }

  /**
   * Backpropagation evaluates the derivative at the activation's own output; there every
   * activation's derivative lies in [0, 1].
   */
  lemma DerivativeOfActivationInUnit(f: ActivationFunction, platform: Platform, x: real)
    ensures 0.0 <= f.Derivative(f.Activate(platform, x)) <= 1.0
  {
    match f
    case ReLU =>
    case Sigmoid => SigmoidDerivativeOfActivation(platform, x);
    case Tanh => TanhDerivativeOfActivation(platform, x);
  }

  // ---- ActivationFunctionFactory ----

  /** The enumeration the factory switches on; `Unnamed` is any other value an enum variable can hold. */
  datatype ActivationFunctionType = ReLU | Sigmoid | Tanh | Unnamed(value: int)

  datatype ActivationFunctionFactory = ActivationFunctionFactory(defaultActivationFunctionType: ActivationFunctionType) {

    function GetActivationFunction(functionType: ActivationFunctionType): (f: ActivationFunction)
      ensures f == ActivationFunction.ReLU <==> functionType == ActivationFunctionType.ReLU
      ensures f == ActivationFunction.Tanh <==> functionType == ActivationFunctionType.Tanh
      ensures f == ActivationFunction.Sigmoid <==> functionType.Sigmoid? || functionType.Unnamed?
    {
      match functionType
      case ReLU => ActivationFunction.ReLU
      case Tanh => ActivationFunction.Tanh
      case Sigmoid => ActivationFunction.Sigmoid
      case Unnamed(_) => ActivationFunction.Sigmoid
    }

    function GetDefaultActivationFunction(): (f: ActivationFunction)
      ensures f == GetActivationFunction(defaultActivationFunctionType)
    {
      GetActivationFunction(defaultActivationFunctionType)
    }
  }
}
