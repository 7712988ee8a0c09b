/** The learning-rate check shared by the three trainers' constructors. */
module LearningRates {
  import opened Wrappers
  import opened Runtime

  const NotFiniteMessage: string := "Learning rate must be a finite number."
  const NotPositiveMessage: string := "Learning rate must be positive."
  const TooLargeMessage: string := "Learning rate should not exceed 1 for stable training."

  /** The default learning rate of the scalar network's constructor. */
  const DefaultLearningRate: real := 0.1

  /**
   * Accepts a learning rate exactly when it is finite and in (0, 1], and otherwise names the
   * first check it fails: finiteness, then positivity, then the upper bound.
   */
  function ValidateLearningRate(learningRate: Double): (r: Result<real, Error>)
    ensures r.Success? <==> learningRate.Finite? && 0.0 < learningRate.value <= 1.0
    ensures r.Success? ==> r.value == learningRate.value
    ensures r.Failure? ==> r.error.ArgumentOutOfRange? && r.error.paramName == "learningRate"
    ensures (learningRate.IsNaN() || learningRate.IsInfinity()) ==>
              r == Failure(ArgumentOutOfRange("learningRate", NotFiniteMessage))
    ensures learningRate.Finite? && learningRate.value <= 0.0 ==>
              r == Failure(ArgumentOutOfRange("learningRate", NotPositiveMessage))
    ensures learningRate.Finite? && learningRate.value > 1.0 ==>
              r == Failure(ArgumentOutOfRange("learningRate", TooLargeMessage))
  {
    if learningRate.IsNaN() || learningRate.IsInfinity() then
      Failure(ArgumentOutOfRange("learningRate", NotFiniteMessage))
    else if learningRate.value <= 0.0 then
      Failure(ArgumentOutOfRange("learningRate", NotPositiveMessage))
    else if learningRate.value > 1.0 then
      Failure(ArgumentOutOfRange("learningRate", TooLargeMessage))
    else
      Success(learningRate.value)
  }
}
