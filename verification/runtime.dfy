/**
 * The parts of the .NET runtime that the trainer relies on: doubles (idealised as reals),
 * the exceptions it throws, the math library and System.Random.
 */
module Runtime {
  import opened Wrappers

  /** A double as the learning-rate checks see it: a finite value, or one of the non-finite ones. */
  datatype Double = Finite(value: real) | NaN | PositiveInfinity | NegativeInfinity {
    predicate IsNaN() { NaN? }
    predicate IsInfinity() { PositiveInfinity? || NegativeInfinity? }
  }

  /** The exceptions of the modelled code. */
  datatype Error =
    | ArgumentNull(paramName: string)
    | Argument(message: string)
    | ArgumentOutOfRange(paramName: string, message: string)
    | NullReference

  /** `total / count` in double arithmetic, where dividing by a zero count gives NaN or an infinity. */
  function DivideByCount(total: real, count: nat): (q: Double)
    ensures count > 0 ==> q == Finite(total / count as real)
    ensures count == 0 ==> (q.IsNaN() <==> total == 0.0) && !q.Finite?
  {
    if count > 0 then Finite(total / count as real)
    else if total == 0.0 then NaN
    else if total > 0.0 then PositiveInfinity
    else NegativeInfinity
  }

  /** One value of `Random.NextDouble()`. */
  type Draw = r: real | 0.0 <= r < 1.0

  /** One value of `Math.Tanh`, which lies in [-1, 1]. */
  type TanhValue = r: real | -1.0 <= r <= 1.0

  /**
   * Math.Exp, Math.Tanh, Math.Sqrt and the value stream of `new Random(seed)`, which the model
   * does not define; `Platform` below keeps only the facts the properties rest on.
   */
  datatype MathLibrary = MathLibrary(
    exp: real -> real,
    tanh: real -> TanhValue,
    sqrt: real -> real,
    seeded: int -> nat -> Draw)

  ghost predicate PlatformAxioms(m: MathLibrary) {
    && m.exp(0.0) == 1.0
    && (forall x :: m.exp(x) > 0.0)
    && m.tanh(0.0) == 0.0
    && (forall x :: m.sqrt(x) >= 0.0)
  }

  type Platform = m: MathLibrary | PlatformAxioms(m)
    witness MathLibrary(x => 1.0, x => 0.0, x => 0.0, seed => n => 0.0)

  /**
   * System.Random: a stream of draws fixed when it is created, and the number of draws taken so far.
   * A seeded generator's stream is a function of the seed alone; an unseeded one reads
   * its stream from the environment, here the `entropy` parameter.
   */
  class Random {
    const stream: nat -> Draw
    var position: nat

    constructor Seeded(platform: Platform, seed: int)
      ensures stream == platform.seeded(seed) && position == 0
    {
      stream := platform.seeded(seed);
      position := 0;
    }

    constructor Unseeded(entropy: nat -> Draw)
      ensures stream == entropy && position == 0
    {
      stream := entropy;
      position := 0;
    }

    method NextDouble() returns (r: Draw)
      modifies this
      ensures r == stream(old(position)) && position == old(position) + 1
    {
      r := stream(position);
      position := position + 1;
    }
  }

  /** The generator built by `seed.HasValue ? new Random(seed.Value) : new Random()`. */
  method NewRandom(platform: Platform, seed: Option<int>, entropy: nat -> Draw) returns (random: Random)
    ensures fresh(random) && random.position == 0
    ensures random.stream == if seed.Some? then platform.seeded(seed.value) else entropy
  {
    if seed.Some? {
      random := new Random.Seeded(platform, seed.value);
    } else {
      random := new Random.Unseeded(entropy);
    }
  }
}
