/**
 * The weight-initialization strategies (uniform, He, Xavier) and the factory that picks one.
 * Every weight is an affine image of one `Random.NextDouble()` draw; only the uniform
 * strategy draws for the bias too.
 */
module WeightInitializers {
  import opened Wrappers
  import opened Runtime

  /** r * (max - min) + min: a draw carried into the half-open range [min, max). */
  function UniformValue(minValue: real, maxValue: real, r: Draw): (v: real)
    ensures minValue < maxValue ==> minValue <= v < maxValue
    ensures minValue == maxValue ==> v == minValue
    ensures maxValue < minValue ==> maxValue < v <= minValue
  {
    ScaledWidth(r, maxValue - minValue);
    Scaled(r, maxValue - minValue) + minValue
  }

  /** The part of a width that a draw selects. */
  function Scaled(r: Draw, width: real): real
  {
    r * width
  }

  /** (2r - 1) * scale: a draw carried into [-scale, scale). */
  function SymmetricValue(scale: real, r: Draw): (v: real)
    requires scale >= 0.0
    ensures -scale <= v <= scale
    ensures scale > 0.0 ==> v < scale
  {
    var f := 2.0 * r - 1.0;
    assert f * scale + scale == (2.0 * r) * scale by { assert f + 1.0 == 2.0 * r; }
    assert scale - f * scale == (2.0 - 2.0 * r) * scale;
    ScaledBelow(2.0 * r, scale);
    ScaledBelow(2.0 - 2.0 * r, scale);
    f * scale
  }

  /** A draw r in [0, 1) scales a width to a value between 0 (inclusive) and the width (exclusive). */
  lemma ScaledWidth(r: Draw, width: real)
    ensures width > 0.0 ==> 0.0 <= Scaled(r, width) < width
    ensures width < 0.0 ==> width < Scaled(r, width) <= 0.0
    ensures width == 0.0 ==> Scaled(r, width) == 0.0
  {
    if width > 0.0 {
      ScaledBelow(r, width);
      ScaledBelow(1.0 - r, width);
      assert (1.0 - r) * width == width - r * width;
    } else if width < 0.0 {
      ScaledBelow(r, -width);
      ScaledBelow(1.0 - r, -width);
      assert r * (-width) == -(r * width);
      assert (1.0 - r) * (-width) == r * width - width;
    }
  }

  lemma ScaledBelow(a: real, b: real)
    requires a >= 0.0 && b >= 0.0
    ensures a * b >= 0.0
    ensures a > 0.0 && b > 0.0 ==> a * b > 0.0
  {
  }

  // ---- UniformRandomInitializer ----

  const DefaultMinValue: real := -1.0
  const DefaultMaxValue: real := 1.0

  class UniformRandomInitializer {
    const minValue: real
    const maxValue: real
    const random: Random

    constructor (platform: Platform, minValue: real, maxValue: real, seed: Option<int>, entropy: nat -> Draw)
      ensures this.minValue == minValue && this.maxValue == maxValue
      ensures fresh(random) && random.position == 0
      ensures random.stream == if seed.Some? then platform.seeded(seed.value) else entropy
    {
      this.minValue := minValue;
      this.maxValue := maxValue;
      var generator := NewRandom(platform, seed, entropy);
      random := generator;
    }

    /** The constructor called with all its default arguments: range [-1, 1], no seed. */
    constructor Default(entropy: nat -> Draw)
      ensures minValue == -1.0 && maxValue == 1.0
      ensures fresh(random) && random.position == 0 && random.stream == entropy
    {
      minValue := DefaultMinValue;
      maxValue := DefaultMaxValue;
      random := new Random.Unseeded(entropy);
    }

    /** One draw mapped into [minValue, maxValue); the two sizes play no part. */
    method InitializeWeight(inputSize: int, outputSize: int) returns (w: real)
      modifies random
      ensures random.position == old(random.position) + 1
      ensures w == UniformValue(minValue, maxValue, random.stream(old(random.position)))
    {
      var r := random.NextDouble();
      w := r * (maxValue - minValue) + minValue;
    }

    method InitializeBias() returns (b: real)
      modifies random
      ensures random.position == old(random.position) + 1
      ensures b == UniformValue(minValue, maxValue, random.stream(old(random.position)))
    {
      var r := random.NextDouble();
      b := r * (maxValue - minValue) + minValue;
    }
  }

  /**
   * Two initializers built with the same seed (whatever the environment would have supplied
   * to an unseeded one) yield the same values, call for call. This follows from seeded
   * generators being modelled as the stream `platform.seeded(seed)`, a function of the seed
   * alone: the loop checks that the initializers read that stream in lockstep, one draw per
   * call, and map each draw into the range; it proves nothing about the generator itself.
   */
  method UniformSeedReplays(platform: Platform, minValue: real, maxValue: real, seed: int,
                            entropy1: nat -> Draw, entropy2: nat -> Draw, count: nat)
    returns (first: seq<real>, second: seq<real>)
    ensures |first| == count && first == second
    ensures minValue < maxValue ==> forall i :: 0 <= i < count ==> minValue <= first[i] < maxValue
  {
    var a := new UniformRandomInitializer(platform, minValue, maxValue, Some(seed), entropy1);
    var b := new UniformRandomInitializer(platform, minValue, maxValue, Some(seed), entropy2);
    first, second := [], [];
    while |first| < count
      invariant |first| <= count && first == second
      invariant a.random != b.random
      invariant a.random.stream == b.random.stream && a.random.position == b.random.position
      invariant minValue < maxValue ==> forall i :: 0 <= i < |first| ==> minValue <= first[i] < maxValue
    {
      var x := a.InitializeWeight(1, 1);
      var y := b.InitializeWeight(1, 1);
      first, second := first + [x], second + [y];
    }
  }

  // ---- HeInitializer ----

  /** sqrt(2 / fanIn). */
  function HeScale(platform: Platform, fanIn: int): (scale: real)
    requires fanIn > 0
    ensures scale >= 0.0
  {
    platform.sqrt(2.0 / fanIn as real)
  }

  class HeInitializer {
    const platform: Platform
    const random: Random

    constructor (platform: Platform, seed: Option<int>, entropy: nat -> Draw)
      ensures this.platform == platform
      ensures fresh(random) && random.position == 0
      ensures random.stream == if seed.Some? then platform.seeded(seed.value) else entropy
    {
      this.platform := platform;
      var generator := NewRandom(platform, seed, entropy);
      random := generator;
    }

    /** One draw mapped into [-sqrt(2/fanIn), sqrt(2/fanIn)); fanOut plays no part. */
    method InitializeWeight(fanIn: int, fanOut: int) returns (w: real)
      requires fanIn > 0
      modifies random
      ensures random.position == old(random.position) + 1
      ensures w == SymmetricValue(HeScale(platform, fanIn), random.stream(old(random.position)))
      ensures -HeScale(platform, fanIn) <= w <= HeScale(platform, fanIn)
    {
      var scale := platform.sqrt(2.0 / fanIn as real);
      var r := random.NextDouble();
      w := (2.0 * r - 1.0) * scale;
    }

    /** Always zero, and no draw is taken. */
    function InitializeBias(): (b: real)
      ensures b == 0.0
    {
      0.0
    }
  }

  /**
   * Two He initializers built with the same seed yield the same weights, call for call. As for
   * the uniform initializer, equal seeds give equal streams by the model of seeded generators;
   * what the loop checks is that both read their streams in lockstep and scale each draw alike.
   */
  method HeSeedReplays(platform: Platform, seed: int, fanIn: int,
                       entropy1: nat -> Draw, entropy2: nat -> Draw, count: nat)
    returns (first: seq<real>, second: seq<real>)
    requires fanIn > 0
    ensures |first| == count && first == second
    ensures forall i :: 0 <= i < count ==> -HeScale(platform, fanIn) <= first[i] <= HeScale(platform, fanIn)
  {
    var a := new HeInitializer(platform, Some(seed), entropy1);
    var b := new HeInitializer(platform, Some(seed), entropy2);
    first, second := [], [];
    while |first| < count
      invariant |first| <= count && first == second
      invariant a.random != b.random && a.platform == b.platform == platform
      invariant a.random.stream == b.random.stream && a.random.position == b.random.position
      invariant forall i :: 0 <= i < |first| ==> -HeScale(platform, fanIn) <= first[i] <= HeScale(platform, fanIn)
    {
      var x := a.InitializeWeight(fanIn, 1);
      var y := b.InitializeWeight(fanIn, 1);
      first, second := first + [x], second + [y];
    }
  }

  // ---- XavierInitializer ----

  /** sqrt(2 / (inputSize + outputSize)). */
  function XavierLimit(platform: Platform, inputSize: int, outputSize: int): (limit: real)
    requires inputSize + outputSize > 0
    ensures limit >= 0.0
  {
    platform.sqrt(2.0 / (inputSize + outputSize) as real)
  }

  lemma XavierLimitSymmetric(platform: Platform, inputSize: int, outputSize: int)
    requires inputSize + outputSize > 0
    ensures XavierLimit(platform, inputSize, outputSize) == XavierLimit(platform, outputSize, inputSize)
  {
  }

  class XavierInitializer {
    const platform: Platform
    const random: Random

    /** `random ?? new Random()`: a supplied generator is shared, not copied. */
    constructor (platform: Platform, random: Random?, entropy: nat -> Draw)
      ensures this.platform == platform
      ensures random != null ==> this.random == random
      ensures random == null ==> fresh(this.random) && this.random.position == 0 && this.random.stream == entropy
    {
      this.platform := platform;
      if random != null {
        this.random := random;
      } else {
        this.random := new Random.Unseeded(entropy);
      }
    }

    /** One draw mapped into [-limit, limit) with limit = sqrt(2 / (inputSize + outputSize)). */
    method InitializeWeight(inputSize: int, outputSize: int) returns (w: real)
      requires inputSize + outputSize > 0
      modifies random
      ensures random.position == old(random.position) + 1
      ensures w == SymmetricValue(XavierLimit(platform, inputSize, outputSize), random.stream(old(random.position)))
      ensures -XavierLimit(platform, inputSize, outputSize) <= w <= XavierLimit(platform, inputSize, outputSize)
    {
      var limit := platform.sqrt(2.0 / (inputSize + outputSize) as real);
      var r := random.NextDouble();
      w := (r * 2.0 - 1.0) * limit;
    }

    /** Always zero, and no draw is taken. */
    function InitializeBias(): (b: real)
      ensures b == 0.0
    {
      0.0
    }
  }

  // ---- the IWeightInitializer strategy ----

  datatype WeightInitializer =
    | Uniform(uniform: UniformRandomInitializer)
    | He(he: HeInitializer)
    | Xavier(xavier: XavierInitializer)
  {
    /** The generator this initializer draws from. */
    function Source(): Random {
      match this
      case Uniform(u) => u.random
      case He(h) => h.random
      case Xavier(x) => x.random
    }

    /** The fan sizes for which the initializer's formula is defined. */
    predicate Accepts(fanIn: int, fanOut: int) {
      && (He? ==> fanIn > 0)
      && (Xavier? ==> fanIn + fanOut > 0)
    }

    /** The weight made from the draw `r`. */
    function WeightFrom(fanIn: int, fanOut: int, r: Draw): real
      requires Accepts(fanIn, fanOut)
    {
      match this
      case Uniform(u) => UniformValue(u.minValue, u.maxValue, r)
      case He(h) => SymmetricValue(HeScale(h.platform, fanIn), r)
      case Xavier(x) => SymmetricValue(XavierLimit(x.platform, fanIn, fanOut), r)
    }

    /** The number of draws a bias takes: one for the uniform strategy, none for the others. */
    function BiasDraws(): nat {
      if Uniform? then 1 else 0
    }

    /** The bias made from the draw `r` (the constant 0 for He and Xavier). */
    function BiasFrom(r: Draw): real {
      match this
      case Uniform(u) => UniformValue(u.minValue, u.maxValue, r)
      case He(h) => h.InitializeBias()
      case Xavier(x) => x.InitializeBias()
    }

    method InitializeWeight(fanIn: int, fanOut: int) returns (w: real)
      requires Accepts(fanIn, fanOut)
      modifies Source()
      ensures Source().position == old(Source().position) + 1
      ensures w == WeightFrom(fanIn, fanOut, Source().stream(old(Source().position)))
    {
      match this
      case Uniform(u) => w := u.InitializeWeight(fanIn, fanOut);
      case He(h) => w := h.InitializeWeight(fanIn, fanOut);
      case Xavier(x) => w := x.InitializeWeight(fanIn, fanOut);
    }

    method InitializeBias() returns (b: real)
      modifies Source()
      ensures Source().position == old(Source().position) + BiasDraws()
      ensures b == BiasFrom(Source().stream(old(Source().position)))
    {
      match this
      case Uniform(u) => b := u.InitializeBias();
      case He(h) => b := h.InitializeBias();
      case Xavier(x) => b := x.InitializeBias();
    }
  }

  // ---- WeightInitializerFactory ----

  /** The enumeration the factory switches on; `Unnamed` is any other value an enum variable can hold. */
  datatype WeightInitializerType = He | Uniform | Unnamed(value: int)

  /** What the factory builds for `t`: an unseeded He initializer, or an unseeded uniform one over [-1, 1]. */
  ghost predicate BuiltFor(w: WeightInitializer, t: WeightInitializerType, platform: Platform, entropy: nat -> Draw)
    reads w.Source()
  {
    && (w.He? <==> t == WeightInitializerType.He)
    && !w.Xavier?
    && (w.He? ==> w.he.platform == platform)
    && (w.Uniform? ==> w.uniform.minValue == -1.0 && w.uniform.maxValue == 1.0)
    && w.Source().stream == entropy && w.Source().position == 0
  }

  datatype WeightInitializerFactory = WeightInitializerFactory(defaultWeightInitializerType: WeightInitializerType) {

    method GetWeightInitializer(t: WeightInitializerType, platform: Platform, entropy: nat -> Draw)
      returns (w: WeightInitializer)
      ensures fresh(w.Source()) && BuiltFor(w, t, platform, entropy)
    {
      if t == WeightInitializerType.He {
        var h := new HeInitializer(platform, None, entropy);
        w := WeightInitializer.He(h);
      } else {
        // WeightInitializerType.Uniform and every unlisted value
        var u := new UniformRandomInitializer.Default(entropy);
        w := WeightInitializer.Uniform(u);
      }
    }

    method GetDefaultWeightInitializer(platform: Platform, entropy: nat -> Draw) returns (w: WeightInitializer)
      ensures fresh(w.Source()) && BuiltFor(w, defaultWeightInitializerType, platform, entropy)
    {
      w := GetWeightInitializer(defaultWeightInitializerType, platform, entropy);
    }
  }
}
