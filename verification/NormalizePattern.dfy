/** The eleven operations of the matched pattern, evaluated on tensors, compute the
    normalisation operation. */
module NormalizePattern {
  import opened TensorLayout
  import opened Broadcast
  import opened Normalize
  import NormalizeAxes

  /** The element-wise functions the driver supplies. */
  datatype Kernels = Kernels(
    plus: (real, real) -> real, minus: (real, real) -> real, times: (real, real) -> real,
    power: (real, real) -> real, rsqrt: real -> real)

  ghost predicate Commutes(f: (real, real) -> real) {
    forall a, b: real :: f(a, b) == f(b, a)
  }

  /** They compute over real numbers; nothing is asked of the reciprocal square root. */
  ghost predicate Exact(k: Kernels) {
    && (forall a, b: real :: k.plus(a, b) == a + b)
    && (forall a, b: real :: k.minus(a, b) == a - b)
    && (forall a, b: real :: k.times(a, b) == a * b)
    && (forall a: real :: k.power(a, 2.0) == Square(a))
  }

  /** The tensors of one evaluation of the pattern, by the place that computes them. */
  datatype Values = Values(
    x: Data, exponent: Data, eps: Data, gamma: Data, beta: Data,
    mean0: Data, sub0: Data, pow: Data, mean1: Data, add0: Data, rsqrt: Data,
    mul0: Data, mul1: Data, mul2: Data, sub1: Data, add1: Data)

  /** z is f of a and b, in either order. */
  ghost predicate Either(f: (real, real) -> real, a: Data, b: Data, z: Data) {
    z == Binary(f, a, b) || z == Binary(f, b, a)
  }

  /** Mean0, Sub0, Pow, Mean1. */
  ghost predicate SpreadEquations(k: Kernels, axes: set<nat>, v: Values) {
    && v.mean0 == Average(v.x, Reduced(v.x.shape, axes))
    && Either(k.minus, v.x, v.mean0, v.sub0)
    && v.pow == Binary(k.power, v.sub0, v.exponent)
    && v.mean1 == Average(v.pow, Reduced(v.pow.shape, axes))
  }

  /** Add0, Rsqrt, Mul0, Mul1, Mul2, Sub1, Add1. */
  ghost predicate ScaleEquations(k: Kernels, v: Values) {
    && Either(k.plus, v.mean1, v.eps, v.add0)
    && v.rsqrt == Unary(k.rsqrt, v.add0)
    && v.mul0 == Binary(k.times, v.rsqrt, v.gamma)
    && Either(k.times, v.x, v.mul0, v.mul1)
    && Either(k.times, v.mean0, v.mul0, v.mul2)
    && v.sub1 == Binary(k.minus, v.beta, v.mul2)
    && Either(k.plus, v.mul1, v.sub1, v.add1)
  }

  /** x can be stretched to full and holds one value throughout. */
  predicate Uniform(x: Data, full: Shape, value: real) {
    Stretches(x.shape, full) && forall o | 0 <= o < |x.flat| :: x.flat[o] == value
  }

  /** The exponent is two, epsilon a single value, gamma and beta fit the input. */
  ghost predicate Sides(axes: set<nat>, v: Values, eps: real) {
    && Uniform(v.exponent, v.x.shape, 2.0)
    && Uniform(v.eps, Reduced(v.x.shape, axes), eps)
    && Stretches(v.gamma.shape, v.x.shape) && Stretches(v.beta.shape, v.x.shape)
  }

  /** z can be stretched to full and reads as value at idx. */
  ghost predicate Reads(z: Data, full: Shape, idx: seq<nat>, value: real) {
    Stretches(z.shape, full) && ValidIndex(idx, full) && Read(z, idx, full) == value
  }

  lemma UniformReads(x: Data, full: Shape, value: real, idx: seq<nat>)
    requires Uniform(x, full, value) && ValidIndex(idx, full)
    ensures Reads(x, full, idx, value)
  {
    IndexOfOffset(Clip(idx, x.shape), x.shape);
  }

  lemma BinaryReads(f: (real, real) -> real, x: Data, y: Data, full: Shape, idx: seq<nat>, a: real, b: real)
    requires Reads(x, full, idx, a) && Reads(y, full, idx, b)
    ensures Reads(Binary(f, x, y), full, idx, f(a, b))
  {
    ReadBinary(f, x, y, full, idx);
  }

  lemma EitherReads(f: (real, real) -> real, x: Data, y: Data, z: Data, full: Shape, idx: seq<nat>, a: real, b: real)
    requires Either(f, x, y, z) && Reads(x, full, idx, a) && Reads(y, full, idx, b)
    ensures Reads(z, full, idx, f(a, b)) || Reads(z, full, idx, f(b, a))
  {
    if z == Binary(f, x, y) { BinaryReads(f, x, y, full, idx, a, b); } else { BinaryReads(f, y, x, full, idx, b, a); }
  }

  lemma CommutingReads(f: (real, real) -> real, x: Data, y: Data, z: Data, full: Shape, idx: seq<nat>, a: real, b: real)
    requires Commutes(f) && Either(f, x, y, z) && Reads(x, full, idx, a) && Reads(y, full, idx, b)
    ensures Reads(z, full, idx, f(a, b))
  {
    EitherReads(f, x, y, z, full, idx, a, b);
  }

  lemma UnaryReads(f: real -> real, x: Data, full: Shape, idx: seq<nat>, a: real)
    requires Reads(x, full, idx, a)
    ensures Reads(Unary(f, x), full, idx, f(a))
  {
    ReadUnary(f, x, full, idx);
  }

  lemma AverageReads(x: Data, red: Shape, idx: seq<nat>)
    requires Reduces(red, x.shape) && ValidIndex(idx, x.shape)
    ensures Reads(Average(x, red), x.shape, idx, Mean(x, red, idx))
  {
    ReadAverage(x, red, idx);
  }

  lemma SelfReads(x: Data, idx: seq<nat>)
    requires ValidIndex(idx, x.shape)
    ensures Reads(x, x.shape, idx, At(x, idx))
  {
    ReadSelf(x, idx);
  }

  lemma EitherShape(f: (real, real) -> real, a: Data, b: Data, z: Data)
    requires Either(f, a, b, z) && Stretches(b.shape, a.shape)
    ensures z.shape == a.shape
  {
  }

  /** Squared deviations have the shape of the input. */
  lemma SpreadShapes(k: Kernels, axes: set<nat>, v: Values, eps: real)
    requires SpreadEquations(k, axes, v) && Sides(axes, v, eps)
    ensures v.sub0.shape == v.x.shape && v.pow.shape == v.x.shape
    ensures v.mean0.shape == Reduced(v.x.shape, axes) && v.mean1.shape == Reduced(v.x.shape, axes)
  {
    EitherShape(k.minus, v.x, v.mean0, v.sub0);
  }

  /** Squaring a deviation taken in either direction. */
  lemma PowerReads(k: Kernels, x: Data, mean0: Data, sub0: Data, exponent: Data, full: Shape, idx: seq<nat>, a: real, mu: real)
    requires Uniform(exponent, full, 2.0) && Either(k.minus, x, mean0, sub0)
    requires Reads(x, full, idx, a) && Reads(mean0, full, idx, mu)
    ensures Reads(Binary(k.power, sub0, exponent), full, idx, k.power(k.minus(a, mu), 2.0))
            || Reads(Binary(k.power, sub0, exponent), full, idx, k.power(k.minus(mu, a), 2.0))
  {
    UniformReads(exponent, full, 2.0, idx);
    EitherReads(k.minus, x, mean0, sub0, full, idx, a, mu);
    BinaryReads(k.power, sub0, exponent, full, idx, Read(sub0, idx, full), 2.0);
  }

  lemma SquareEitherWay(k: Kernels, a: real, mu: real)
    requires Exact(k)
    ensures k.power(k.minus(a, mu), 2.0) == Square(a - mu)
    ensures k.power(k.minus(mu, a), 2.0) == Square(a - mu)
  {
  }

  lemma DeviationAt(k: Kernels, axes: set<nat>, v: Values, eps: real, idx: seq<nat>)
    requires Exact(k) && SpreadEquations(k, axes, v) && Sides(axes, v, eps) && ValidIndex(idx, v.x.shape)
    ensures v.pow.shape == v.x.shape
    ensures At(v.pow, idx) == Square(At(v.x, idx) - Mean(v.x, Reduced(v.x.shape, axes), idx))
  {
    var s, red := v.x.shape, Reduced(v.x.shape, axes);
    SpreadShapes(k, axes, v, eps);
    AverageReads(v.x, red, idx);
    SelfReads(v.x, idx);
    PowerReads(k, v.x, v.mean0, v.sub0, v.exponent, s, idx, At(v.x, idx), Mean(v.x, red, idx));
    SelfReads(v.pow, idx);
    SquareEitherWay(k, At(v.x, idx), Mean(v.x, red, idx));
  }

  lemma DeviationElement(k: Kernels, axes: set<nat>, v: Values, eps: real, c: seq<nat>, o: nat)
    requires Exact(k) && SpreadEquations(k, axes, v) && Sides(axes, v, eps) && o < Size(v.x.shape)
    requires InFibre(v.x.shape, Reduced(v.x.shape, axes), c, o)
    ensures v.pow.shape == v.x.shape
    ensures v.pow.flat[o] == Square(v.x.flat[o] - FibreMean(v.x, Reduced(v.x.shape, axes), c))
  {
    OffsetOfIndex(o, v.x.shape);
    DeviationAt(k, axes, v, eps, Index(o, v.x.shape));
  }

  lemma PowIsDeviations(k: Kernels, axes: set<nat>, v: Values, eps: real, c: seq<nat>)
    requires Exact(k) && SpreadEquations(k, axes, v) && Sides(axes, v, eps)
    ensures Deviations(v.x, v.pow, Reduced(v.x.shape, axes), c, FibreMean(v.x, Reduced(v.x.shape, axes), c))
  {
    SpreadShapes(k, axes, v, eps);
    forall o: nat | o < Size(v.x.shape) && InFibre(v.x.shape, Reduced(v.x.shape, axes), c, o)
      ensures v.pow.flat[o] == Square(v.x.flat[o] - FibreMean(v.x, Reduced(v.x.shape, axes), c))
    {
      DeviationElement(k, axes, v, eps, c, o);
    }
  }

  /** Mean1 holds the variance. */
  lemma Mean1IsVariance(k: Kernels, axes: set<nat>, v: Values, eps: real, idx: seq<nat>)
    requires Exact(k) && SpreadEquations(k, axes, v) && Sides(axes, v, eps) && ValidIndex(idx, v.x.shape)
    ensures Reads(v.mean1, v.x.shape, idx, Variance(v.x, Reduced(v.x.shape, axes), idx))
  {
    SpreadShapes(k, axes, v, eps);
    PowIsDeviations(k, axes, v, eps, Clip(idx, Reduced(v.x.shape, axes)));
    MeanOfDeviations(v.x, v.pow, Reduced(v.x.shape, axes), idx);
    AverageReads(v.pow, Reduced(v.x.shape, axes), idx);
  }

  lemma EpsReads(axes: set<nat>, v: Values, eps: real, idx: seq<nat>)
    requires Sides(axes, v, eps) && ValidIndex(idx, v.x.shape)
    ensures Reads(v.eps, v.x.shape, idx, eps)
  {
    UniformReads(v.eps, v.x.shape, eps, idx);
  }

  /** What the second half computes at one position. */
  function Scaled(k: Kernels, x: real, mu: real, factor: real, beta: real): real {
    k.plus(k.times(x, factor), k.minus(beta, k.times(mu, factor)))
  }

  lemma ScaleReads(k: Kernels, v: Values, full: Shape, idx: seq<nat>, x: real, mu: real, factor: real, beta: real)
    requires ScaleEquations(k, v) && Commutes(k.plus) && Commutes(k.times)
    requires Reads(v.x, full, idx, x) && Reads(v.mean0, full, idx, mu)
    requires Reads(v.mul0, full, idx, factor) && Reads(v.beta, full, idx, beta)
    ensures Reads(v.add1, full, idx, Scaled(k, x, mu, factor, beta))
  {
    CommutingReads(k.times, v.x, v.mul0, v.mul1, full, idx, x, factor);
    CommutingReads(k.times, v.mean0, v.mul0, v.mul2, full, idx, mu, factor);
    BinaryReads(k.minus, v.beta, v.mul2, full, idx, beta, k.times(mu, factor));
    CommutingReads(k.plus, v.mul1, v.sub1, v.add1, full, idx, k.times(x, factor), k.minus(beta, k.times(mu, factor)));
  }

  lemma FactorReads(k: Kernels, v: Values, full: Shape, idx: seq<nat>, variance: real, eps: real, gamma: real)
    requires ScaleEquations(k, v) && Commutes(k.plus)
    requires Reads(v.mean1, full, idx, variance) && Reads(v.eps, full, idx, eps) && Reads(v.gamma, full, idx, gamma)
    ensures Reads(v.mul0, full, idx, k.times(k.rsqrt(k.plus(variance, eps)), gamma))
  {
    CommutingReads(k.plus, v.mean1, v.eps, v.add0, full, idx, variance, eps);
    UnaryReads(k.rsqrt, v.add0, full, idx, k.plus(variance, eps));
    BinaryReads(k.times, v.rsqrt, v.gamma, full, idx, k.rsqrt(k.plus(variance, eps)), gamma);
  }

  /** Add1's tensor, in terms of the mean and the variance of its group. */
  lemma ResultReads(k: Kernels, axes: set<nat>, v: Values, eps: real, idx: seq<nat>)
    requires Exact(k) && SpreadEquations(k, axes, v) && ScaleEquations(k, v) && Sides(axes, v, eps)
    requires ValidIndex(idx, v.x.shape)
    ensures var s, red := v.x.shape, Reduced(v.x.shape, axes);
            Reads(v.add1, s, idx,
                  Scaled(k, At(v.x, idx), Mean(v.x, red, idx),
                         k.times(k.rsqrt(k.plus(Variance(v.x, red, idx), eps)), Read(v.gamma, idx, s)), Read(v.beta, idx, s)))
  {
    var s, red := v.x.shape, Reduced(v.x.shape, axes);
    Mean1IsVariance(k, axes, v, eps, idx);
    EpsReads(axes, v, eps, idx);
    SelfReads(v.x, idx);
    AverageReads(v.x, red, idx);
    var factor := k.times(k.rsqrt(k.plus(Variance(v.x, red, idx), eps)), Read(v.gamma, idx, s));
    FactorReads(k, v, s, idx, Variance(v.x, red, idx), eps, Read(v.gamma, idx, s));
    ScaleReads(k, v, s, idx, At(v.x, idx), Mean(v.x, red, idx), factor, Read(v.beta, idx, s));
  }

  lemma NormalizedFormula(k: Kernels, x: Data, beta: real, gamma: real, eps: real, red: Shape, idx: seq<nat>)
    requires Exact(k) && Reduces(red, x.shape) && ValidIndex(idx, x.shape)
    ensures Scaled(k, At(x, idx), Mean(x, red, idx), k.times(k.rsqrt(k.plus(Variance(x, red, idx), eps)), gamma), beta)
            == Formula(k.rsqrt, At(x, idx), Mean(x, red, idx), Variance(x, red, idx), eps, gamma, beta)
  {
  }

  /** The normalisation operation in the same terms. */
  lemma NormalizedIsScaled(k: Kernels, x: Data, beta: Data, gamma: Data, eps: real, red: Shape, idx: seq<nat>)
    requires Exact(k) && Reduces(red, x.shape) && ValidIndex(idx, x.shape)
    requires Stretches(gamma.shape, x.shape) && Stretches(beta.shape, x.shape)
    ensures At(Normalized(k.rsqrt, x, beta, gamma, eps, red), idx)
            == Scaled(k, At(x, idx), Mean(x, red, idx),
                      k.times(k.rsqrt(k.plus(Variance(x, red, idx), eps)), Read(gamma, idx, x.shape)),
                      Read(beta, idx, x.shape))
  {
    AtNormalized(k.rsqrt, x, beta, gamma, eps, red, idx);
    NormalizedFormula(k, x, ReadOr(beta, idx, x.shape), ReadOr(gamma, idx, x.shape), eps, red, idx);
  }

  /** The pattern computes the normalisation of its input. */
  lemma PatternNormalizes(k: Kernels, axes: set<nat>, v: Values, eps: real)
    requires Exact(k) && SpreadEquations(k, axes, v) && ScaleEquations(k, v) && Sides(axes, v, eps)
    ensures v.add1 == Normalized(k.rsqrt, v.x, v.beta, v.gamma, eps, Reduced(v.x.shape, axes))
  {
    ResultShape(k, axes, v, eps);
    var red := Reduced(v.x.shape, axes);
    var z := Normalized(k.rsqrt, v.x, v.beta, v.gamma, eps, red);
    forall idx: seq<nat> | ValidIndex(idx, v.x.shape) ensures At(v.add1, idx) == At(z, idx) {
      ResultReads(k, axes, v, eps, idx);
      SelfReads(v.add1, idx);
      NormalizedIsScaled(k, v.x, v.beta, v.gamma, eps, red, idx);
    }
    SameElements(v.add1, z);
  }

  lemma ResultShape(k: Kernels, axes: set<nat>, v: Values, eps: real)
    requires SpreadEquations(k, axes, v) && ScaleEquations(k, v) && Sides(axes, v, eps)
    ensures v.add1.shape == v.x.shape
  {
    hide SpreadEquations;
    var s, red := v.x.shape, Reduced(v.x.shape, axes);
    SpreadShapes(k, axes, v, eps);
    EitherShape(k.times, v.x, v.mul0, v.mul1);
    EitherShape(k.plus, v.mul1, v.sub1, v.add1);
  }

  // ---- the mean must be taken of the shared input ----

  /** One evaluation, with Mean0 reading y and Sub0 and Mul1 reading x. */
  function Evaluate(k: Kernels, axes: set<nat>, x: Data, y: Data, exponent: Data, eps: Data, gamma: Data, beta: Data): (v: Values)
    ensures ScaleEquations(k, v) && (x == y ==> SpreadEquations(k, axes, v))
    ensures v.x == x && v.gamma == gamma && v.beta == beta && v.eps == eps && v.mean0 == Average(y, Reduced(y.shape, axes))
    ensures v.sub0 == Binary(k.minus, x, v.mean0) && v.pow == Binary(k.power, v.sub0, exponent)
    ensures v.mean1 == Average(v.pow, Reduced(v.pow.shape, axes))
  {
    var mean0 := Average(y, Reduced(y.shape, axes));
    var sub0 := Binary(k.minus, x, mean0);
    var pow := Binary(k.power, sub0, exponent);
    var mean1 := Average(pow, Reduced(pow.shape, axes));
    var add0 := Binary(k.plus, mean1, eps);
    var rsqrt := Unary(k.rsqrt, add0);
    var mul0 := Binary(k.times, rsqrt, gamma);
    var mul1 := Binary(k.times, x, mul0);
    var mul2 := Binary(k.times, mean0, mul0);
    var sub1 := Binary(k.minus, beta, mul2);
    Values(x, exponent, eps, gamma, beta, mean0, sub0, pow, mean1, add0, rsqrt, mul0, mul1, mul2, sub1,
           Binary(k.plus, mul1, sub1))
  }

  function Ones(shape: Shape): (x: Data)
    ensures x.shape == shape && forall o | 0 <= o < |x.flat| :: x.flat[o] == 1.0
  {
    Dense(shape, seq(Size(shape), o => 1.0))
  }

  /** Where the shared input reads one and the mean zero. */
  lemma FactorRemains(k: Kernels, axes: set<nat>, shape: Shape, exponent: Data, eps: Data, gamma: Data, beta: Data, e: real, idx: seq<nat>)
    returns (variance: real)
    requires Exact(k) && ValidIndex(idx, shape)
    requires Uniform(exponent, shape, 2.0) && Uniform(eps, Reduced(shape, axes), e)
    requires Stretches(gamma.shape, shape) && Stretches(beta.shape, shape)
    ensures Reads(Evaluate(k, axes, Ones(shape), NormalizeAxes.Zeros(shape), exponent, eps, gamma, beta).add1, shape, idx,
                  Scaled(k, 1.0, 0.0, k.times(k.rsqrt(k.plus(variance, e)), Read(gamma, idx, shape)), Read(beta, idx, shape)))
  {
    var v := Evaluate(k, axes, Ones(shape), NormalizeAxes.Zeros(shape), exponent, eps, gamma, beta);
    variance := Read(v.mean1, idx, shape);
    OnesAt(shape, idx);
    ZerosMean(axes, shape, idx);
    UniformReads(eps, shape, e, idx);
    FactorReads(k, v, shape, idx, variance, e, Read(gamma, idx, shape));
    ScaleReads(k, v, shape, idx, 1.0, 0.0, k.times(k.rsqrt(k.plus(variance, e)), Read(gamma, idx, shape)), Read(beta, idx, shape));
  }

  /** With Mean0 reading zeros while the shared input is all ones, the pattern's result is
      not the normalisation of what Mean0 reads, which is what the fused operation gets. */
  lemma MeanOfAnotherTensor(k: Kernels, axes: set<nat>, shape: Shape, exponent: Data, eps: Data, gamma: Data, beta: Data, e: real)
    requires Exact(k) && forall i | 0 <= i < |shape| :: shape[i] > 0
    requires Uniform(exponent, shape, 2.0) && Uniform(eps, Reduced(shape, axes), e)
    requires Stretches(gamma.shape, shape) && Stretches(beta.shape, shape)
    requires NormalizeAxes.NeverZero(k.rsqrt) && NormalizeAxes.NowhereZero(gamma)
    ensures Evaluate(k, axes, Ones(shape), NormalizeAxes.Zeros(shape), exponent, eps, gamma, beta).add1
            != Normalized(k.rsqrt, NormalizeAxes.Zeros(shape), beta, gamma, e, Reduced(shape, axes))
  {
    var idx := NormalizeAxes.Origin(shape);
    var variance := FactorRemains(k, axes, shape, exponent, eps, gamma, beta, e, idx);
    NormalizeAxes.ReadNonZero(gamma, shape, idx);
    NonZeroFactor(k, variance, e, Read(gamma, idx, shape));
    NormalizeAxes.ZerosNormalize(k.rsqrt, shape, beta, gamma, e, Reduced(shape, axes), idx);
    SelfReads(Normalized(k.rsqrt, NormalizeAxes.Zeros(shape), beta, gamma, e, Reduced(shape, axes)), idx);
  }

  lemma NonZeroFactor(k: Kernels, variance: real, e: real, gamma: real)
    requires Exact(k) && NormalizeAxes.NeverZero(k.rsqrt) && gamma != 0.0
    ensures k.times(k.rsqrt(k.plus(variance, e)), gamma) != 0.0
  {
  }

  lemma OnesAt(shape: Shape, idx: seq<nat>)
    requires ValidIndex(idx, shape)
    ensures Reads(Ones(shape), shape, idx, 1.0)
  {
    IndexOfOffset(idx, shape);
    SelfReads(Ones(shape), idx);
  }

  lemma ZerosMean(axes: set<nat>, shape: Shape, idx: seq<nat>)
    requires ValidIndex(idx, shape)
    ensures Reads(Average(NormalizeAxes.Zeros(shape), Reduced(shape, axes)), shape, idx, 0.0)
  {
    NormalizeAxes.ZeroMean(NormalizeAxes.Zeros(shape), Reduced(shape, axes), idx);
    AverageReads(NormalizeAxes.Zeros(shape), Reduced(shape, axes), idx);
  }
}
