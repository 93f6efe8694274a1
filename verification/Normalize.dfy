/** Averages along dimensions and the normalisation built from them, over real numbers.  A
    reduction is described by the shape it leaves: dimensions averaged away are kept with
    length one, so that the result can be stretched back. */
module Normalize {
  import opened TensorLayout
  import opened Broadcast

  predicate Reduces(red: Shape, shape: Shape) {
    |red| == |shape| && Stretches(red, shape)
  }

  /** Averaging a set of dimensions away. */
  function Reduced(shape: Shape, axes: set<nat>): (red: Shape)
    ensures Reduces(red, shape) && forall k | 0 <= k < |shape| :: red[k] == if k in axes then 1 else shape[k]
  {
    seq(|shape|, k requires 0 <= k < |shape| => if k in axes then 1 else shape[k])
  }

  /** The element at flat position o is averaged into position c of the result. */
  predicate InFibre(shape: Shape, red: Shape, c: seq<nat>, o: nat)
    requires Reduces(red, shape) && o < Size(shape)
  {
    Clip(Index(o, shape), red) == c
  }

  /** Sum over the first n elements that are averaged into c. */
  function FibreSum(x: Data, red: Shape, c: seq<nat>, n: nat): real
    requires Reduces(red, x.shape) && n <= Size(x.shape)
  {
    if n == 0 then 0.0
    else FibreSum(x, red, c, n - 1) + if InFibre(x.shape, red, c, n - 1) then x.flat[n - 1] else 0.0
  }

  /** How many of them there are. */
  function FibreCount(shape: Shape, red: Shape, c: seq<nat>, n: nat): (count: real)
    requires Reduces(red, shape) && n <= Size(shape)
    ensures count >= 0.0
  {
    if n == 0 then 0.0
    else FibreCount(shape, red, c, n - 1) + if InFibre(shape, red, c, n - 1) then 1.0 else 0.0
  }

  function FibreMean(x: Data, red: Shape, c: seq<nat>): real
    requires Reduces(red, x.shape)
  {
    var count := FibreCount(x.shape, red, c, Size(x.shape));
    if count == 0.0 then 0.0 else FibreSum(x, red, c, Size(x.shape)) / count
  }

  /** The mean along the reduced dimensions, dimensions kept. */
  function Average(x: Data, red: Shape): (m: Data)
    requires Reduces(red, x.shape)
    ensures m.shape == red
  {
    Dense(red, seq(Size(red), o requires 0 <= o < Size(red) => FibreMean(x, red, Index(o, red))))
  }

  lemma ReadAverage(x: Data, red: Shape, idx: seq<nat>)
    requires Reduces(red, x.shape) && ValidIndex(idx, x.shape)
    ensures Read(Average(x, red), idx, x.shape) == FibreMean(x, red, Clip(idx, red))
  {
    IndexOfOffset(Clip(idx, red), red);
  }

  lemma {:induction false} CountPositive(shape: Shape, red: Shape, c: seq<nat>, o: nat, n: nat)
    requires Reduces(red, shape) && o < n <= Size(shape) && InFibre(shape, red, c, o)
    ensures FibreCount(shape, red, c, n) > 0.0
  {
    if o < n - 1 { CountPositive(shape, red, c, o, n - 1); }
  }

  /** Every position belongs to the group it is averaged into. */
  lemma OwnFibre(shape: Shape, red: Shape, idx: seq<nat>)
    requires Reduces(red, shape) && ValidIndex(idx, shape)
    ensures Offset(idx, shape) < Size(shape) && InFibre(shape, red, Clip(idx, red), Offset(idx, shape))
    ensures FibreCount(shape, red, Clip(idx, red), Size(shape)) > 0.0
  {
    IndexOfOffset(idx, shape);
    CountPositive(shape, red, Clip(idx, red), Offset(idx, shape), Size(shape));
  }

  function Square(v: real): real { v * v }

  function Mean(x: Data, red: Shape, idx: seq<nat>): real
    requires Reduces(red, x.shape) && ValidIndex(idx, x.shape)
  {
    FibreMean(x, red, Clip(idx, red))
  }

  /** Mean of squares minus square of the mean. */
  function Variance(x: Data, red: Shape, idx: seq<nat>): real
    requires Reduces(red, x.shape) && ValidIndex(idx, x.shape)
  {
    FibreMean(Squares(x), red, Clip(idx, red)) - Square(Mean(x, red, idx))
  }

  function Formula(rsqrt: real -> real, x: real, mu: real, variance: real, eps: real, gamma: real, beta: real): real {
    (x - mu) * rsqrt(variance + eps) * gamma + beta
  }

  /** The normalisation operation at one position. */
  function NormalizedAt(rsqrt: real -> real, x: Data, beta: Data, gamma: Data, eps: real, red: Shape, idx: seq<nat>): real
    requires Reduces(red, x.shape) && ValidIndex(idx, x.shape)
  {
    Formula(rsqrt, At(x, idx), Mean(x, red, idx), Variance(x, red, idx), eps,
            ReadOr(gamma, idx, x.shape), ReadOr(beta, idx, x.shape))
  }

  function Normalized(rsqrt: real -> real, x: Data, beta: Data, gamma: Data, eps: real, red: Shape): (z: Data)
    requires Reduces(red, x.shape)
    ensures z.shape == x.shape
  {
    Dense(x.shape, seq(Size(x.shape), o requires 0 <= o < Size(x.shape) =>
      NormalizedElement(rsqrt, x, beta, gamma, eps, red, o)))
  }

  function NormalizedElement(rsqrt: real -> real, x: Data, beta: Data, gamma: Data, eps: real, red: Shape, o: nat): real
    requires Reduces(red, x.shape) && o < Size(x.shape)
  {
    OffsetOfIndex(o, x.shape);
    NormalizedAt(rsqrt, x, beta, gamma, eps, red, Index(o, x.shape))
  }

  lemma AtNormalized(rsqrt: real -> real, x: Data, beta: Data, gamma: Data, eps: real, red: Shape, idx: seq<nat>)
    requires Reduces(red, x.shape) && ValidIndex(idx, x.shape)
    ensures At(Normalized(rsqrt, x, beta, gamma, eps, red), idx) == NormalizedAt(rsqrt, x, beta, gamma, eps, red, idx)
  {
    IndexOfOffset(idx, x.shape);
  }

  // ---- variance: the pattern squares deviations ----

  /** sq holds, throughout the group c, the squared deviation of x from mu. */
  ghost predicate Deviations(x: Data, sq: Data, red: Shape, c: seq<nat>, mu: real)
    requires Reduces(red, x.shape)
  {
    sq.shape == x.shape
    && forall o: nat | o < Size(x.shape) && InFibre(x.shape, red, c, o) :: sq.flat[o] == Square(x.flat[o] - mu)
  }

  /** Sum of squared deviations from mu, out of the sums of squares and of values. */
  function Expanded(squares: real, sum: real, mu: real, count: real): real {
    squares - 2.0 * mu * sum + mu * mu * count
  }

  lemma ExpandedStep(squares: real, sum: real, mu: real, count: real, v: real,
                     squares': real, sum': real, count': real)
    requires squares' == squares + Square(v) && sum' == sum + v && count' == count + 1.0
    ensures Expanded(squares', sum', mu, count') == Expanded(squares, sum, mu, count) + Square(v - mu)
  {
    assert Square(v - mu) == Square(v) - 2.0 * mu * v + mu * mu;
  }

  function Squares(x: Data): (q: Data)
    ensures q.shape == x.shape && forall o | 0 <= o < |x.flat| :: q.flat[o] == Square(x.flat[o])
  {
    Unary(Square, x)
  }

  /** How far the two ways of summing are apart after n elements. */
  function Gap(x: Data, sq: Data, red: Shape, c: seq<nat>, mu: real, n: nat): real
    requires Reduces(red, x.shape) && sq.shape == x.shape && n <= Size(x.shape)
  {
    Expanded(FibreSum(Squares(x), red, c, n), FibreSum(x, red, c, n), mu, FibreCount(x.shape, red, c, n))
    - FibreSum(sq, red, c, n)
  }

  lemma GapKept(x: Data, sq: Data, red: Shape, c: seq<nat>, mu: real, n: nat)
    requires Reduces(red, x.shape) && n < Size(x.shape) && Deviations(x, sq, red, c, mu)
    ensures Gap(x, sq, red, c, mu, n + 1) == Gap(x, sq, red, c, mu, n)
  {
    if InFibre(x.shape, red, c, n) {
      ExpandedStep(FibreSum(Squares(x), red, c, n), FibreSum(x, red, c, n), mu,
                   FibreCount(x.shape, red, c, n), x.flat[n],
                   FibreSum(Squares(x), red, c, n + 1), FibreSum(x, red, c, n + 1), FibreCount(x.shape, red, c, n + 1));
    }
  }

  lemma {:induction false} DeviationSum(x: Data, sq: Data, red: Shape, c: seq<nat>, mu: real, n: nat)
    requires Reduces(red, x.shape) && n <= Size(x.shape) && Deviations(x, sq, red, c, mu)
    ensures Gap(x, sq, red, c, mu, n) == 0.0
    decreases n
  {
    if n > 0 {
      GapKept(x, sq, red, c, mu, n - 1);
      DeviationSum(x, sq, red, c, mu, n - 1);
    }
  }

  lemma DivideOut(squares: real, sum: real, mu: real, count: real)
    requires count > 0.0 && mu == sum / count
    ensures Expanded(squares, sum, mu, count) / count == squares / count - Square(mu)
  {
    assert sum == mu * count;
    assert Expanded(squares, sum, mu, count) == squares - Square(mu) * count;
    assert Expanded(squares, sum, mu, count) == (squares / count - Square(mu)) * count;
  }

  /** The mean of squared deviations is the variance. */
  lemma MeanOfDeviations(x: Data, sq: Data, red: Shape, idx: seq<nat>)
    requires Reduces(red, x.shape) && ValidIndex(idx, x.shape)
    requires Deviations(x, sq, red, Clip(idx, red), Mean(x, red, idx))
    ensures FibreMean(sq, red, Clip(idx, red)) == Variance(x, red, idx)
  {
    OwnFibre(x.shape, red, idx);
    DeviationMean(x, sq, red, Clip(idx, red), Mean(x, red, idx));
  }

  lemma DeviationMean(x: Data, sq: Data, red: Shape, c: seq<nat>, mu: real)
    requires Reduces(red, x.shape) && FibreCount(x.shape, red, c, Size(x.shape)) > 0.0
    requires Deviations(x, sq, red, c, mu) && mu == FibreMean(x, red, c)
    ensures FibreMean(sq, red, c) == FibreMean(Squares(x), red, c) - Square(mu)
  {
    var n := Size(x.shape);
    DeviationSum(x, sq, red, c, mu, n);
    DivideOut(FibreSum(Squares(x), red, c, n), FibreSum(x, red, c, n), mu, FibreCount(x.shape, red, c, n));
  }
}
