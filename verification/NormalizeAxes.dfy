/** Which dimensions a normalisation averages matters, and how its parameters are laid out:
    the fused operation is given a parameter tensor reshaped along one dimension and a
    dimension number counted from the other end. */
module NormalizeAxes {
  import opened TensorLayout
  import opened Broadcast
  import opened Normalize

  // ---- parameters along one dimension ----

  /** Every dimension but a has length one. */
  predicate Along(s: Shape, a: nat) {
    forall k | 0 <= k < |s| && k != a :: s[k] == 1
  }

  lemma {:induction false} SizeAlong(s: Shape, a: nat)
    requires Along(s, a)
    ensures Size(s) == if a < |s| then s[a] else 1
  {
    if s != [] {
      SizeAlong(s[1..], if a == 0 then |s| else a - 1);
    }
  }

  lemma {:induction false} OffsetAlong(c: seq<nat>, s: Shape, a: nat)
    requires Along(s, a) && ValidIndex(c, s)
    ensures Offset(c, s) == if a < |s| then c[a] else 0
  {
    if s != [] {
      OffsetAlong(c[1..], s[1..], if a == 0 then |s| else a - 1);
    }
  }

  /** A parameter with one entry for each position along dimension a. */
  predicate Vector(p: Data, full: Shape, a: nat) {
    a < |full| && Stretches(p.shape, full) && Along(p.shape, a) && Size(p.shape) == full[a]
  }

  /** The shape the fused operation's parameters are created with. */
  function ParameterShape(full: Shape, a: nat): (s: Shape)
    requires a < |full|
    ensures |s| == |full| && Along(s, a) && s[a] == full[a] && Stretches(s, full)
  {
    seq(|full|, k requires 0 <= k < |full| => if k == a then full[k] else 1)
  }

  lemma VectorRead(p: Data, full: Shape, a: nat, idx: seq<nat>)
    requires Vector(p, full, a) && ValidIndex(idx, full)
    ensures |p.flat| == full[a] && idx[a] < |p.flat|
    ensures Read(p, idx, full) == p.flat[idx[a]]
  {
    SizeAlong(p.shape, a);
    OffsetAlong(Clip(idx, p.shape), p.shape, a);
  }

  /** Reshaped along the same dimension, a parameter reads the same everywhere. */
  lemma ReshapedReads(p: Data, q: Data, full: Shape, a: nat, idx: seq<nat>)
    requires Vector(p, full, a) && Vector(q, full, a) && q.flat == p.flat && ValidIndex(idx, full)
    ensures Read(q, idx, full) == Read(p, idx, full)
  {
    VectorRead(p, full, a, idx);
    VectorRead(q, full, a, idx);
  }

  /** A normalisation sees its parameters only through what is read from them. */
  lemma SameParameters(rsqrt: real -> real, x: Data, beta: Data, gamma: Data, beta': Data, gamma': Data, eps: real, red: Shape)
    requires Reduces(red, x.shape)
    requires forall idx: seq<nat> | ValidIndex(idx, x.shape) ::
               ReadOr(beta', idx, x.shape) == ReadOr(beta, idx, x.shape)
               && ReadOr(gamma', idx, x.shape) == ReadOr(gamma, idx, x.shape)
    ensures Normalized(rsqrt, x, beta', gamma', eps, red) == Normalized(rsqrt, x, beta, gamma, eps, red)
  {
    var y, z := Normalized(rsqrt, x, beta', gamma', eps, red), Normalized(rsqrt, x, beta, gamma, eps, red);
    forall idx: seq<nat> | ValidIndex(idx, x.shape) ensures At(y, idx) == At(z, idx) {
      AtNormalized(rsqrt, x, beta', gamma', eps, red, idx);
      AtNormalized(rsqrt, x, beta, gamma, eps, red, idx);
      assert ReadOr(beta', idx, x.shape) == ReadOr(beta, idx, x.shape);
    }
    SameElements(y, z);
  }

  /** The parameters the fused operation receives do what the pattern's did. */
  lemma ReshapedParameters(rsqrt: real -> real, x: Data, beta: Data, gamma: Data, beta': Data, gamma': Data,
                           eps: real, red: Shape, a: nat)
    requires Reduces(red, x.shape) && Vector(beta, x.shape, a) && Vector(gamma, x.shape, a)
    requires Vector(beta', x.shape, a) && Vector(gamma', x.shape, a)
    requires beta'.flat == beta.flat && gamma'.flat == gamma.flat
    ensures Normalized(rsqrt, x, beta', gamma', eps, red) == Normalized(rsqrt, x, beta, gamma, eps, red)
  {
    forall idx: seq<nat> | ValidIndex(idx, x.shape)
      ensures ReadOr(beta', idx, x.shape) == ReadOr(beta, idx, x.shape)
      ensures ReadOr(gamma', idx, x.shape) == ReadOr(gamma, idx, x.shape)
    {
      ReshapedReads(beta, beta', x.shape, a, idx);
      ReshapedReads(gamma, gamma', x.shape, a, idx);
    }
    SameParameters(rsqrt, x, beta, gamma, beta', gamma', eps, red);
  }

  // ---- the dimensions matter ----

  ghost predicate ConstantGroup(x: Data, red: Shape, c: seq<nat>, value: real)
    requires Reduces(red, x.shape)
  {
    forall o: nat | o < Size(x.shape) && InFibre(x.shape, red, c, o) :: x.flat[o] == value
  }

  lemma {:induction false} ZeroSum(x: Data, red: Shape, c: seq<nat>, n: nat)
    requires Reduces(red, x.shape) && n <= Size(x.shape) && ConstantGroup(x, red, c, 0.0)
    ensures FibreSum(x, red, c, n) == 0.0
  {
    if n > 0 { ZeroSum(x, red, c, n - 1); }
  }

  lemma {:induction false} OneSum(x: Data, red: Shape, c: seq<nat>, n: nat)
    requires Reduces(red, x.shape) && n <= Size(x.shape) && ConstantGroup(x, red, c, 1.0)
    ensures FibreSum(x, red, c, n) == FibreCount(x.shape, red, c, n)
  {
    if n > 0 { OneSum(x, red, c, n - 1); }
  }

  predicate AtMostOne(x: Data) {
    forall o | 0 <= o < |x.flat| :: x.flat[o] <= 1.0
  }

  function Shortfall(x: Data, red: Shape, c: seq<nat>, n: nat): real
    requires Reduces(red, x.shape) && n <= Size(x.shape)
  {
    FibreCount(x.shape, red, c, n) - FibreSum(x, red, c, n)
  }

  lemma {:induction false} ShortfallMonotone(x: Data, red: Shape, c: seq<nat>, n: nat, n': nat)
    requires Reduces(red, x.shape) && n <= n' <= Size(x.shape) && AtMostOne(x)
    ensures Shortfall(x, red, c, n') >= Shortfall(x, red, c, n)
  {
    if n < n' {
      ShortfallMonotone(x, red, c, n, n' - 1);
    }
  }

  /** One element of the group below one makes the sum smaller than the count. */
  lemma SumBelow(x: Data, red: Shape, c: seq<nat>, o: nat)
    requires Reduces(red, x.shape) && AtMostOne(x)
    requires o < Size(x.shape) && InFibre(x.shape, red, c, o) && x.flat[o] < 1.0
    ensures Shortfall(x, red, c, Size(x.shape)) > 0.0
  {
    ShortfallMonotone(x, red, c, 0, o);
    ShortfallMonotone(x, red, c, o + 1, Size(x.shape));
  }

  lemma Quotient(sum: real, count: real)
    requires count > 0.0
    ensures (sum == 0.0 ==> sum / count == 0.0) && (sum == count ==> sum / count == 1.0)
    ensures sum < count ==> sum / count < 1.0
  {
    if sum < count { BelowOne(sum, count); }
  }

  lemma BelowOne(sum: real, count: real)
    requires count > 0.0 && sum < count
    ensures sum / count < 1.0
  {
    var q := sum / count;
    assert q * count == sum;
  }

  lemma ZeroMean(x: Data, red: Shape, idx: seq<nat>)
    requires Reduces(red, x.shape) && ValidIndex(idx, x.shape) && ConstantGroup(x, red, Clip(idx, red), 0.0)
    ensures Mean(x, red, idx) == 0.0
  {
    var n := Size(x.shape);
    OwnFibre(x.shape, red, idx);
    ZeroSum(x, red, Clip(idx, red), n);
    Quotient(FibreSum(x, red, Clip(idx, red), n), FibreCount(x.shape, red, Clip(idx, red), n));
  }

  lemma OneMean(x: Data, red: Shape, idx: seq<nat>)
    requires Reduces(red, x.shape) && ValidIndex(idx, x.shape) && ConstantGroup(x, red, Clip(idx, red), 1.0)
    ensures Mean(x, red, idx) == 1.0
  {
    var n := Size(x.shape);
    OwnFibre(x.shape, red, idx);
    OneSum(x, red, Clip(idx, red), n);
    Quotient(FibreSum(x, red, Clip(idx, red), n), FibreCount(x.shape, red, Clip(idx, red), n));
  }

  lemma MeanBelow(x: Data, red: Shape, idx: seq<nat>, o: nat)
    requires Reduces(red, x.shape) && ValidIndex(idx, x.shape) && AtMostOne(x)
    requires o < Size(x.shape) && InFibre(x.shape, red, Clip(idx, red), o) && x.flat[o] < 1.0
    ensures Mean(x, red, idx) < 1.0
  {
    var n := Size(x.shape);
    OwnFibre(x.shape, red, idx);
    SumBelow(x, red, Clip(idx, red), o);
    Quotient(FibreSum(x, red, Clip(idx, red), n), FibreCount(x.shape, red, Clip(idx, red), n));
  }

  /** One where coordinate k is zero, zero elsewhere. */
  function Indicator(shape: Shape, k: nat): (x: Data)
    requires k < |shape|
    ensures x.shape == shape && forall o | 0 <= o < |x.flat| :: x.flat[o] == if Index(o, shape)[k] == 0 then 1.0 else 0.0
  {
    Dense(shape, seq(Size(shape), o requires 0 <= o < Size(shape) => if Index(o, shape)[k] == 0 then 1.0 else 0.0))
  }

  lemma IndicatorAt(shape: Shape, k: nat, idx: seq<nat>)
    requires k < |shape| && ValidIndex(idx, shape)
    ensures At(Indicator(shape, k), idx) == if idx[k] == 0 then 1.0 else 0.0
  {
    IndexOfOffset(idx, shape);
  }

  function Zeros(shape: Shape): (x: Data)
    ensures x.shape == shape && forall o | 0 <= o < |x.flat| :: x.flat[o] == 0.0
  {
    Dense(shape, seq(Size(shape), o => 0.0))
  }

  function Origin(shape: Shape): (idx: seq<nat>)
    requires forall k | 0 <= k < |shape| :: shape[k] > 0
    ensures ValidIndex(idx, shape) && forall k | 0 <= k < |shape| :: idx[k] == 0
  {
    seq(|shape|, k => 0)
  }

  lemma OnMean(rsqrt: real -> real, x: real, variance: real, eps: real, gamma: real, beta: real)
    ensures Formula(rsqrt, x, x, variance, eps, gamma, beta) == beta
  {
  }

  /** What an input of zeros normalises to. */
  lemma ZerosNormalize(rsqrt: real -> real, shape: Shape, beta: Data, gamma: Data, eps: real, red: Shape, idx: seq<nat>)
    requires Reduces(red, shape) && ValidIndex(idx, shape)
    ensures At(Normalized(rsqrt, Zeros(shape), beta, gamma, eps, red), idx) == ReadOr(beta, idx, shape)
  {
    var x := Zeros(shape);
    ZeroMean(x, red, idx);
    IndexOfOffset(idx, shape);
    AtNormalized(rsqrt, x, beta, gamma, eps, red, idx);
    OnMean(rsqrt, At(x, idx), Variance(x, red, idx), eps, ReadOr(gamma, idx, shape), ReadOr(beta, idx, shape));
  }

  /** Averaged only over places where coordinate k is the same, the indicator is its own
      mean. */
  lemma IndicatorKept(shape: Shape, k: nat, red: Shape, idx: seq<nat>)
    requires k < |shape| && Reduces(red, shape) && ValidIndex(idx, shape) && idx[k] == 0 && red[k] == shape[k] > 1
    ensures Mean(Indicator(shape, k), red, idx) == 1.0
  {
    var x := Indicator(shape, k);
    forall o: nat | o < Size(shape) && InFibre(shape, red, Clip(idx, red), o) ensures x.flat[o] == 1.0 {
      assert Clip(Index(o, shape), red)[k] == Index(o, shape)[k];
    }
    OneMean(x, red, idx);
  }

  /** Averaged along k, it is not. */
  lemma IndicatorSpread(shape: Shape, k: nat, red: Shape, idx: seq<nat>)
    requires k < |shape| && Reduces(red, shape) && ValidIndex(idx, shape) && idx[k] == 0 && red[k] == 1 < shape[k]
    ensures Mean(Indicator(shape, k), red, idx) < 1.0
  {
    var far := idx[k := 1];
    IndexOfOffset(far, shape);
    assert Clip(far, red) == Clip(idx, red);
    MeanBelow(Indicator(shape, k), red, idx, Offset(far, shape));
  }

  ghost predicate NeverZero(f: real -> real) {
    forall v: real :: f(v) != 0.0
  }

  predicate NowhereZero(x: Data) {
    forall o | 0 <= o < |x.flat| :: x.flat[o] != 0.0
  }

  lemma ReadNonZero(x: Data, full: Shape, idx: seq<nat>)
    requires NowhereZero(x) && Stretches(x.shape, full) && ValidIndex(idx, full)
    ensures ReadOr(x, idx, full) != 0.0
  {
    IndexOfOffset(Clip(idx, x.shape), x.shape);
  }

  lemma OffMean(rsqrt: real -> real, x: real, mu: real, variance: real, eps: real, gamma: real, beta: real)
    requires NeverZero(rsqrt) && x != mu && gamma != 0.0
    ensures Formula(rsqrt, x, mu, variance, eps, gamma, beta) != beta
  {
    assert rsqrt(variance + eps) != 0.0;
  }

  /** At the origin the indicator of k normalises to beta when k is not averaged, and to
      something else when it is. */
  lemma IndicatorNormalizes(rsqrt: real -> real, shape: Shape, beta: Data, gamma: Data, eps: real, red: Shape, k: nat, idx: seq<nat>)
    requires k < |shape| && Reduces(red, shape) && ValidIndex(idx, shape) && idx[k] == 0 && shape[k] > 1
    requires NeverZero(rsqrt) && NowhereZero(gamma) && Stretches(gamma.shape, shape)
    ensures red[k] == shape[k] <==>
              At(Normalized(rsqrt, Indicator(shape, k), beta, gamma, eps, red), idx) == ReadOr(beta, idx, shape)
  {
    var x := Indicator(shape, k);
    AtNormalized(rsqrt, x, beta, gamma, eps, red, idx);
    IndicatorAt(shape, k, idx);
    ReadNonZero(gamma, shape, idx);
    if red[k] == shape[k] {
      IndicatorKept(shape, k, red, idx);
      OnMean(rsqrt, At(x, idx), Variance(x, red, idx), eps, ReadOr(gamma, idx, shape), ReadOr(beta, idx, shape));
    } else {
      IndicatorSpread(shape, k, red, idx);
      OffMean(rsqrt, At(x, idx), Mean(x, red, idx), Variance(x, red, idx), eps,
              ReadOr(gamma, idx, shape), ReadOr(beta, idx, shape));
    }
  }

  /** Two normalisations of one shape that average different dimensions differ on some
      input, whatever their parameters. */
  lemma DifferentAxesDiffer(rsqrt: real -> real, shape: Shape, eps: real,
                            beta: Data, gamma: Data, red: Shape, beta': Data, gamma': Data, red': Shape)
    returns (x: Data)
    requires (forall k | 0 <= k < |shape| :: shape[k] > 0) && Reduces(red, shape) && Reduces(red', shape) && red != red'
    requires NeverZero(rsqrt) && NowhereZero(gamma) && NowhereZero(gamma')
    requires Stretches(gamma.shape, shape) && Stretches(gamma'.shape, shape)
    ensures x.shape == shape
    ensures Normalized(rsqrt, x, beta, gamma, eps, red) != Normalized(rsqrt, x, beta', gamma', eps, red')
  {
    var k :| 0 <= k < |shape| && red[k] != red'[k];
    var idx := Origin(shape);
    ZerosNormalize(rsqrt, shape, beta, gamma, eps, red, idx);
    ZerosNormalize(rsqrt, shape, beta', gamma', eps, red', idx);
    IndicatorNormalizes(rsqrt, shape, beta, gamma, eps, red, k, idx);
    IndicatorNormalizes(rsqrt, shape, beta', gamma', eps, red', k, idx);
    x := if ReadOr(beta, idx, shape) == ReadOr(beta', idx, shape) then Indicator(shape, k) else Zeros(shape);
  }

  // ---- the dimension number of the fused operation ----

  /** The fused layer normalisation counts its dimension from the other end. */
  function Reversed(rank: nat, axis: nat): (r: nat)
    requires axis < rank
    ensures r < rank
  {
    rank - axis - 1
  }

  /** Both numbers name the same averaging exactly when the dimension is the middle one or
      both dimensions have length one. */
  lemma SameReduction(shape: Shape, axis: nat)
    requires axis < |shape|
    ensures Reduced(shape, {axis}) == Reduced(shape, {Reversed(|shape|, axis)}) <==>
              2 * axis + 1 == |shape| || shape[axis] == 1 == shape[Reversed(|shape|, axis)]
  {
    var b := Reversed(|shape|, axis);
    var r, r' := Reduced(shape, {axis}), Reduced(shape, {b});
    assert r[axis] == 1 && r'[b] == 1;
    if axis != b { assert r[b] == shape[b] && r'[axis] == shape[axis]; }
  }

  /** The parameter as the fused operation receives it: the same buffer if it has the size
      the new shape asks for. */
  predicate Passed(p: Data, p': Data, full: Shape, a: nat)
    requires a < |full|
  {
    p'.shape == ParameterShape(full, a) && (Size(p'.shape) == |p.flat| ==> p'.flat == p.flat)
  }

  /** Replacing the pattern's averaging of dimension axis by a layer normalisation of the
      dimension counted from the other end is right for every input exactly when the two
      agree on the dimension, or it does not matter. */
  lemma LayerFusionExactlyWhen(rsqrt: real -> real, shape: Shape, eps: real, axis: nat,
                               beta: Data, gamma: Data, beta': Data, gamma': Data)
    requires (forall k | 0 <= k < |shape| :: shape[k] > 0) && axis < |shape|
    requires Vector(beta, shape, axis) && Vector(gamma, shape, axis)
    requires Passed(beta, beta', shape, Reversed(|shape|, axis)) && Passed(gamma, gamma', shape, Reversed(|shape|, axis))
    requires NeverZero(rsqrt) && NowhereZero(gamma) && NowhereZero(gamma')
    ensures (forall x: Data | x.shape == shape ::
               Normalized(rsqrt, x, beta', gamma', eps, Reduced(shape, {Reversed(|shape|, axis)}))
               == Normalized(rsqrt, x, beta, gamma, eps, Reduced(shape, {axis})))
            <==> 2 * axis + 1 == |shape| || shape[axis] == 1 == shape[Reversed(|shape|, axis)]
  {
    var b := Reversed(|shape|, axis);
    SameReduction(shape, axis);
    if Reduced(shape, {axis}) == Reduced(shape, {b}) {
      PassedVector(beta, beta', shape, axis);
      PassedVector(gamma, gamma', shape, axis);
      forall x: Data | x.shape == shape
        ensures Normalized(rsqrt, x, beta', gamma', eps, Reduced(shape, {b}))
                == Normalized(rsqrt, x, beta, gamma, eps, Reduced(shape, {axis}))
      {
        ReshapedParameters(rsqrt, x, beta, gamma, beta', gamma', eps, Reduced(shape, {axis}), axis);
      }
    } else {
      var x := DifferentAxesDiffer(rsqrt, shape, eps, beta, gamma, Reduced(shape, {axis}), beta', gamma', Reduced(shape, {b}));
    }
  }

  lemma PassedVector(p: Data, p': Data, shape: Shape, axis: nat)
    requires axis < |shape| && Vector(p, shape, axis) && Passed(p, p', shape, Reversed(|shape|, axis))
    requires 2 * axis + 1 == |shape| || shape[axis] == 1 == shape[Reversed(|shape|, axis)]
    ensures Vector(p', shape, axis) && p'.flat == p.flat
  {
    SizeAlong(p'.shape, Reversed(|shape|, axis));
  }

  /** Apart from dimensions of length one, two sets of dimensions are the same. */
  predicate SameAxes(shape: Shape, axes: set<nat>, axes': set<nat>) {
    forall k: nat | k < |shape| && shape[k] != 1 :: k in axes <==> k in axes'
  }

  lemma SameAxesReduce(shape: Shape, axes: set<nat>, axes': set<nat>)
    ensures Reduced(shape, axes) == Reduced(shape, axes') <==> SameAxes(shape, axes, axes')
  {
    var r, r' := Reduced(shape, axes), Reduced(shape, axes');
    if r == r' {
      forall k: nat | k < |shape| && shape[k] != 1 ensures k in axes <==> k in axes' {
        assert r[k] == r'[k];
      }
    }
  }

  /** The instance normalisation averages dimensions 1 and 2 and takes parameters along
      dimension 0; it replaces the pattern's averaging rightly exactly when that averages the
      same dimensions, lengths of one aside. */
  lemma InstanceFusionExactlyWhen(rsqrt: real -> real, shape: Shape, eps: real, axes: set<nat>,
                                  beta: Data, gamma: Data, beta': Data, gamma': Data)
    requires (forall k | 0 <= k < |shape| :: shape[k] > 0) && shape != []
    requires Vector(beta, shape, 0) && Vector(gamma, shape, 0)
    requires Passed(beta, beta', shape, 0) && Passed(gamma, gamma', shape, 0)
    requires NeverZero(rsqrt) && NowhereZero(gamma)
    ensures (forall x: Data | x.shape == shape ::
               Normalized(rsqrt, x, beta', gamma', eps, Reduced(shape, {1, 2}))
               == Normalized(rsqrt, x, beta, gamma, eps, Reduced(shape, axes)))
            <==> SameAxes(shape, axes, {1, 2})
  {
    SameAxesReduce(shape, axes, {1, 2});
    PassedAlong(beta, beta', shape, 0);
    PassedAlong(gamma, gamma', shape, 0);
    if SameAxes(shape, axes, {1, 2}) {
      forall x: Data | x.shape == shape
        ensures Normalized(rsqrt, x, beta', gamma', eps, Reduced(shape, {1, 2}))
                == Normalized(rsqrt, x, beta, gamma, eps, Reduced(shape, axes))
      {
        ReshapedParameters(rsqrt, x, beta, gamma, beta', gamma', eps, Reduced(shape, axes), 0);
      }
    } else {
      var x := DifferentAxesDiffer(rsqrt, shape, eps, beta, gamma, Reduced(shape, axes), beta', gamma', Reduced(shape, {1, 2}));
    }
  }

  lemma PassedAlong(p: Data, p': Data, shape: Shape, a: nat)
    requires a < |shape| && Vector(p, shape, a) && Passed(p, p', shape, a)
    ensures Vector(p', shape, a) && p'.flat == p.flat
  {
    SizeAlong(p'.shape, a);
  }
}
