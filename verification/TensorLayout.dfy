/** Dense tensors and their transposition.  Dimension 0 is the one that varies fastest in
    the flat buffer.  A tensor transposed by p has dimension p[i] of the operand as its
    dimension i. */
module TensorLayout {
  import opened Permutations

  type Shape = seq<nat>

  /** Number of elements: the product of the dimensions. */
  function Size(shape: Shape): (n: nat)
  {
    if shape == [] then 1 else shape[0] * Size(shape[1..])
  }

  predicate ValidIndex(idx: seq<nat>, shape: Shape) {
    |idx| == |shape| && forall k | 0 <= k < |idx| :: idx[k] < shape[k]
  }

  /** Position of a multi-index in the flat buffer. */
  function Offset(idx: seq<nat>, shape: Shape): (o: nat)
    requires |idx| == |shape|
  {
    if shape == [] then 0 else idx[0] + shape[0] * Offset(idx[1..], shape[1..])
  }

  /** Quotient and remainder by a dimension, as a pair with its characteristic property. */
  function Split(o: nat, d: nat): (r: (nat, nat))
    requires d > 0
    ensures r.0 < d && o == r.0 + d * r.1
  {
    if o < d then (o, 0)
    else
      var (lo, hi) := Split(o - d, d);
      (lo, hi + 1)
  }

  /** The multi-index stored at a flat position. */
  function Index(o: nat, shape: Shape): (idx: seq<nat>)
    requires o < Size(shape)
    ensures |idx| == |shape|
  {
    if shape == [] then []
    else
      QuotientBound(o, shape[0], Size(shape[1..]));
      var (lo, hi) := Split(o, shape[0]);
      [lo] + Index(hi, shape[1..])
  }

  lemma MulMonotone(d: nat, a: nat, b: nat)
    requires a <= b
    ensures d * a <= d * b
  {
  }

  lemma QuotientBound(o: nat, d: nat, rest: nat)
    requires o < d * rest
    ensures d > 0 && Split(o, d).1 < rest
  {
    if d > 0 && Split(o, d).1 >= rest {
      MulMonotone(d, rest, Split(o, d).1);
    }
  }

  lemma JoinBound(i: nat, d: nat, q: nat, rest: nat)
    requires i < d && q < rest
    ensures i + d * q < d * rest
  {
    MulMonotone(d, q + 1, rest);
    MulSucc(d, q);
  }

  lemma MulSucc(d: nat, q: nat)
    ensures d * (q + 1) == d * q + d
  {
  }

  lemma {:induction false} SplitOfJoin(i: nat, d: nat, q: nat)
    requires i < d
    ensures Split(i + d * q, d) == (i, q)
    decreases q
  {
    if q > 0 {
      MulSucc(d, q - 1);
      SplitOfJoin(i, d, q - 1);
    }
  }

  lemma {:induction false} IndexOfOffset(idx: seq<nat>, shape: Shape)
    requires ValidIndex(idx, shape)
    ensures Offset(idx, shape) < Size(shape)
    ensures Index(Offset(idx, shape), shape) == idx
  {
    if shape != [] {
      IndexOfOffset(idx[1..], shape[1..]);
      var q := Offset(idx[1..], shape[1..]);
      JoinBound(idx[0], shape[0], q, Size(shape[1..]));
      SplitOfJoin(idx[0], shape[0], q);
      assert idx == [idx[0]] + idx[1..];
    }
  }

  lemma {:induction false} OffsetOfIndex(o: nat, shape: Shape)
    requires o < Size(shape)
    ensures ValidIndex(Index(o, shape), shape)
    ensures Offset(Index(o, shape), shape) == o
  {
    if shape != [] {
      QuotientBound(o, shape[0], Size(shape[1..]));
      var (lo, hi) := Split(o, shape[0]);
      OffsetOfIndex(hi, shape[1..]);
      assert Index(o, shape) == [lo] + Index(hi, shape[1..]);
      assert Index(o, shape)[1..] == Index(hi, shape[1..]);
    }
  }

  /** One step along dimension k moves past all elements of the dimensions before it. */
  lemma {:induction false} Strides(idx: seq<nat>, shape: Shape, k: nat)
    requires |idx| == |shape| && k < |shape|
    ensures Offset(idx[k := idx[k] + 1], shape) == Offset(idx, shape) + Size(shape[..k])
  {
    var up := idx[k := idx[k] + 1];
    if k == 0 {
      assert up[1..] == idx[1..] && shape[..0] == [];
    } else {
      Strides(idx[1..], shape[1..], k - 1);
      assert up[1..] == idx[1..][k - 1 := idx[1..][k - 1] + 1];
      assert shape[..k] == [shape[0]] + shape[1..][..k - 1];
      Distribute(shape[0], Offset(idx[1..], shape[1..]), Size(shape[1..][..k - 1]));
    }
  }

  lemma Distribute(a: nat, b: nat, c: nat)
    ensures a * (b + c) == a * b + a * c
  {
  }

  // ---- a permuted shape has the same number of elements ----

  function Without<T>(s: seq<T>, k: nat): (t: seq<T>)
    requires k < |s|
    ensures |t| == |s| - 1
  {
    s[..k] + s[k + 1..]
  }

  lemma WithoutEntries<T>(s: seq<T>, k: nat)
    requires k < |s|
    ensures multiset(Without(s, k)) == multiset(s) - multiset{s[k]}
  {
    assert s == s[..k] + [s[k]] + s[k + 1..];
  }

  lemma {:induction false} SizeWithout(s: Shape, k: nat)
    requires k < |s|
    ensures Size(s) == s[k] * Size(Without(s, k))
  {
    var t := Without(s, k);
    if k == 0 {
      assert t == s[1..];
    } else {
      SizeWithout(s[1..], k - 1);
      assert Without(s[1..], k - 1) == t[1..];
      MulSwap(s[0], s[k], Size(t[1..]));
    }
  }

  lemma MulSwap(a: nat, b: nat, c: nat)
    ensures a * (b * c) == b * (a * c)
  {
  }

  predicate Indexes(p: seq<nat>, n: nat) {
    forall i | 0 <= i < |p| :: p[i] < n
  }

  lemma GatherWithout(shape: Shape, q: seq<nat>, k: nat)
    requires Indexes(q, |shape|) && k < |q|
    ensures Indexes(Without(q, k), |shape|)
    ensures Size(Gather(shape, q)) == shape[q[k]] * Size(Gather(shape, Without(q, k)))
  {
    SizeWithout(Gather(shape, q), k);
    assert Without(Gather(shape, q), k) == Gather(shape, Without(q, k));
  }

  /** Reading a shape through two index lists with the same entries gives the same size. */
  lemma {:induction false} SizeOfRearranged(shape: Shape, p: seq<nat>, q: seq<nat>)
    requires Indexes(p, |shape|) && Indexes(q, |shape|)
    requires multiset(p) == multiset(q)
    ensures Size(Gather(shape, p)) == Size(Gather(shape, q))
    decreases |p|
  {
    if p == [] {
      assert |multiset(q)| == 0;
    } else {
      assert p[0] in multiset(q);
      var k :| 0 <= k < |q| && q[k] == p[0];
      WithoutEntries(p, 0);
      WithoutEntries(q, k);
      GatherWithout(shape, p, 0);
      GatherWithout(shape, q, k);
      SizeOfRearranged(shape, Without(p, 0), Without(q, k));
    }
  }

  lemma PermEntries(p: seq<nat>)
    requires IsPerm(p)
    ensures multiset(p) == multiset(Identity(|p|))
  {
    var id := Identity(|p|);
    forall v: nat ensures multiset(p)[v] == multiset(id)[v] {
      if v < |p| {
        Surjective(p, v);
        assert id[v] == v;
        OccursOnce(p, v);
        OccursOnce(id, v);
      } else {
        assert v !in p && v !in id;
      }
    }
  }

  lemma OccursOnce(p: seq<nat>, v: nat)
    requires Injective(p) && v in p
    ensures multiset(p)[v] == 1
  {
    var k :| 0 <= k < |p| && p[k] == v;
    assert p == p[..k] + [v] + p[k + 1..];
    assert v !in p[..k];
    assert v !in p[k + 1..];
  }

  /** Permuting the dimensions conserves the number of elements, for every rank. */
  lemma SizeConserved(shape: Shape, p: seq<nat>)
    requires IsPerm(p) && |p| == |shape|
    ensures Size(Gather(shape, p)) == Size(shape)
  {
    PermEntries(p);
    SizeOfRearranged(shape, p, Identity(|p|));
    GatherIdentity(shape);
  }

  // ---- transposition ----

  datatype Dense<T> = Dense(shape: Shape, flat: seq<T>)

  predicate WellFormed<T>(x: Dense<T>) {
    |x.flat| == Size(x.shape)
  }

  /** Tensor data: a shape and as many elements as it asks for. */
  type Data = x: Dense<real> | WellFormed(x) witness Dense([0], [])

  function At<T>(x: Dense<T>, idx: seq<nat>): (v: T)
    requires WellFormed(x) && ValidIndex(idx, x.shape)
  {
    IndexOfOffset(idx, x.shape);
    x.flat[Offset(idx, x.shape)]
  }

  predicate Fits(p: seq<nat>, shape: Shape) {
    IsPerm(p) && |p| == |shape|
  }

  /** Where element o of the transposed buffer comes from. */
  function SourceOffset(shape: Shape, p: seq<nat>, o: nat): (src: nat)
    requires Fits(p, shape) && o < Size(Gather(shape, p))
    ensures src < Size(shape)
  {
    ReverseInverts(p);
    OffsetOfIndex(o, Gather(shape, p));
    IndexOfOffset(Gather(Index(o, Gather(shape, p)), Reverse(p)), shape);
    Offset(Gather(Index(o, Gather(shape, p)), Reverse(p)), shape)
  }

  function Transpose<T>(x: Dense<T>, p: seq<nat>): (y: Dense<T>)
    requires WellFormed(x) && Fits(p, x.shape)
    ensures WellFormed(y) && y.shape == Gather(x.shape, p)
  {
    var shape := Gather(x.shape, p);
    Dense(shape, seq(Size(shape), o requires 0 <= o < Size(shape) => x.flat[SourceOffset(x.shape, p, o)]))
  }

  lemma GatherValid(idx: seq<nat>, shape: Shape, p: seq<nat>)
    requires ValidIndex(idx, shape) && Fits(p, shape)
    ensures ValidIndex(Gather(idx, p), Gather(shape, p))
  {
  }

  /** Gathering by a permutation and then by its inverse. */
  lemma GatherBack(idx: seq<nat>, p: seq<nat>)
    requires IsPerm(p) && |idx| == |p|
    ensures IsPerm(Reverse(p)) && Gather(Gather(idx, p), Reverse(p)) == idx && Gather(Gather(idx, Reverse(p)), p) == idx
  {
    ReverseInverts(p);
  }

  lemma SourceOfGathered(shape: Shape, p: seq<nat>, idx: seq<nat>)
    requires Fits(p, shape) && ValidIndex(idx, shape)
    ensures Offset(Gather(idx, p), Gather(shape, p)) < Size(Gather(shape, p))
    ensures SourceOffset(shape, p, Offset(Gather(idx, p), Gather(shape, p))) == Offset(idx, shape)
  {
    GatherValid(idx, shape, p);
    IndexOfOffset(Gather(idx, p), Gather(shape, p));
    GatherBack(idx, p);
  }

  /** Every element keeps its value: the element at idx moves to the index whose dimension
      i is dimension p[i] of idx. */
  lemma TransposeAt<T>(x: Dense<T>, p: seq<nat>, idx: seq<nat>)
    requires WellFormed(x) && Fits(p, x.shape) && ValidIndex(idx, x.shape)
    ensures ValidIndex(Gather(idx, p), Gather(x.shape, p))
    ensures At(Transpose(x, p), Gather(idx, p)) == At(x, idx)
  {
    GatherValid(idx, x.shape, p);
    SourceOfGathered(x.shape, p, idx);
  }

  lemma SameElements<T>(x: Dense<T>, y: Dense<T>)
    requires WellFormed(x) && WellFormed(y) && x.shape == y.shape
    requires forall idx: seq<nat> | ValidIndex(idx, x.shape) :: At(x, idx) == At(y, idx)
    ensures x == y
  {
    forall o | 0 <= o < Size(x.shape) ensures x.flat[o] == y.flat[o] {
      OffsetOfIndex(o, x.shape);
      assert At(x, Index(o, x.shape)) == At(y, Index(o, x.shape));
    }
  }

  /** Transposing by a and then by b is transposing once by a.Add(b): same shape, same
      element at every index. */
  lemma TransposeTwice<T>(x: Dense<T>, a: seq<nat>, b: seq<nat>)
    requires WellFormed(x) && Fits(a, x.shape) && IsPerm(b) && |b| == |a|
    ensures Fits(Add(a, b), x.shape)
    ensures Transpose(Transpose(x, a), b) == Transpose(x, Add(a, b))
  {
    AddIsPerm(a, b);
    var c := Add(a, b);
    AddIsGather(a, b);
    GatherGather(x.shape, a, b);
    var y, z := Transpose(Transpose(x, a), b), Transpose(x, c);
    ReverseInverts(c);
    forall idx: seq<nat> | ValidIndex(idx, y.shape) ensures At(y, idx) == At(z, idx) {
      var src := Gather(idx, Reverse(c));
      assert Gather(src, c) == idx;
      assert ValidIndex(src, x.shape);
      TransposeAt(x, c, src);
      TransposeAt(x, a, src);
      TransposeAt(Transpose(x, a), b, Gather(src, a));
      GatherGather(src, a, b);
    }
    SameElements(y, z);
  }

  lemma TransposeIdentity<T>(x: Dense<T>)
    requires WellFormed(x)
    ensures Fits(Identity(|x.shape|), x.shape)
    ensures Transpose(x, Identity(|x.shape|)) == x
  {
    var id := Identity(|x.shape|);
    GatherIdentity(x.shape);
    forall idx: seq<nat> | ValidIndex(idx, x.shape) ensures At(Transpose(x, id), idx) == At(x, idx) {
      TransposeAt(x, id, idx);
      GatherIdentity(idx);
    }
    SameElements(Transpose(x, id), x);
  }

  /** Transposing by p and then by its Reverse restores the tensor, and so does the other
      order. */
  lemma TransposeRoundTrip<T>(x: Dense<T>, p: seq<nat>)
    requires WellFormed(x) && Fits(p, x.shape)
    ensures Fits(Reverse(p), Gather(x.shape, p)) && Fits(Reverse(p), x.shape)
    ensures Transpose(Transpose(x, p), Reverse(p)) == x
    ensures Transpose(Transpose(x, Reverse(p)), p) == x
  {
    GroupLaws(p, p, p);
    TransposeTwice(x, p, Reverse(p));
    TransposeTwice(x, Reverse(p), p);
    TransposeIdentity(x);
  }

  /** The realignment a handler inserts: a tensor held in layout p, transposed by
      p.Reverse().Add(r), is the tensor in layout r. */
  lemma Realign<T>(x: Dense<T>, p: seq<nat>, r: seq<nat>)
    requires WellFormed(x) && Fits(p, x.shape) && Fits(r, x.shape)
    ensures Fits(Add(Reverse(p), r), Gather(x.shape, p))
    ensures Transpose(Transpose(x, p), Add(Reverse(p), r)) == Transpose(x, r)
  {
    RealignVector(p, r);
    TransposeTwice(x, p, Add(Reverse(p), r));
  }

  /** On flat offsets a transposition is a bijection between the two buffers, with the
      transposition by Reverse as its inverse. */
  lemma OffsetBijection(shape: Shape, p: seq<nat>)
    requires Fits(p, shape)
    ensures Size(Gather(shape, p)) == Size(shape)
    ensures Fits(Reverse(p), Gather(shape, p)) && Gather(Gather(shape, p), Reverse(p)) == shape
    ensures forall o | 0 <= o < Size(shape) ::
              SourceOffset(Gather(shape, p), Reverse(p), SourceOffset(shape, p, o)) == o
    ensures forall o | 0 <= o < Size(shape) ::
              SourceOffset(shape, p, SourceOffset(Gather(shape, p), Reverse(p), o)) == o
  {
    SizeConserved(shape, p);
    ReverseInverts(p);
    ReverseReverse(p);
    var q, shape' := Reverse(p), Gather(shape, p);
    assert Gather(shape', q) == shape;
    forall o | 0 <= o < Size(shape) ensures SourceOffset(shape', q, SourceOffset(shape, p, o)) == o {
      SourceOffsetInverse(shape, p, o);
    }
    forall o | 0 <= o < Size(shape) ensures SourceOffset(shape, p, SourceOffset(shape', q, o)) == o {
      SourceOffsetInverse(shape', q, o);
    }
  }

  lemma SourceIndex(shape: Shape, p: seq<nat>, o: nat)
    requires Fits(p, shape) && o < Size(Gather(shape, p))
    ensures IsPerm(Reverse(p))
    ensures Index(SourceOffset(shape, p, o), shape) == Gather(Index(o, Gather(shape, p)), Reverse(p))
  {
    ReverseInverts(p);
    OffsetOfIndex(o, Gather(shape, p));
    IndexOfOffset(Gather(Index(o, Gather(shape, p)), Reverse(p)), shape);
  }

  lemma IndexInjective(a: nat, b: nat, shape: Shape)
    requires a < Size(shape) && b < Size(shape) && Index(a, shape) == Index(b, shape)
    ensures a == b
  {
    OffsetOfIndex(a, shape);
    OffsetOfIndex(b, shape);
  }

  lemma SourceOffsetInverse(shape: Shape, p: seq<nat>, o: nat)
    requires Fits(p, shape) && o < Size(Gather(shape, p))
    ensures Fits(Reverse(p), Gather(shape, p)) && Gather(Gather(shape, p), Reverse(p)) == shape
    ensures SourceOffset(Gather(shape, p), Reverse(p), SourceOffset(shape, p, o)) == o
  {
    var q, shape' := Reverse(p), Gather(shape, p);
    GatherBack(shape, p);
    ReverseReverse(p);
    var o' := SourceOffset(shape, p, o);
    SourceIndex(shape, p, o);
    SourceIndex(shape', q, o');
    GatherBack(Index(o, shape'), p);
    IndexInjective(SourceOffset(shape', q, o'), o, shape');
  }
}
