/** Element-wise arithmetic on tensors of different shapes.  Shapes are aligned at dimension
    0; a missing dimension counts as one, and a dimension of one is read at index 0 whatever
    the position asked for. */
module Broadcast {
  import Permutations
  import opened TensorLayout

  /** s can be stretched to full. */
  predicate Stretches(s: Shape, full: Shape) {
    |s| <= |full| && forall k | 0 <= k < |s| :: s[k] == 1 || s[k] == full[k]
  }

  /** Where a stretched tensor of shape s is read for position idx. */
  function Clip(idx: seq<nat>, s: Shape): (c: seq<nat>)
    requires |s| <= |idx|
    ensures |c| == |s| && forall k | 0 <= k < |s| :: c[k] == if s[k] == 1 then 0 else idx[k]
  {
    seq(|s|, k requires 0 <= k < |s| => if s[k] == 1 then 0 else idx[k])
  }

  /** The value of a tensor at a position of a larger shape. */
  function Read(x: Data, idx: seq<nat>, full: Shape): real
    requires Stretches(x.shape, full) && ValidIndex(idx, full)
  {
    At(x, Clip(idx, x.shape))
  }

  /** The common shape of two operands. */
  function Join(s: Shape, t: Shape): (r: Shape)
    ensures |r| == if |s| < |t| then |t| else |s|
  {
    var rank := if |s| < |t| then |t| else |s|;
    seq(rank, k requires 0 <= k < rank =>
      if k >= |s| then t[k] else if k >= |t| then s[k] else if s[k] == 1 then t[k] else s[k])
  }

  predicate Joinable(s: Shape, t: Shape) {
    forall k | 0 <= k < |s| && k < |t| :: s[k] == 1 || t[k] == 1 || s[k] == t[k]
  }

  /** Read, for use where the shapes are not known to agree. */
  function ReadOr(x: Data, idx: seq<nat>, full: Shape): real {
    if Stretches(x.shape, full) && ValidIndex(idx, full) then Read(x, idx, full) else 0.0
  }

  function Combined(f: (real, real) -> real, x: Data, y: Data, idx: seq<nat>, full: Shape): real {
    f(ReadOr(x, idx, full), ReadOr(y, idx, full))
  }

  /** A two-operand element-wise operation. */
  function Binary(f: (real, real) -> real, x: Data, y: Data): (z: Data)
    ensures z.shape == Join(x.shape, y.shape)
  {
    var full := Join(x.shape, y.shape);
    Dense(full, seq(Size(full), o requires 0 <= o < Size(full) => Combined(f, x, y, Index(o, full), full)))
  }

  lemma BinaryElement(f: (real, real) -> real, x: Data, y: Data, full: Shape, idx: seq<nat>)
    requires full == Join(x.shape, y.shape) && ValidIndex(idx, full)
    ensures At(Binary(f, x, y), idx) == Combined(f, x, y, idx, full)
  {
    IndexOfOffset(idx, full);
  }

  lemma BinaryAt(f: (real, real) -> real, x: Data, y: Data, idx: seq<nat>)
    requires Joinable(x.shape, y.shape) && ValidIndex(idx, Join(x.shape, y.shape))
    ensures var full := Join(x.shape, y.shape);
            && Stretches(x.shape, full) && Stretches(y.shape, full)
            && At(Binary(f, x, y), idx) == f(Read(x, idx, full), Read(y, idx, full))
  {
    BinaryElement(f, x, y, Join(x.shape, y.shape), idx);
  }

  function Unary(f: real -> real, x: Data): (z: Data)
    ensures z.shape == x.shape
  {
    Dense(x.shape, seq(|x.flat|, o requires 0 <= o < |x.flat| => f(x.flat[o])))
  }

  /** Reading through an intermediate shape is reading directly. */
  lemma ReadThrough(x: Data, mid: Shape, full: Shape, idx: seq<nat>)
    requires Stretches(x.shape, mid) && Stretches(mid, full) && ValidIndex(idx, full)
    ensures Stretches(x.shape, full) && ValidIndex(Clip(idx, mid), mid)
    ensures Read(x, Clip(idx, mid), mid) == Read(x, idx, full)
  {
    assert Clip(Clip(idx, mid), x.shape) == Clip(idx, x.shape);
  }

  /** An element-wise operation acts position by position, in any shape both operands can be
      stretched to. */
  lemma ReadBinary(f: (real, real) -> real, x: Data, y: Data, full: Shape, idx: seq<nat>)
    requires Stretches(x.shape, full) && Stretches(y.shape, full) && ValidIndex(idx, full)
    ensures Stretches(Binary(f, x, y).shape, full)
    ensures Read(Binary(f, x, y), idx, full) == f(Read(x, idx, full), Read(y, idx, full))
  {
    var mid := Join(x.shape, y.shape);
    BinaryAt(f, x, y, Clip(idx, mid));
    ReadThrough(x, mid, full, idx);
    ReadThrough(y, mid, full, idx);
  }

  lemma ClipSelf(idx: seq<nat>, s: Shape)
    requires ValidIndex(idx, s)
    ensures Clip(idx, s) == idx
  {
  }

  lemma ReadUnary(f: real -> real, x: Data, full: Shape, idx: seq<nat>)
    requires Stretches(x.shape, full) && ValidIndex(idx, full)
    ensures Read(Unary(f, x), idx, full) == f(Read(x, idx, full))
  {
    IndexOfOffset(Clip(idx, x.shape), x.shape);
  }

  lemma ReadSelf(x: Data, idx: seq<nat>)
    requires ValidIndex(idx, x.shape)
    ensures Stretches(x.shape, x.shape) && Read(x, idx, x.shape) == At(x, idx)
  {
    ClipSelf(idx, x.shape);
  }

  // ---- element-wise operations commute with layouts ----

  lemma ClipGather(idx: seq<nat>, s: Shape, p: seq<nat>)
    requires Permutations.IsPerm(p) && |p| == |s| == |idx|
    ensures Clip(Permutations.Gather(idx, p), Permutations.Gather(s, p)) == Permutations.Gather(Clip(idx, s), p)
  {
  }

  /** Stretching and transposing commute. */
  lemma ReadTransposed(x: Data, p: seq<nat>, full: Shape, idx: seq<nat>)
    requires Fits(p, x.shape) && |full| == |x.shape| && Stretches(x.shape, full) && ValidIndex(idx, full)
    ensures ValidIndex(Permutations.Gather(idx, p), Permutations.Gather(full, p))
    ensures Stretches(Transpose(x, p).shape, Permutations.Gather(full, p))
    ensures Read(Transpose(x, p), Permutations.Gather(idx, p), Permutations.Gather(full, p)) == Read(x, idx, full)
  {
    ClipGather(idx, x.shape, p);
    TransposeAt(x, p, Clip(idx, x.shape));
  }

  /** Permuting both operands of an element-wise operation permutes its result, whatever is
      broadcast. */
  lemma BinaryCommutes(f: (real, real) -> real, x: Data, y: Data, p: seq<nat>)
    requires |x.shape| == |y.shape| && Joinable(x.shape, y.shape) && Fits(p, x.shape)
    ensures Fits(p, Binary(f, x, y).shape)
    ensures Binary(f, Transpose(x, p), Transpose(y, p)) == Transpose(Binary(f, x, y), p)
  {
    var full := Join(x.shape, y.shape);
    var a, b := Binary(f, Transpose(x, p), Transpose(y, p)), Transpose(Binary(f, x, y), p);
    assert a.shape == b.shape == Permutations.Gather(full, p);
    Permutations.ReverseInverts(p);
    forall idx: seq<nat> | ValidIndex(idx, a.shape) ensures At(a, idx) == At(b, idx) {
      var src := Permutations.Gather(idx, Permutations.Reverse(p));
      assert Permutations.Gather(src, p) == idx && ValidIndex(src, full);
      BinaryCommutesAt(f, x, y, p, src);
    }
    SameElements(a, b);
  }

  lemma BinaryCommutesAt(f: (real, real) -> real, x: Data, y: Data, p: seq<nat>, src: seq<nat>)
    requires |x.shape| == |y.shape| && Joinable(x.shape, y.shape) && Fits(p, x.shape)
    requires ValidIndex(src, Join(x.shape, y.shape))
    ensures var idx := Permutations.Gather(src, p);
            var full' := Permutations.Gather(Join(x.shape, y.shape), p);
            && ValidIndex(idx, full')
            && Binary(f, Transpose(x, p), Transpose(y, p)).shape == full'
            && At(Binary(f, Transpose(x, p), Transpose(y, p)), idx) == At(Transpose(Binary(f, x, y), p), idx)
  {
    var full := Join(x.shape, y.shape);
    var idx, full' := Permutations.Gather(src, p), Permutations.Gather(full, p);
    assert Join(Transpose(x, p).shape, Transpose(y, p).shape) == full';
    ReadTransposed(x, p, full, src);
    ReadTransposed(y, p, full, src);
    ReadBinary(f, Transpose(x, p), Transpose(y, p), full', idx);
    ReadSelf(Binary(f, Transpose(x, p), Transpose(y, p)), idx);
    ReadBinary(f, x, y, full, src);
    ReadSelf(Binary(f, x, y), src);
    TransposeAt(Binary(f, x, y), p, src);
  }

  // ---- an operand of lower rank ----

  function Units(n: nat): (s: Shape)
    ensures |s| == n && forall k | 0 <= k < n :: s[k] == 1
  {
    seq(n, k => 1)
  }

  function Origins(n: nat): (c: seq<nat>)
    ensures |c| == n && forall k | 0 <= k < n :: c[k] == 0
  {
    seq(n, k => 0)
  }

  lemma {:induction false} UnitsSize(n: nat, c: seq<nat>)
    requires c == Origins(n)
    ensures Size(Units(n)) == 1 && Offset(c, Units(n)) == 0
  {
    if n > 0 {
      assert Units(n)[1..] == Units(n - 1) && c[1..] == Origins(n - 1);
      UnitsSize(n - 1, c[1..]);
    }
  }

  lemma {:induction false} PaddedOffset(s: Shape, n: nat, c: seq<nat>)
    requires ValidIndex(c, s)
    ensures Size(s + Units(n)) == Size(s) && Offset(c + Origins(n), s + Units(n)) == Offset(c, s)
    ensures ValidIndex(c + Origins(n), s + Units(n))
  {
    if s == [] {
      assert s + Units(n) == Units(n) && c + Origins(n) == Origins(n);
      UnitsSize(n, Origins(n));
    } else {
      assert (s + Units(n))[1..] == s[1..] + Units(n) && (c + Origins(n))[1..] == c[1..] + Origins(n);
      PaddedOffset(s[1..], n, c[1..]);
    }
  }

  lemma {:induction false} PaddedSize(s: Shape, n: nat)
    ensures Size(s + Units(n)) == Size(s)
  {
    if s == [] {
      assert s + Units(n) == Units(n);
      UnitsSize(n, Origins(n));
    } else {
      assert (s + Units(n))[1..] == s[1..] + Units(n);
      PaddedSize(s[1..], n);
    }
  }

  /** A tensor with its shape filled up with ones, the data unchanged. */
  function Expanded(y: Data, rank: nat): (z: Data)
    requires |y.shape| <= rank
    ensures |z.shape| == rank && z.flat == y.flat
  {
    PaddedSize(y.shape, rank - |y.shape|);
    Dense(y.shape + Units(rank - |y.shape|), y.flat)
  }

  /** Expanding changes nothing that is read. */
  lemma ReadExpanded(y: Data, full: Shape, idx: seq<nat>)
    requires Stretches(y.shape, full) && ValidIndex(idx, full)
    ensures Stretches(Expanded(y, |full|).shape, full) && Read(Expanded(y, |full|), idx, full) == Read(y, idx, full)
  {
    var n := |full| - |y.shape|;
    PaddedOffset(y.shape, n, Clip(idx, y.shape));
    assert Clip(idx, y.shape + Units(n)) == Clip(idx, y.shape) + Origins(n);
  }

  /** Operands of different rank: expanding the lower one, the second, does not change the
      result. */
  lemma BinaryExpanded(f: (real, real) -> real, x: Data, y: Data)
    requires |y.shape| <= |x.shape| && Joinable(x.shape, y.shape)
    ensures Joinable(x.shape, Expanded(y, |x.shape|).shape)
    ensures Binary(f, x, Expanded(y, |x.shape|)) == Binary(f, x, y)
  {
    var full, e := Join(x.shape, y.shape), Expanded(y, |x.shape|);
    assert Join(x.shape, e.shape) == full;
    forall idx: seq<nat> | ValidIndex(idx, full) ensures At(Binary(f, x, e), idx) == At(Binary(f, x, y), idx) {
      BinaryAt(f, x, y, idx);
      ReadExpanded(y, full, idx);
      BinaryAt(f, x, e, idx);
    }
    SameElements(Binary(f, x, e), Binary(f, x, y));
  }

  /** An operand of lower rank, expanded, may be permuted with the other. */
  lemma ExpandedCommutes(f: (real, real) -> real, x: Data, y: Data, p: seq<nat>)
    requires |y.shape| <= |x.shape| && Joinable(x.shape, y.shape) && Fits(p, x.shape)
    ensures Fits(p, Binary(f, x, y).shape) && Fits(p, Expanded(y, |x.shape|).shape)
    ensures Binary(f, Transpose(x, p), Transpose(Expanded(y, |x.shape|), p)) == Transpose(Binary(f, x, y), p)
  {
    BinaryExpanded(f, x, y);
    BinaryCommutes(f, x, Expanded(y, |x.shape|), p);
  }

  /** The same for a single operand. */
  lemma UnaryCommutes(f: real -> real, x: Data, p: seq<nat>)
    requires Fits(p, x.shape)
    ensures Fits(p, Unary(f, x).shape)
    ensures Unary(f, Transpose(x, p)) == Transpose(Unary(f, x), p)
  {
    var a, b := Unary(f, Transpose(x, p)), Transpose(Unary(f, x), p);
    Permutations.ReverseInverts(p);
    forall idx: seq<nat> | ValidIndex(idx, a.shape) ensures At(a, idx) == At(b, idx) {
      var src := Permutations.Gather(idx, Permutations.Reverse(p));
      assert Permutations.Gather(src, p) == idx && ValidIndex(src, x.shape);
      ReadSelf(a, idx);
      ReadUnary(f, Transpose(x, p), a.shape, idx);
      ReadSelf(Transpose(x, p), idx);
      TransposeAt(x, p, src);
      TransposeAt(Unary(f, x), p, src);
      ReadSelf(Unary(f, x), src);
      ReadUnary(f, x, x.shape, src);
      ReadSelf(x, src);
    }
    SameElements(a, b);
  }
}
