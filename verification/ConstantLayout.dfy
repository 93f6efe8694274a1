/** Re-laying constant data.  The host-side transpose is given a permutation looked up in a
    table; it is the right one for every constant exactly for four permute vectors. */
module ConstantLayout {
  import opened Permutations
  import opened TensorLayout
  import opened LayoutWorklist
  import opened LayoutHandlers

  /** A tensor of two entries in every dimension whose value is one of its coordinates. */
  function Cube(n: nat): (s: Shape)
    ensures |s| == n && forall k | 0 <= k < n :: s[k] == 2
  {
    seq(n, k => 2)
  }

  function Coordinate(n: nat, k: nat): (x: Data)
    requires k < n
    ensures x.shape == Cube(n)
  {
    Dense(Cube(n), seq(Size(Cube(n)), o requires 0 <= o < Size(Cube(n)) => Index(o, Cube(n))[k] as real))
  }

  lemma CoordinateAt(n: nat, k: nat, idx: seq<nat>)
    requires k < n && ValidIndex(idx, Cube(n))
    ensures At(Coordinate(n, k), idx) == idx[k] as real
  {
    IndexOfOffset(idx, Cube(n));
  }

  predicate Permutes(p: seq<nat>, n: nat) {
    IsPerm(p) && |p| == n
  }

  lemma CubeStays(n: nat, p: seq<nat>)
    requires Permutes(p, n)
    ensures Gather(Cube(n), p) == Cube(n)
  {
  }

  lemma GatherInCube(n: nat, y: seq<nat>, q: seq<nat>)
    requires Permutes(q, n) && ValidIndex(y, Cube(n))
    ensures ValidIndex(Gather(y, q), Cube(n))
  {
    var z := Gather(y, q);
    forall k | 0 <= k < |z| ensures z[k] < Cube(n)[k] {
      assert z[k] == y[q[k]];
    }
  }

  lemma GatherAt(src: seq<nat>, p: seq<nat>, i: nat)
    requires IsPerm(p) && |src| == |p| && i < |p|
    ensures src[p[i]] == Gather(src, p)[i]
  {
  }

  /** The index a transposition by p brings to y. */
  lemma SourceIndexOf(n: nat, p: seq<nat>, i: nat, y: seq<nat>) returns (src: seq<nat>)
    requires Permutes(p, n) && i < n && ValidIndex(y, Cube(n))
    ensures ValidIndex(src, Cube(n)) && Gather(src, p) == y && src[p[i]] == y[i]
  {
    GatherBack(y, p);
    src := Gather(y, Reverse(p));
    GatherInCube(n, y, Reverse(p));
    GatherAt(src, p, i);
  }

  /** Coordinate k's tensor, transposed by p. */
  function Moved(n: nat, p: seq<nat>, k: nat): (x: Data)
    requires Permutes(p, n) && k < n
    ensures x.shape == Cube(n)
  {
    CubeStays(n, p);
    Transpose(Coordinate(n, k), p)
  }

  /** After transposing by p, coordinate p[i] is dimension i. */
  lemma CoordinateMoves(n: nat, p: seq<nat>, k: nat, i: nat, y: seq<nat>)
    requires Permutes(p, n) && i < n && p[i] == k && ValidIndex(y, Cube(n))
    ensures At(Moved(n, p, k), y) == y[i] as real
  {
    CubeStays(n, p);
    var src := SourceIndexOf(n, p, i, y);
    TransposeAt(Coordinate(n, k), p, src);
    CoordinateAt(n, k, src);
  }

  function Unit(n: nat, i: nat): (y: seq<nat>)
    ensures ValidIndex(y, Cube(n)) && forall m | 0 <= m < n :: y[m] == if m == i then 1 else 0
  {
    seq(n, m => if m == i then 1 else 0)
  }

  /** Some dimension goes to different places. */
  lemma Disagreement(p: seq<nat>, q: seq<nat>) returns (i: nat, j: nat)
    requires IsPerm(p) && IsPerm(q) && |p| == |q| && p != q
    ensures i < |p| && j < |p| && i != j && p[i] == q[j]
  {
    i :| 0 <= i < |p| && p[i] != q[i];
    Surjective(q, p[i]);
    j :| 0 <= j < |q| && q[j] == p[i];
  }

  /** Two different permutations move some tensor differently. */
  lemma PermutationsDiffer(n: nat, p: seq<nat>, q: seq<nat>) returns (k: nat, y: seq<nat>)
    requires Permutes(p, n) && Permutes(q, n) && p != q
    ensures k < n && ValidIndex(y, Cube(n)) && At(Moved(n, p, k), y) != At(Moved(n, q, k), y)
  {
    hide At; hide Moved;
    var i, j := Disagreement(p, q);
    k, y := p[i], Unit(n, i);
    CoordinateMoves(n, p, k, i, y);
    CoordinateMoves(n, q, k, j, y);
  }

  lemma SameFlatReads(x: Data, y: Data, idx: seq<nat>)
    requires x.shape == y.shape && x.flat == y.flat && ValidIndex(idx, x.shape)
    ensures At(x, idx) == At(y, idx)
  {
  }

  lemma PermutedCoordinate(n: nat, pv: Permute, q: Permute, k: nat)
    requires Permutes(pv, n) && Permutes(q, n) && k < n && |LookedUp(pv)| == n && q == Mirror(LookedUp(pv))
    ensures PermutedConstant(Coordinate(n, k), pv).shape == Cube(n)
    ensures PermutedConstant(Coordinate(n, k), pv).flat == Moved(n, q, k).flat
  {
    CubeStays(n, pv);
  }

  /** A constant moved by another permutation is wrong where the two disagree. */
  lemma WrongAt(n: nat, pv: Permute, q: Permute, k: nat, y: seq<nat>)
    requires Permutes(pv, n) && Permutes(q, n) && k < n && |LookedUp(pv)| == n && q == Mirror(LookedUp(pv))
    requires ValidIndex(y, Cube(n)) && At(Moved(n, pv, k), y) != At(Moved(n, q, k), y)
    ensures PermutedConstant(Coordinate(n, k), pv) != Moved(n, pv, k)
  {
    PermutedCoordinate(n, pv, q, k);
    SameFlatReads(PermutedConstant(Coordinate(n, k), pv), Moved(n, q, k), y);
  }

  function Full(n: nat): (x: Data)
    ensures x.shape == Cube(n) && forall o | 0 <= o < |x.flat| :: x.flat[o] == 1.0
  {
    Dense(Cube(n), seq(Size(Cube(n)), o => 1.0))
  }

  lemma ReadsValue(x: Data, idx: seq<nat>, value: real)
    requires ValidIndex(idx, x.shape) && forall o | 0 <= o < |x.flat| :: x.flat[o] == value
    ensures At(x, idx) == value
  {
    IndexOfOffset(idx, x.shape);
  }

  /** A blank buffer is not a transposed tensor of ones. */
  lemma BlankWrong(pv: Permute)
    requires IsPerm(pv) && |pv| < |LookedUp(pv)|
    ensures Fits(pv, Full(|pv|).shape) && PermutedConstant(Full(|pv|), pv) != Transpose(Full(|pv|), pv)
  {
    var n, idx := |pv|, Unit(|pv|, |pv|);
    CubeStays(n, pv);
    GatherInCube(n, idx, pv);
    TransposeAt(Full(n), pv, idx);
    ReadsValue(Full(n), idx, 1.0);
    ReadsValue(PermutedConstant(Full(n), pv), Gather(idx, pv), 0.0);
  }

  /** The looked-up permutation re-lays every constant rightly exactly when it mirrors the
      permute vector: not for a vector outside the table, and never for one with fewer
      entries than the permutation looked up. */
  lemma ConstantRightExactlyWhen(pv: Permute)
    requires IsPerm(pv) && |pv| <= |LookedUp(pv)|
    ensures (forall x: Data | Fits(pv, x.shape) :: PermutedConstant(x, pv) == Transpose(x, pv))
            <==> Mirror(LookedUp(pv)) == pv
  {
    var q := Mirror(LookedUp(pv));
    MirrorIsPerm(LookedUp(pv));
    if q == pv {
      forall x: Data | Fits(pv, x.shape) ensures PermutedConstant(x, pv) == Transpose(x, pv) {
        SizeConserved(x.shape, pv);
      }
    } else if |pv| < |LookedUp(pv)| {
      BlankWrong(pv);
    } else {
      var k, y := PermutationsDiffer(|pv|, pv, q);
      WrongAt(|pv|, pv, q, k, y);
      assert PermutedConstant(Coordinate(|pv|, k), pv) != Transpose(Coordinate(|pv|, k), pv);
    }
  }

  lemma MirrorTable()
    ensures Mirror([3, 2, 0, 1]) == [2, 3, 1, 0]
    ensures Mirror([2, 3, 0, 1]) == [2, 3, 0, 1]
    ensures Mirror([4, 3, 0, 1, 2]) == [2, 3, 4, 1, 0]
    ensures Mirror([0, 3, 1, 2]) == [1, 2, 0, 3]
  {
  }

  /** And it mirrors it for four vectors. */
  lemma MirroredVectors(pv: Permute)
    requires IsPerm(pv)
    ensures Mirror(LookedUp(pv)) == pv <==>
              pv == [1, 2, 0, 3] || pv == [2, 3, 1, 0] || pv == [2, 3, 0, 1] || pv == [2, 3, 4, 1, 0]
  {
    MirrorTable();
    assert LookedUp([1, 2, 0, 3]) == [0, 3, 1, 2];
  }

  /** The permutation the code inserts is not right for all it could be asked for: the
      inverse of the pooling layout is one it gets wrong. */
  lemma InverseLayoutWrong() returns (x: Data)
    ensures Fits([2, 0, 1, 3], x.shape) && PermutedConstant(x, [2, 0, 1, 3]) != Transpose(x, [2, 0, 1, 3])
  {
    var pv: Permute := [2, 0, 1, 3];
    assert LookedUp(pv) == [0, 3, 1, 2];
    assert pv[0] == 2 && [1, 2, 0, 3][0] == 1 && [2, 3, 1, 0][1] == 3 && [2, 3, 0, 1][1] == 3;
    MirroredVectors(pv);
    ConstantRightExactlyWhen(pv);
    x :| Fits(pv, x.shape) && PermutedConstant(x, pv) != Transpose(x, pv);
  }
}
