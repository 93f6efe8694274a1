/** Permute vectors as values: a sequence p stands for "dimension i of the result is
    dimension p[i] of the operand".  Everything the layout pass does with permute vectors
    (inverse, composition, identity test, permuting a shape) is a statement about the two
    functions Gather and Reverse below. */
module Permutations {

  /** Every entry is an index into p. */
  predicate InRange(p: seq<nat>) {
    forall i | 0 <= i < |p| :: p[i] < |p|
  }

  predicate Injective(p: seq<nat>) {
    forall i, j | 0 <= i < j < |p| :: p[i] != p[j]
  }

  predicate IsPerm(p: seq<nat>) {
    InRange(p) && Injective(p)
  }

  /** The vector the default constructor and ReInitialize store. */
  function Identity(n: nat): (p: seq<nat>)
    ensures |p| == n && forall i | 0 <= i < n :: p[i] == i
  {
    seq(n, i => i)
  }

  /** s read through p. */
  function Gather<T>(s: seq<T>, p: seq<nat>): (r: seq<T>)
    requires forall i | 0 <= i < |p| :: p[i] < |s|
    ensures |r| == |p| && forall i | 0 <= i < |p| :: r[i] == s[p[i]]
  {
    seq(|p|, i requires 0 <= i < |p| => s[p[i]])
  }

  /** The first k stores of the scatter loop, starting from the identity. */
  function Scatter(p: seq<nat>, k: nat): (r: seq<nat>)
    requires InRange(p) && k <= |p|
    ensures |r| == |p|
  {
    if k == 0 then Identity(|p|) else Scatter(p, k - 1)[p[k - 1] := k - 1]
  }

  function Reverse(p: seq<nat>): (r: seq<nat>)
    requires InRange(p)
    ensures |r| == |p|
  {
    Scatter(p, |p|)
  }

  /** Composition with an operand of at most the same rank; slots past the operand keep
      the identity, as in a freshly constructed vector. */
  function Add(a: seq<nat>, b: seq<nat>): (r: seq<nat>)
    requires |b| <= |a| && forall i | 0 <= i < |b| :: b[i] < |a|
    ensures |r| == |a|
  {
    seq(|a|, i requires 0 <= i < |a| => if i < |b| then a[b[i]] else i)
  }

  lemma AddIsGather(a: seq<nat>, b: seq<nat>)
    requires |a| == |b| && InRange(b)
    ensures Add(a, b) == Gather(a, b)
  {
  }

  // ---- pigeonhole ----

  function Values(p: seq<nat>): (s: set<nat>)
    ensures forall v :: v in s <==> v in p
  {
    set i | 0 <= i < |p| :: p[i]
  }

  lemma {:induction false} ValuesSize(p: seq<nat>)
    requires Injective(p)
    ensures |Values(p)| == |p|
  {
    if p == [] {
      assert Values(p) == {};
    } else {
      var q := p[..|p| - 1];
      ValuesSize(q);
      assert p == q + [p[|p| - 1]];
      assert Values(p) == Values(q) + {p[|p| - 1]};
    }
  }

  lemma FullSubset(a: set<nat>, b: set<nat>)
    requires a <= b && |a| == |b|
    ensures a == b
  {
    assert |b - a| == |b| - |a|;
  }

  /** Pigeonhole: an injective vector into its own index range hits every index, so the
      scatter loop leaves no slot at its initial value. */
  lemma Surjective(p: seq<nat>, v: nat)
    requires IsPerm(p) && v < |p|
    ensures exists i :: 0 <= i < |p| && p[i] == v
  {
    var all := Identity(|p|);
    ValuesSize(p);
    ValuesSize(all);
    assert forall i | 0 <= i < |p| :: all[p[i]] == p[i];
    FullSubset(Values(p), Values(all));
    assert all[v] == v;
    assert v in Values(p);
  }

  // ---- Reverse ----

  /** What the scatter loop has established after k stores. */
  lemma {:induction false} ScatterAt(p: seq<nat>, k: nat, i: nat)
    requires InRange(p) && Injective(p) && i < k <= |p|
    ensures Scatter(p, k)[p[i]] == i
  {
    if i < k - 1 {
      ScatterAt(p, k - 1, i);
      assert p[i] != p[k - 1];
    }
  }

  /** Reverse is a permutation and a two-sided inverse. */
  lemma ReverseInverts(p: seq<nat>)
    requires IsPerm(p)
    ensures IsPerm(Reverse(p))
    ensures forall i | 0 <= i < |p| :: Reverse(p)[p[i]] == i
    ensures forall v | 0 <= v < |p| :: p[Reverse(p)[v]] == v
  {
    var r := Reverse(p);
    forall i | 0 <= i < |p| ensures r[p[i]] == i {
      ScatterAt(p, |p|, i);
    }
    forall v | 0 <= v < |p| ensures r[v] < |p| && p[r[v]] == v {
      Surjective(p, v);
      var i :| 0 <= i < |p| && p[i] == v;
      assert r[p[i]] == i;
    }
    assert Injective(r) by {
      forall i, j | 0 <= i < j < |r| ensures r[i] != r[j] {
        assert p[r[i]] == i && p[r[j]] == j;
      }
    }
  }

  /** Reverse undoes a vector exactly when the vector has no repeated entry; the
      constructor that takes an initialiser list does not check this. */
  lemma ReverseUndoesIffInjective(p: seq<nat>)
    requires InRange(p)
    ensures (forall i | 0 <= i < |p| :: Reverse(p)[p[i]] == i) <==> Injective(p)
  {
    if Injective(p) {
      ReverseInverts(p);
    } else {
      var i, j :| 0 <= i < j < |p| && p[i] == p[j];
      assert Reverse(p)[p[i]] == Reverse(p)[p[j]];
    }
  }

  // ---- group laws ----

  lemma IdentityIsPerm(n: nat)
    ensures IsPerm(Identity(n))
  {
  }

  lemma GatherIdentity<T>(s: seq<T>)
    ensures Gather(s, Identity(|s|)) == s
  {
  }

  lemma GatherGather<T>(s: seq<T>, a: seq<nat>, b: seq<nat>)
    requires forall i | 0 <= i < |a| :: a[i] < |s|
    requires forall i | 0 <= i < |b| :: b[i] < |a|
    ensures Gather(Gather(s, a), b) == Gather(s, Gather(a, b))
  {
  }

  lemma AddIsPerm(a: seq<nat>, b: seq<nat>)
    requires IsPerm(a) && IsPerm(b) && |a| == |b|
    ensures IsPerm(Add(a, b))
  {
    forall i, j | 0 <= i < j < |a| ensures Add(a, b)[i] != Add(a, b)[j] {
      assert b[i] != b[j];
      if b[i] < b[j] { assert a[b[i]] != a[b[j]]; } else { assert a[b[j]] != a[b[i]]; }
    }
  }

  /** Two vectors whose composition is the identity are each other's Reverse. */
  lemma InverseUnique(p: seq<nat>, q: seq<nat>)
    requires IsPerm(p) && |p| == |q| && InRange(q)
    requires Add(p, q) == Identity(|p|)
    ensures q == Reverse(p)
  {
    ReverseInverts(p);
    forall i | 0 <= i < |p| ensures q[i] == Reverse(p)[i] {
      assert Add(p, q)[i] == i;
      assert Reverse(p)[p[q[i]]] == q[i];
    }
  }

  /** Permute vectors of one rank form a group under Add: closed, associative, with the
      aligned vector neutral and Reverse the inverse on both sides. */
  lemma GroupLaws(a: seq<nat>, b: seq<nat>, c: seq<nat>)
    requires IsPerm(a) && IsPerm(b) && IsPerm(c) && |a| == |b| == |c|
    ensures IsPerm(Add(a, b))
    ensures IsPerm(Add(b, c)) && Add(Add(a, b), c) == Add(a, Add(b, c))
    ensures Add(a, Identity(|a|)) == a && Add(Identity(|a|), a) == a
    ensures IsPerm(Reverse(a))
    ensures Add(a, Reverse(a)) == Identity(|a|) && Add(Reverse(a), a) == Identity(|a|)
  {
    AddIsPerm(a, b);
    AddIsPerm(b, c);
    ReverseInverts(a);
  }

  /** The inverse of a composition is the composition of the inverses, in the other order. */
  lemma ReverseOfAdd(a: seq<nat>, b: seq<nat>)
    requires IsPerm(a) && IsPerm(b) && |a| == |b|
    ensures IsPerm(Add(a, b)) && IsPerm(Reverse(a)) && IsPerm(Reverse(b))
    ensures Reverse(Add(a, b)) == Add(Reverse(b), Reverse(a))
  {
    AddIsPerm(a, b);
    ReverseInverts(a);
    ReverseInverts(b);
    var ra, rb := Reverse(a), Reverse(b);
    AddIsPerm(rb, ra);
    assert Add(Add(a, b), Add(rb, ra)) == Identity(|a|);
    InverseUnique(Add(a, b), Add(rb, ra));
  }

  lemma ReverseReverse(p: seq<nat>)
    requires IsPerm(p)
    ensures IsPerm(Reverse(p)) && Reverse(Reverse(p)) == p
  {
    ReverseInverts(p);
    assert Add(Reverse(p), p) == Identity(|p|);
    InverseUnique(Reverse(p), p);
  }

  /** The vector the handlers compute to go from layout p to layout r: composing it after
      p gives r, whatever p and r are. */
  lemma RealignVector(p: seq<nat>, r: seq<nat>)
    requires IsPerm(p) && IsPerm(r) && |p| == |r|
    ensures IsPerm(Reverse(p)) && IsPerm(Add(Reverse(p), r))
    ensures Add(p, Add(Reverse(p), r)) == r
    ensures Add(Reverse(p), r) == Identity(|p|) <==> p == r
  {
    ReverseInverts(p);
    AddIsPerm(Reverse(p), r);
    if Add(Reverse(p), r) == Identity(|p|) {
      forall i | 0 <= i < |p| ensures p[i] == r[i] {
        assert Add(Reverse(p), r)[i] == Identity(|p|)[i];
        assert p[Reverse(p)[r[i]]] == r[i];
      }
    }
  }
}
