/** The mutable permute vector of the layout pass: an array filled and overwritten by index
    loops.  Each method is tied to the value-level functions of module Permutations. */
module PermuteVectors {
  import opened Permutations

  class PermuteVector {
    const rank: nat
    const param: array<nat>

    /** The vector as a value. */
    ghost function Value(): (s: seq<nat>)
      reads param
    {
      param[..]
    }

    ghost predicate Valid()
    {
      param.Length == rank
    }

    constructor (rank: nat)
      ensures Valid() && fresh(param) && this.rank == rank
      ensures Value() == Identity(rank)
    {
      this.rank := rank;
      param := new nat[rank];
      new;
      for i := 0 to rank
        invariant forall k | 0 <= k < i :: param[k] == k
      {
        param[i] := i;
      }
    }

    constructor FromList(list: seq<nat>)
      ensures Valid() && fresh(param) && rank == |list|
      ensures Value() == list
    {
      rank := |list|;
      param := new nat[|list|];
      new;
      for i := 0 to |list|
        invariant param[..i] == list[..i]
      {
        param[i] := list[i];
      }
    }

    /** A vector of larger rank that acts like `smaller` on the leading dimensions. */
    constructor Widen(smaller: PermuteVector, rank: nat)
      requires smaller.Valid() && smaller.rank < rank
      ensures Valid() && fresh(param) && this.rank == rank
      ensures Value() == smaller.Value() + Identity(rank)[smaller.rank..]
      ensures IsPerm(smaller.Value()) ==> IsPerm(Value())
    {
      this.rank := rank;
      param := new nat[rank];
      new;
      for i := 0 to rank
        invariant forall k | 0 <= k < i ::
            param[k] == if k < smaller.rank then smaller.param[k] else k
      {
        param[i] := if i < smaller.rank then smaller.param[i] else i;
      }
    }

    method IsAligned() returns (aligned: bool)
      requires Valid()
      ensures aligned <==> Value() == Identity(rank)
    {
      var i := 0;
      while i < rank
        invariant i <= rank && forall k | 0 <= k < i :: param[k] == k
      {
        if i != param[i] {
          assert Value()[i] != Identity(rank)[i];
          break;
        }
        i := i + 1;
      }
      aligned := i == rank;
    }

    /** The scatter loop.  Its result is a two-sided inverse exactly when this vector is a
        permutation. */
    method Reverse() returns (r: PermuteVector)
      requires Valid() && InRange(Value())
      ensures fresh(r) && fresh(r.param) && r.Valid() && r.rank == rank
      ensures r.Value() == Permutations.Reverse(Value())
      ensures IsPerm(Value()) ==>
                IsPerm(r.Value())
                && Permutations.Add(Value(), r.Value()) == Identity(rank)
                && Permutations.Add(r.Value(), Value()) == Identity(rank)
    {
      r := new PermuteVector(rank);
      ghost var p := Value();
      for i := 0 to rank
        invariant Value() == p
        invariant r.Value() == Scatter(p, i)
      {
        assert param[i] == p[i];
        r.param[param[i]] := i;
      }
      if IsPerm(p) {
        ReverseInverts(p);
      }
    }

    method ReInitialize()
      requires Valid()
      modifies param
      ensures Value() == Identity(rank)
    {
      for i := 0 to rank
        invariant forall k | 0 <= k < i :: param[k] == k
      {
        param[i] := i;
      }
    }

    /** Data laid out by this vector and then by `other` is data laid out by the result. */
    method Add(other: PermuteVector) returns (r: PermuteVector)
      requires Valid() && other.Valid() && other.rank <= rank
      requires forall i | 0 <= i < other.rank :: other.param[i] < rank
      ensures fresh(r) && fresh(r.param) && r.Valid() && r.rank == rank
      ensures r.Value() == Permutations.Add(Value(), other.Value())
      ensures other.rank == rank && IsPerm(Value()) && IsPerm(other.Value()) ==> IsPerm(r.Value())
    {
      r := new PermuteVector(rank);
      for i := 0 to other.rank
        invariant Value() == old(Value()) && other.Value() == old(other.Value())
        invariant forall k | 0 <= k < i :: r.param[k] == param[other.param[k]]
        invariant forall k | i <= k < rank :: r.param[k] == k
      {
        r.param[i] := param[other.param[i]];
      }
      if other.rank == rank && IsPerm(Value()) && IsPerm(other.Value()) {
        AddIsPerm(Value(), other.Value());
      }
    }

    method AsStdVec() returns (data: seq<nat>)
      requires Valid()
      ensures data == Value()
    {
      data := [];
      for i := 0 to rank
        invariant data == param[..i]
      {
        data := data + [param[i]];
      }
    }
  }

  const MAX_RANK: nat := 10

  /** The factory used for default layouts: a scalar gets a vector of rank one, and ranks
      past ten have no vector at all. */
  method MakeShared(rank: nat) returns (pv: PermuteVector?)
    ensures pv == null <==> rank > 10
    ensures pv != null ==> fresh(pv) && fresh(pv.param) && pv.Valid()
                           && pv.Value() == Identity(if rank == 0 then 1 else rank)
  {
    if rank > MAX_RANK {
      pv := null;
    } else {
      pv := new PermuteVector(if rank == 0 then 1 else rank);
    }
  }
}
