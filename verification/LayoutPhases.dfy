/** What the handlers of the five families do to values.  Each brings the inputs into layouts in
    which it knows what the operation computes, and leaves every output standing in the layout it
    records. */
module LayoutPhases {
  import opened GraphModel
  import opened Permutations
  import opened TensorLayout
  import opened LayoutWorklist
  import opened LayoutHandlers
  import opened LayoutWrites
  import opened LayoutRun
  import opened LayoutMeaning

  /** Values in layouts. */
  function LaidIn(v: Values, ts: seq<Tensor>, ps: seq<Permute>): (xs: seq<Data>)
    requires |ps| == |ts|
    ensures |xs| == |ts| && forall i | 0 <= i < |ts| :: xs[i] == Laid(v(ts[i]), ps[i])
  {
    seq(|ts|, i requires 0 <= i < |ts| => Laid(v(ts[i]), ps[i]))
  }

  /** Tensors of the operation are used, and outputs come after inputs. */
  ghost predicate Within(x: Setting, n: Node) {
    && (forall t | t in n.inputs || t in n.outputs :: t in x.used) && Apart(n)
    && forall t, u | t in n.inputs && u in n.outputs :: x.tier(t) < x.tier(u)
  }

  ghost predicate InputsHold(x: Setting, k: Work, plan: Plan, n: Node) {
    forall t | t in n.inputs :: Holds(x, k, plan, t)
  }

  /** An output stands in the layout recorded for it.  One that takes a tensor it was mapped to is
      in its own, which is written; any other can still be undone into its own. */
  ghost predicate OutputOk(x: Setting, r: Work, plan: Plan, t: Tensor) {
    && Holds(x, r, plan, t) && StandsFor(x, plan, t, r.pv[t], r.tensorMap[t])
    && r.tensorMap[t] in Dsts(r.infer.emitted)
  }

  ghost predicate PhaseOk(x: Setting, r: Work, plan: Plan, n: Node) {
    Sane(x, r, plan) && forall t | t in n.outputs :: OutputOk(x, r, plan, t)
  }

  /** If an output takes the tensor it is mapped to, that is its own. */
  ghost predicate TakesOwn(x: Setting, k: Work, out: Tensor, p: Permute) {
    TakesMapped(x.net, out, p) ==> out in x.own && out in k.tensorMap && k.tensorMap[out] == x.own[out]
  }

  ghost predicate AllTakeOwn(x: Setting, k: Work, r: Work, n: Node) {
    forall t | t in n.outputs :: TakesOwn(x, k, t, PvOf(r, t))
  }

  /** r records the layouts for the outputs and leaves the others. */
  ghost predicate Recorded(k: Work, r: Work, outs: seq<Tensor>, pvs: seq<Permute>)
    requires |pvs| == |outs|
  {
    && (forall i | 0 <= i < |outs| :: outs[i] in r.pv && r.pv[outs[i]] == pvs[i])
    && forall t | t !in outs :: SameLayout(k, r, t)
  }

  // ---- emitting an operation ----

  lemma CreatedOk(x: Setting, k: Work, k2: Work, r: Work, plan: Plan, outs: seq<Tensor>, pvs: seq<Permute>, ds: seq<Mapped>, i: nat)
    requires Creates(x.net, k, k2, outs, pvs, ds) && r.tensorMap == k2.tensorMap && i < |outs| && Recorded(k, r, outs, pvs)
    requires AllStand(x, plan, outs, pvs, ds) && Creatable(x, k, outs[i], pvs[i])
    requires forall d | d in ds :: d in Dsts(r.infer.emitted)
    ensures OutputOk(x, r, plan, outs[i])
  {
    assert CreatedFor(x.net, k, k2, outs[i], pvs[i], ds[i]) && StandsFor(x, plan, outs[i], pvs[i], ds[i]);
    assert ds[i] in ds;
  }

  /** The rest stays as it was. */
  lemma OthersHold(x: Setting, k: Work, k2: Work, r: Work, plan: Plan, plan': Plan, outs: seq<Tensor>, pvs: seq<Permute>, ds: seq<Mapped>)
    requires Good(x, k, plan) && Grows(plan, plan') && Creates(x.net, k, k2, outs, pvs, ds) && r.tensorMap == k2.tensorMap
    requires Recorded(k, r, outs, pvs) && forall t | t in outs :: Holds(x, r, plan', t)
    ensures Good(x, r, plan')
  {
    forall t | t in r.pv && t !in x.raw ensures Holds(x, r, plan', t) {
      if t !in outs {
        assert SameLayout(k, r, t) && Untouched(k, k2, t);
        HoldsStays(x, k, r, plan, plan', t);
      }
    }
  }

  lemma EmittedOk(x: Setting, k: Work, k2: Work, r: Work, plan: Plan, plan': Plan, n: Node, pvs: seq<Permute>, e: Emit)
    requires Sane(x, k, plan) && |pvs| == |n.outputs| && AllCreatable(x, k, n.outputs, pvs) && Grows(plan, plan') && Right(x, plan', e)
    requires Creates(x.net, k, k2, n.outputs, pvs, Dst(e)) && r.tensorMap == k2.tensorMap && r.infer == Append(k2, e).infer
    requires AllStand(x, plan', n.outputs, pvs, Dst(e)) && (forall m | m in plan' && m !in plan :: m in Dst(e))
    requires (forall m | m in plan' :: MeantOk(x.v, k2.infer.next, m, plan'[m])) && Recorded(k, r, n.outputs, pvs)
    ensures PhaseOk(x, r, plan', n)
  {
    Emitting(x, k, k2, plan, plan', e);
    PlannedSame(x, Append(k2, e), r, plan');
    DstsMore(k2.infer.emitted, e);
    forall t | t in n.outputs ensures OutputOk(x, r, plan', t) {
      var i :| 0 <= i < |n.outputs| && n.outputs[i] == t;
      assert Creatable(x, k, n.outputs[i], pvs[i]);
      CreatedOk(x, k, k2, r, plan', n.outputs, pvs, Dst(e), i);
    }
    OthersHold(x, k, k2, r, plan, plan', n.outputs, pvs, Dst(e));
  }

  /** What an input stands for, seen after the outputs are created. */
  lemma InputMean(x: Setting, k: Work, k2: Work, plan: Plan, plan': Plan, n: Node, pvs: seq<Permute>, ds: seq<Mapped>, t: Tensor)
    requires InputsHold(x, k, plan, n) && Apart(n) && Grows(plan, plan') && Creates(x.net, k, k2, n.outputs, pvs, ds) && t in n.inputs
    ensures MappedOf(k2, t) in plan' && plan'[MappedOf(k2, t)].t == t && plan'[MappedOf(k2, t)].p == PvOf(k, t)
  {
    assert Holds(x, k, plan, t) && Untouched(k, k2, t);
  }

  lemma InputsMean(x: Setting, k: Work, k2: Work, plan: Plan, plan': Plan, n: Node, pvs: seq<Permute>, ds: seq<Mapped>)
    requires InputsHold(x, k, plan, n) && Apart(n) && Grows(plan, plan') && Creates(x.net, k, k2, n.outputs, pvs, ds)
    ensures All(Intended(x.v, plan'), MappedAll(k2, n.inputs)) == LaidIn(x.v, n.inputs, LayoutsIn(k, n.inputs))
    ensures forall i | 0 <= i < |n.inputs| :: MappedOf(k2, n.inputs[i]) in plan' && plan'[MappedOf(k2, n.inputs[i])].t == n.inputs[i]
  {
    var xs, ys := All(Intended(x.v, plan'), MappedAll(k2, n.inputs)), LaidIn(x.v, n.inputs, LayoutsIn(k, n.inputs));
    forall i | 0 <= i < |n.inputs|
      ensures xs[i] == ys[i] && MappedOf(k2, n.inputs[i]) in plan' && plan'[MappedOf(k2, n.inputs[i])].t == n.inputs[i]
    {
      InputMean(x, k, k2, plan, plan', n, pvs, ds, n.inputs[i]);
    }
    assert xs == ys;
  }

  lemma OutputsMean(x: Setting, plan: Plan, outs: seq<Tensor>, pvs: seq<Permute>, ds: seq<Mapped>)
    requires AllStand(x, plan, outs, pvs, ds)
    ensures All(Intended(x.v, plan), ds) == LaidIn(x.v, outs, pvs)
    ensures forall d | d in ds :: d in plan && plan[d].t in outs
  {
    forall i | 0 <= i < |outs| ensures ds[i] in plan && plan[ds[i]].t == outs[i] && plan[ds[i]].p == pvs[i] {
      assert StandsFor(x, plan, outs[i], pvs[i], ds[i]);
    }
  }

  lemma RebuiltRight(x: Setting, plan: Plan, o: Op, srcs: seq<Mapped>, ds: seq<Mapped>, n: Node)
    requires Within(x, n) && Computes(x, plan, o, srcs, ds)
    requires |srcs| == |n.inputs| && forall i | 0 <= i < |srcs| :: srcs[i] in plan && plan[srcs[i]].t == n.inputs[i]
    requires forall d | d in ds :: d in plan && plan[d].t in n.outputs
    ensures Right(x, plan, Rebuilt(o, srcs, ds))
  {
    var e := Rebuilt(o, srcs, ds);
    forall m | m in Src(e) ensures m in plan && plan[m].t in n.inputs {
      var i :| 0 <= i < |srcs| && srcs[i] == m;
      assert n.inputs[i] in n.inputs;
    }
  }

  ghost predicate Computes(x: Setting, plan: Plan, o: Op, srcs: seq<Mapped>, ds: seq<Mapped>) {
    x.sem.op(o, All(Intended(x.v, plan), srcs)) == All(Intended(x.v, plan), ds)
  }

  /** Rebuild records the layouts. */
  lemma RebuildRecords(net: Network, k: Work, o: Op, n: Node, pvs: seq<Permute>)
    requires |pvs| == |n.outputs| && NoDuplicates(n.outputs)
    ensures var (ds, k2) := CreateOutputs(net, k, n.outputs, pvs); var e := Rebuilt(o, MappedAll(k2, n.inputs), ds);
            var r := Rebuild(net, k, o, n.inputs, n.outputs, pvs);
            Recorded(k, r, n.outputs, pvs) && r.tensorMap == k2.tensorMap && r.infer == Append(k2, e).infer
  {
    var (ds, k2) := CreateOutputs(net, k, n.outputs, pvs);
    var e := Rebuilt(o, MappedAll(k2, n.inputs), ds);
    CreateKeepsLayouts(net, k, n.outputs, pvs);
    SetLays(Append(k2, e), n.outputs, pvs);
    forall i | 0 <= i < |n.outputs|
      ensures n.outputs[i] in Rebuild(net, k, o, n.inputs, n.outputs, pvs).pv
              && Rebuild(net, k, o, n.inputs, n.outputs, pvs).pv[n.outputs[i]] == pvs[i]
    {
      SetLayoutsAt(Append(k2, e), n.outputs, pvs, i);
    }
    forall t | t !in n.outputs ensures SameLayout(k, Rebuild(net, k, o, n.inputs, n.outputs, pvs), t) {
      SetLayoutsOther(Append(k2, e), n.outputs, pvs, t);
    }
  }

  /** The operation rebuilt on inputs in their layouts computes the outputs in theirs. */
  ghost predicate Carries(x: Setting, k: Work, o: Op, n: Node, pvs: seq<Permute>)
    requires |pvs| == |n.outputs|
  {
    x.sem.op(o, LaidIn(x.v, n.inputs, LayoutsIn(k, n.inputs))) == LaidIn(x.v, n.outputs, pvs)
  }

  lemma OperationRight(x: Setting, k: Work, k2: Work, plan: Plan, plan': Plan, o: Op, n: Node, pvs: seq<Permute>, ds: seq<Mapped>)
    requires Within(x, n) && Grows(plan, plan') && InputsHold(x, k, plan, n) && |pvs| == |n.outputs| && Carries(x, k, o, n, pvs)
    requires Creates(x.net, k, k2, n.outputs, pvs, ds) && AllStand(x, plan', n.outputs, pvs, ds)
    ensures Right(x, plan', Rebuilt(o, MappedAll(k2, n.inputs), ds))
  {
    InputsMean(x, k, k2, plan, plan', n, pvs, ds);
    OutputsMean(x, plan', n.outputs, pvs, ds);
    RebuiltRight(x, plan', o, MappedAll(k2, n.inputs), ds, n);
  }

  lemma RebuildOk(x: Setting, k: Work, plan: Plan, o: Op, n: Node, pvs: seq<Permute>) returns (plan': Plan)
    requires Sane(x, k, plan) && PlainMapped(x.net, k) && NoDuplicates(n.outputs) && |pvs| == |n.outputs| && Within(x, n)
    requires InputsHold(x, k, plan, n) && AllCreatable(x, k, n.outputs, pvs) && Carries(x, k, o, n, pvs)
    ensures PhaseOk(x, Rebuild(x.net, k, o, n.inputs, n.outputs, pvs), plan', n)
  {
    var (ds, k2) := CreateOutputs(x.net, k, n.outputs, pvs);
    CreateWrites(x.net, k, n.outputs, pvs);
    plan' := CreateOk(x, k, plan, n.outputs, pvs);
    OperationRight(x, k, k2, plan, plan', o, n, pvs, ds);
    RebuildRecords(x.net, k, o, n, pvs);
    EmittedOk(x, k, k2, Rebuild(x.net, k, o, n.inputs, n.outputs, pvs), plan, plan', n, pvs, Rebuilt(o, MappedAll(k2, n.inputs), ds));
  }

  /** What rebuilding asks of the outputs, said of the layouts recorded in the end. */
  ghost predicate OutputsFit(x: Setting, n: Node, pvs: seq<Permute>)
    requires |pvs| == |n.outputs|
  {
    forall i | 0 <= i < |n.outputs| :: Fits(pvs[i], x.v(n.outputs[i]).shape) && Standard(x.net, pvs[i])
  }

  lemma RebuildCreatable(x: Setting, k: Work, o: Op, n: Node, pvs: seq<Permute>)
    requires |pvs| == |n.outputs| && NoDuplicates(n.outputs) && OutputsFit(x, n, pvs)
    requires AllTakeOwn(x, k, Rebuild(x.net, k, o, n.inputs, n.outputs, pvs), n)
    ensures AllCreatable(x, k, n.outputs, pvs)
  {
    RebuildRecords(x.net, k, o, n, pvs);
    forall i | 0 <= i < |n.outputs| ensures Creatable(x, k, n.outputs[i], pvs[i]) {
      assert n.outputs[i] in n.outputs && TakesOwn(x, k, n.outputs[i], PvOf(Rebuild(x.net, k, o, n.inputs, n.outputs, pvs), n.outputs[i]));
    }
  }

  // ---- the families that rebuild the operation ----

  /** What is known before an operation is handled. */
  ghost predicate Prepared(x: Setting, k: Work, plan: Plan, n: Node) {
    && Sane(x, k, plan) && PlainMapped(x.net, k) && ConstantsKnown(x.net, x.v) && AllReadable(x, k, n.inputs) && Within(x, n)
    && x.net.s.placeholders == {} && (forall t: Tensor :: 1 <= |x.v(t).shape|) && (forall t: Tensor :: x.net.shape(t) == x.v(t).shape)
  }

  /** Bringing inputs into layouts leaves the outputs where they were. */
  lemma OutputsUntouched(x: Setting, k: Work, k1: Work, r: Work, n: Node, more: seq<Mapped>)
    requires MovesAll(k, k1, n.inputs, more) && Apart(n) && AllTakeOwn(x, k, r, n)
    ensures AllTakeOwn(x, k1, r, n)
  {
    forall t | t in n.outputs ensures TakesOwn(x, k1, t, PvOf(r, t)) {
      assert Untouched(k, k1, t) && TakesOwn(x, k, t, PvOf(r, t));
    }
  }

  lemma DefaultCarries(x: Setting, k: Work, plan: Plan, o: Op, n: Node)
    requires AllHold(x, k, plan, n.inputs, u => Identity(|x.v(u).shape|))
    requires x.sem.op(o, All(x.v, n.inputs)) == All(x.v, n.outputs)
    requires (forall t: Tensor :: 1 <= |x.v(t).shape|) && forall t: Tensor :: x.net.shape(t) == x.v(t).shape
    ensures Carries(x, k, o, n, DefaultLayouts(x.net, n.outputs)) && OutputsFit(x, n, DefaultLayouts(x.net, n.outputs))
    ensures InputsHold(x, k, plan, n)
  {
    var pvs := DefaultLayouts(x.net, n.outputs);
    forall t: Tensor ensures Laid(x.v(t), Identity(|x.v(t).shape|)) == x.v(t) && Standard(x.net, Identity(|x.v(t).shape|)) {
      TransposeIdentity(x.v(t));
      StandardAligned(x.net, |x.v(t).shape|);
    }
    forall i | 0 <= i < |n.inputs| ensures LaidIn(x.v, n.inputs, LayoutsIn(k, n.inputs))[i] == All(x.v, n.inputs)[i] {
      assert n.inputs[i] in n.inputs && Holds(x, k, plan, n.inputs[i]);
    }
    assert LaidIn(x.v, n.inputs, LayoutsIn(k, n.inputs)) == All(x.v, n.inputs);
    assert LaidIn(x.v, n.outputs, pvs) == All(x.v, n.outputs);
  }

  lemma DefaultOk(x: Setting, k: Work, plan: Plan, o: Op, n: Node) returns (plan': Plan)
    requires Prepared(x, k, plan, n) && NoDuplicates(n.outputs) && x.sem.op(o, All(x.v, n.inputs)) == All(x.v, n.outputs)
    requires AllTakeOwn(x, k, OnDefault(x.net, k, o, n), n)
    ensures PhaseOk(x, OnDefault(x.net, k, o, n), plan', n)
  {
    var k1, pvs := ReverseAll(x.net, k, n.inputs), DefaultLayouts(x.net, n.outputs);
    ReadableMovable(x, k, plan, n.inputs);
    var more := ReverseAllWrites(x.net, k, n.inputs);
    var plan1 := ReverseAllOk(x, k, plan, n.inputs);
    MovedPlain(x.net, k, k1, n.inputs, more);
    DefaultCarries(x, k1, plan1, o, n);
    OutputsUntouched(x, k, k1, OnDefault(x.net, k, o, n), n, more);
    RebuildCreatable(x, k1, o, n, pvs);
    plan' := RebuildOk(x, k1, plan1, o, n, pvs);
  }

  /** All inputs in one layout, which the output then has. */
  lemma CommutingCarries(x: Setting, k: Work, plan: Plan, o: Op, n: Node, p: Permute)
    requires |n.outputs| == 1 && CommutesWithLayout(x.sem, x.v, o, n) && AllHold(x, k, plan, n.inputs, u => p)
    requires IsPerm(p) && |p| == |x.v(n.outputs[0]).shape|
    ensures Carries(x, k, o, n, [p])
  {
    forall i | 0 <= i < |n.inputs|
      ensures Fits(p, All(x.v, n.inputs)[i].shape)
              && LaidIn(x.v, n.inputs, LayoutsIn(k, n.inputs))[i] == Transpose(All(x.v, n.inputs)[i], p)
    {
      assert n.inputs[i] in n.inputs && Holds(x, k, plan, n.inputs[i]);
    }
    assert LaidIn(x.v, n.inputs, LayoutsIn(k, n.inputs)) == TransposeAll(All(x.v, n.inputs), p);
    assert LaidIn(x.v, n.outputs, [p]) == [Transpose(x.v(n.outputs[0]), p)];
  }

  lemma CommutingOk(x: Setting, k: Work, plan: Plan, o: Op, n: Node, p: Permute) returns (plan': Plan)
    requires Sane(x, k, plan) && PlainMapped(x.net, k) && Within(x, n)
    requires |n.outputs| == 1 && CommutesWithLayout(x.sem, x.v, o, n) && AllHold(x, k, plan, n.inputs, u => p)
    requires Standard(x.net, p) && |p| == |x.v(n.outputs[0]).shape| && AllTakeOwn(x, k, Rebuild(x.net, k, o, n.inputs, n.outputs, [p]), n)
    ensures PhaseOk(x, Rebuild(x.net, k, o, n.inputs, n.outputs, [p]), plan', n)
  {
    CommutingCarries(x, k, plan, o, n, p);
    RebuildCreatable(x, k, o, n, [p]);
    plan' := RebuildOk(x, k, plan, o, n, [p]);
  }

  /** The one input of an operation. */
  lemma SoleInput(x: Setting, k: Work, plan: Plan, n: Node)
    requires Prepared(x, k, plan, n) && SingleIO(n) && n.inputs[0] in k.pv
    ensures n.inputs == [n.inputs[0]] && n.outputs == [n.outputs[0]] && Holds(x, k, plan, n.inputs[0])
  {
    assert n.inputs[0] in n.inputs && Readable(x, k, n.inputs[0]);
  }

  lemma SimpleOk(x: Setting, k: Work, plan: Plan, o: Op, n: Node) returns (plan': Plan)
    requires Prepared(x, k, plan, n) && SingleIO(n) && n.inputs[0] in k.pv && CommutesWithLayout(x.sem, x.v, o, n)
    requires AllTakeOwn(x, k, OnSingle(x.net, k, o, n, Simple), n)
    ensures PhaseOk(x, OnSingle(x.net, k, o, n, Simple), plan', n)
  {
    SoleInput(x, k, plan, n);
    plan' := CommutingOk(x, k, plan, o, n, PvOf(k, n.inputs[0]));
  }

  // ---- element-wise operations ----

  /** The reference layout is the layout of one of the variable inputs. */
  lemma {:induction false} ReferenceLayoutFrom(net: Network, k: Work, ts: seq<Tensor>, best: Permute, rank: nat)
    ensures var p := ReferenceLayout(net, k, ts, best, rank);
            p == best || exists t :: t in ts && t !in net.s.constants && p == PvOf(k, t)
    decreases |ts|
  {
    if ts != [] {
      assert ts == [ts[0]] + ts[1..];
      if ts[0] !in net.s.constants && RankOf(net, ts[0]) > rank {
        ReferenceLayoutFrom(net, k, ts[1..], PvOf(k, ts[0]), RankOf(net, ts[0]));
      } else {
        ReferenceLayoutFrom(net, k, ts[1..], best, rank);
      }
    }
  }

  lemma {:induction false} ReferenceLayoutFound(net: Network, k: Work, ts: seq<Tensor>, t: Tensor) returns (u: Tensor)
    requires t in ts && t !in net.s.constants && RankOf(net, t) > 0
    ensures u in ts && u !in net.s.constants && ReferenceLayout(net, k, ts, [], 0) == PvOf(k, u)
    decreases |ts|
  {
    assert ts == [ts[0]] + ts[1..];
    if ts[0] !in net.s.constants && RankOf(net, ts[0]) > 0 {
      ReferenceLayoutFrom(net, k, ts[1..], PvOf(k, ts[0]), RankOf(net, ts[0]));
      var p := ReferenceLayout(net, k, ts, [], 0);
      if p == PvOf(k, ts[0]) {
        u := ts[0];
      } else {
        u :| u in ts[1..] && u !in net.s.constants && p == PvOf(k, u);
      }
    } else {
      u := ReferenceLayoutFound(net, k, ts[1..], t);
    }
  }

  predicate IsElementwise(net: Network, o: Op, n: Node) {
    o in net.s.g.node && n == net.s.g.node[o] && o in net.family && net.family[o] == Elementwise
  }

  /** The layout an elementwise operation settles on fits every operand. */
  lemma ElementwiseReference(x: Setting, k: Work, plan: Plan, o: Op, n: Node)
    requires IsElementwise(x.net, o, n) && Prepared(x, k, plan, n) && |n.outputs| == 1
    requires forall t | t in n.inputs :: |x.v(t).shape| == |x.v(n.outputs[0]).shape|
    requires exists t :: t in n.inputs && t !in x.net.s.constants
    ensures var p := ReferenceLayout(x.net, k, n.inputs, [], 0); Alignable(x, n.inputs, p) && |p| == |x.v(n.outputs[0]).shape|
  {
    var t :| t in n.inputs && t !in x.net.s.constants;
    var u := ReferenceLayoutFound(x.net, k, n.inputs, t);
    assert Readable(x, k, u) && Holds(x, k, plan, u);
    forall y | y in n.inputs ensures Fits(PvOf(k, u), x.v(y).shape) && (y in x.net.s.constants ==> MovesConstants(PvOf(k, u))) {
    }
  }

  lemma ElementwiseAligns(net: Network, k: Work, o: Op, n: Node)
    requires OneOutput(n)
    ensures var p := ReferenceLayout(net, k, n.inputs, [], 0);
            OnSingle(net, k, o, n, Elementwise) == Rebuild(net, AlignAll(net, k, n.inputs, p), o, n.inputs, n.outputs, [p])
  {
    assert n.outputs == [n.outputs[0]];
  }

  lemma ElementwiseOk(x: Setting, k: Work, plan: Plan, o: Op, n: Node) returns (plan': Plan)
    requires IsElementwise(x.net, o, n) && Prepared(x, k, plan, n) && OneOutput(n) && CommutesWithLayout(x.sem, x.v, o, n)
    requires (exists t :: t in n.inputs && t !in x.net.s.constants) && AllTakeOwn(x, k, OnSingle(x.net, k, o, n, Elementwise), n)
    ensures PhaseOk(x, OnSingle(x.net, k, o, n, Elementwise), plan', n)
  {
    ElementwiseReference(x, k, plan, o, n);
    ElementwiseAligns(x.net, k, o, n);
    plan' := AlignedOk(x, k, plan, o, n, ReferenceLayout(x.net, k, n.inputs, [], 0));
  }

  lemma AlignedOk(x: Setting, k: Work, plan: Plan, o: Op, n: Node, p: Permute) returns (plan': Plan)
    requires Prepared(x, k, plan, n) && OneOutput(n) && CommutesWithLayout(x.sem, x.v, o, n) && Alignable(x, n.inputs, p)
    requires |p| == |x.v(n.outputs[0]).shape|
    requires AllTakeOwn(x, k, Rebuild(x.net, AlignAll(x.net, k, n.inputs, p), o, n.inputs, n.outputs, [p]), n)
    ensures PhaseOk(x, Rebuild(x.net, AlignAll(x.net, k, n.inputs, p), o, n.inputs, n.outputs, [p]), plan', n)
  {
    var k1 := AlignAll(x.net, k, n.inputs, p);
    ReadableMovable(x, k, plan, n.inputs);
    var more := AlignAllWrites(x.net, k, n.inputs, p);
    var plan1 := AlignAllOk(x, k, plan, n.inputs, p);
    MovedPlain(x.net, k, k1, n.inputs, more);
    OutputsUntouched(x, k, k1, Rebuild(x.net, k1, o, n.inputs, n.outputs, [p]), n, more);
    plan' := CommutingOk(x, k1, plan1, o, n, p);
  }

  // ---- operations written out for one input and one output ----

  /** Reading a, the operation writes b. */
  ghost predicate Transfers(sem: Semantics, e: Emit, a: Data, b: Data) {
    |Src(e)| == 1 && |Dst(e)| == 1
    && forall w: NewValues | w(Src(e)[0]) == a && w(Dst(e)[0]) == b :: EmitHolds(sem, w, e) && Firm(w, e)
  }

  /** The plan with the one output in it. */
  ghost predicate OneMore(x: Setting, k: Work, k2: Work, plan: Plan, plan': Plan, out: Tensor, p: Permute, d: Mapped) {
    && Grows(plan, plan') && StandsFor(x, plan', out, p, d) && (forall m | m in plan' && m !in plan :: m == d)
    && forall m | m in plan' :: MeantOk(x.v, k2.infer.next, m, plan'[m])
  }

  lemma OneCreates(net: Network, k: Work, out: Tensor, p: Permute)
    requires PlainMapped(net, k)
    ensures var (d, k2) := CreateOutput(net, k, out, p); Creates(net, k, k2, [out], [p], [d])
  {
    OneCreated(net, k, out, p);
    CreateWrites(net, k, [out], [p]);
  }

  lemma OneListed(x: Setting, k: Work, r: Work, plan: Plan, out: Tensor, p: Permute, d: Mapped)
    requires Creatable(x, k, out, p) && StandsFor(x, plan, out, p, d) && r.pv == k.pv[out := p]
    ensures AllCreatable(x, k, [out], [p]) && AllStand(x, plan, [out], [p], [d]) && Recorded(k, r, [out], [p])
  {
  }

  lemma SingleEmitted(x: Setting, k: Work, k2: Work, r: Work, plan: Plan, plan': Plan, n: Node, out: Tensor, p: Permute, d: Mapped, e: Emit)
    requires Sane(x, k, plan) && n.outputs == [out] && Creatable(x, k, out, p)
    requires r.pv == k.pv[out := p] && Right(x, plan', e) && Dst(e) == [d] && OneMore(x, k, k2, plan, plan', out, p, d)
    requires r.tensorMap == k2.tensorMap && r.infer == Append(k2, e).infer && Creates(x.net, k, k2, [out], [p], [d])
    ensures PhaseOk(x, r, plan', n)
  {
    OneListed(x, k, r, plan', out, p, d);
    EmittedOk(x, k, k2, r, plan, plan', n, [p], e);
  }

  /** One operation with one source, for one output. */
  lemma SingleOk(x: Setting, k: Work, r: Work, plan: Plan, n: Node, src: Tensor, out: Tensor, p: Permute, e: Emit) returns (plan': Plan)
    requires Sane(x, k, plan) && PlainMapped(x.net, k) && Within(x, n) && Holds(x, k, plan, src)
    requires n.inputs == [src] && n.outputs == [out] && Creatable(x, k, out, p) && r.pv == k.pv[out := p]
    requires var (d, k2) := CreateOutput(x.net, k, out, p);
             Dst(e) == [d] && r.tensorMap == k2.tensorMap && r.infer == Append(k2, e).infer
    requires Src(e) == [k.tensorMap[src]] && Transfers(x.sem, e, Laid(x.v(src), k.pv[src]), Laid(x.v(out), p))
    ensures PhaseOk(x, r, plan', n)
  {
    var (d, k2) := CreateOutput(x.net, k, out, p);
    plan' := CreateOneOk(x, k, plan, out, p);
    SingleRight(x, k, plan, plan', src, out, p, d, e);
    OneCreates(x.net, k, out, p);
    SingleEmitted(x, k, k2, r, plan, plan', n, out, p, d, e);
  }

  lemma SingleRight(x: Setting, k: Work, plan: Plan, plan': Plan, src: Tensor, out: Tensor, p: Permute, d: Mapped, e: Emit)
    requires Grows(plan, plan') && src in x.used && x.tier(src) < x.tier(out) && Holds(x, k, plan, src) && StandsFor(x, plan', out, p, d)
    requires Dst(e) == [d] && Src(e) == [k.tensorMap[src]] && Transfers(x.sem, e, Laid(x.v(src), k.pv[src]), Laid(x.v(out), p))
    ensures Right(x, plan', e)
  {
    var w := Intended(x.v, plan');
    assert w(Src(e)[0]) == Laid(x.v(src), k.pv[src]) && w(Dst(e)[0]) == Laid(x.v(out), p);
  }

  /** A transposition that absorbs its input's layout, or vanishes into a reshape. */
  lemma TransposeValue(net: Network, sem: Semantics, w: NewValues, y: Data, p: Permute, perm: Permute, m: Mapped, out: Tensor, d: Mapped)
    requires Fits(p, y.shape) && Fits(perm, y.shape) && w(m) == Transpose(y, p)
    requires net.shape(out) == Transpose(y, perm).shape && w(d) == Transpose(y, perm)
    ensures EmitHolds(sem, w, TransposeEmit(net, m, Realigned(p, perm), out, d)) && Firm(w, TransposeEmit(net, m, Realigned(p, perm), out, d))
  {
    Realign(y, p, perm);
    TransposeIdentity(w(m));
  }

  lemma TransposeTransfers(net: Network, sem: Semantics, y: Data, p: Permute, perm: Permute, m: Mapped, out: Tensor, d: Mapped)
    requires Fits(p, y.shape) && Fits(perm, y.shape) && net.shape(out) == Transpose(y, perm).shape
    ensures Transfers(sem, TransposeEmit(net, m, Realigned(p, perm), out, d), Transpose(y, p), Transpose(y, perm))
  {
    var e := TransposeEmit(net, m, Realigned(p, perm), out, d);
    forall w: NewValues | w(Src(e)[0]) == Transpose(y, p) && w(Dst(e)[0]) == Transpose(y, perm) ensures EmitHolds(sem, w, e) && Firm(w, e) {
      TransposeValue(net, sem, w, y, p, perm, m, out, d);
    }
  }

  lemma TransposeOk(x: Setting, k: Work, plan: Plan, n: Node, perm: Permute) returns (plan': Plan)
    requires Prepared(x, k, plan, n) && SingleIO(n) && n.inputs[0] in k.pv && perm != []
    requires Fits(perm, x.v(n.inputs[0]).shape) && x.v(n.outputs[0]) == Transpose(x.v(n.inputs[0]), perm)
    requires AllTakeOwn(x, k, OnTranspose(x.net, k, n.inputs[0], n.outputs[0], perm), n)
    ensures PhaseOk(x, OnTranspose(x.net, k, n.inputs[0], n.outputs[0], perm), plan', n)
  {
    SoleInput(x, k, plan, n);
    assert n.outputs[0] in n.outputs && TakesOwn(x, k, n.outputs[0], PvOf(OnTranspose(x.net, k, n.inputs[0], n.outputs[0], perm), n.outputs[0]));
    plan' := TransposedOk(x, k, plan, n, n.inputs[0], n.outputs[0], perm);
  }

  lemma TransposedCreatable(x: Setting, k: Work, src: Tensor, out: Tensor, perm: Permute)
    requires perm != [] && |x.v(out).shape| == |perm| && TakesOwn(x, k, out, PvOf(OnTranspose(x.net, k, src, out, perm), out))
    ensures Creatable(x, k, out, Identity(|perm|)) && Laid(x.v(out), Identity(|perm|)) == x.v(out)
  {
    TransposeIdentity(x.v(out));
    StandardAligned(x.net, |perm|);
  }

  lemma TransposeMakes(net: Network, k: Work, src: Tensor, out: Tensor, perm: Permute)
    requires perm != [] && src in k.tensorMap && src in k.pv
    ensures var (d, k2), r := CreateOutput(net, k, out, Identity(|perm|)), OnTranspose(net, k, src, out, perm);
            var e := TransposeEmit(net, k.tensorMap[src], Realigned(k.pv[src], perm), out, d);
            && r.pv == k.pv[out := Identity(|perm|)] && r.tensorMap == k2.tensorMap && r.infer == Append(k2, e).infer
            && Dst(e) == [d] && Src(e) == [k.tensorMap[src]]
  {
  }

  lemma TransposedOk(x: Setting, k: Work, plan: Plan, n: Node, src: Tensor, out: Tensor, perm: Permute) returns (plan': Plan)
    requires Sane(x, k, plan) && PlainMapped(x.net, k) && Within(x, n) && n.inputs == [src] && n.outputs == [out] && Holds(x, k, plan, src)
    requires perm != [] && Fits(perm, x.v(src).shape) && x.v(out) == Transpose(x.v(src), perm) && x.net.shape(out) == x.v(out).shape
    requires TakesOwn(x, k, out, PvOf(OnTranspose(x.net, k, src, out, perm), out))
    ensures PhaseOk(x, OnTranspose(x.net, k, src, out, perm), plan', n)
  {
    TransposedCreatable(x, k, src, out, perm);
    TransposeMakes(x.net, k, src, out, perm);
    var d := CreateOutput(x.net, k, out, Identity(|perm|)).0;
    TransposeTransfers(x.net, x.sem, x.v(src), k.pv[src], perm, k.tensorMap[src], out, d);
    plan' := SingleOk(x, k, OnTranspose(x.net, k, src, out, perm), plan, n, src, out, Identity(|perm|),
                      TransposeEmit(x.net, k.tensorMap[src], Realigned(k.pv[src], perm), out, d));
  }

  // ---- pooling ----

  predicate IsPooling(net: Network, o: Op, channelFirst: bool) {
    o in net.family && net.family[o] == Pooling(channelFirst)
  }

  /** In the layout pooling asks for, the WHCN kernel computes the output in that layout. */
  lemma PoolValue(x: Setting, o: Op, n: Node, channelFirst: bool)
    requires SingleIO(n) && OpMeans(x.net, x.sem, x.v, o, n) && IsPooling(x.net, o, channelFirst)
    ensures var p := PoolLayout(channelFirst);
            && Fits(p, x.v(n.inputs[0]).shape) && Fits(p, x.v(n.outputs[0]).shape)
            && x.sem.kernel(o, Transpose(x.v(n.inputs[0]), p)) == Transpose(x.v(n.outputs[0]), p)
  {
    if channelFirst {
      var a := x.v(n.inputs[0]);
      PoolLayoutMoves(a, a);
      PoolLayoutMoves(a, Transpose(a, PoolLayout(true)));
      PoolLayoutMoves(x.v(n.outputs[0]), x.sem.kernel(o, Transpose(a, PoolLayout(true))));
    } else {
      TransposeIdentity(x.v(n.inputs[0]));
      TransposeIdentity(x.v(n.outputs[0]));
    }
  }

  lemma PooledOk(x: Setting, k: Work, plan: Plan, o: Op, n: Node, src: Tensor, out: Tensor, p: Permute) returns (plan': Plan)
    requires Sane(x, k, plan) && PlainMapped(x.net, k) && Within(x, n) && n.inputs == [src] && n.outputs == [out] && src != out
    requires Holds(x, k, plan, src) && k.pv[src] == p && Fits(p, x.v(out).shape) && Standard(x.net, p)
    requires TakesOwn(x, k, out, PvOf(PoolEmitted(x.net, k, o, src, out, p), out))
    requires x.sem.kernel(o, Transpose(x.v(src), p)) == Transpose(x.v(out), p)
    ensures PhaseOk(x, PoolEmitted(x.net, k, o, src, out, p), plan', n)
  {
    var (d, k2) := CreateOutput(x.net, k, out, p);
    plan' := SingleOk(x, k, PoolEmitted(x.net, k, o, src, out, p), plan, n, src, out, p, RebuiltWhcn(o, MappedOf(k2, src), d));
  }

  lemma PoolEmittedOk(x: Setting, k: Work, plan: Plan, o: Op, n: Node, channelFirst: bool) returns (plan': Plan)
    requires Sane(x, k, plan) && PlainMapped(x.net, k) && Within(x, n) && SingleIO(n) && OpMeans(x.net, x.sem, x.v, o, n)
    requires IsPooling(x.net, o, channelFirst) && Holds(x, k, plan, n.inputs[0]) && k.pv[n.inputs[0]] == PoolLayout(channelFirst)
    requires AllTakeOwn(x, k, PoolEmitted(x.net, k, o, n.inputs[0], n.outputs[0], PoolLayout(channelFirst)), n)
    ensures PhaseOk(x, PoolEmitted(x.net, k, o, n.inputs[0], n.outputs[0], PoolLayout(channelFirst)), plan', n)
  {
    var src, out, p := n.inputs[0], n.outputs[0], PoolLayout(channelFirst);
    assert n.inputs == [src] && n.outputs == [out];
    assert src in n.inputs && out in n.outputs && TakesOwn(x, k, out, PvOf(PoolEmitted(x.net, k, o, src, out, p), out));
    PoolValue(x, o, n, channelFirst);
    StandardPool(x.net, channelFirst);
    plan' := PooledOk(x, k, plan, o, n, src, out, p);
  }

  /** Whether the input is brought into the layout or is in it already. */
  lemma PoolAlignedOk(x: Setting, k: Work, plan: Plan, n: Node, p: Permute) returns (plan': Plan, more: seq<Mapped>)
    requires Sane(x, k, plan) && SingleIO(n) && Holds(x, k, plan, n.inputs[0]) && n.inputs[0] in x.used
    requires Fits(p, x.v(n.inputs[0]).shape) && Standard(x.net, p)
    ensures var k1 := PoolAligned(k, n.inputs[0], p);
            && Sane(x, k1, plan') && Holds(x, k1, plan', n.inputs[0]) && k1.pv[n.inputs[0]] == p && MovesAll(k, k1, n.inputs, more)
  {
    var src := n.inputs[0];
    more := PoolAlignedMoves(k, n, p);
    RealignVector(k.pv[src], p);
    if k.pv[src] == p {
      plan' := plan;
    } else {
      plan' := AlignVariableOk(x, k, plan, src, p);
      var once := AlignVariableWrites(k, src, p);
      OthersStay(x, k, AlignVariable(k, src, p), plan, plan', src, p, once);
    }
  }

  lemma PoolOk(x: Setting, k: Work, plan: Plan, o: Op, n: Node, channelFirst: bool) returns (plan': Plan)
    requires Prepared(x, k, plan, n) && SingleIO(n) && n.inputs[0] in k.pv && OpMeans(x.net, x.sem, x.v, o, n)
    requires IsPooling(x.net, o, channelFirst) && AllTakeOwn(x, k, OnPool(x.net, k, o, n.inputs[0], n.outputs[0], channelFirst), n)
    ensures PhaseOk(x, OnPool(x.net, k, o, n.inputs[0], n.outputs[0], channelFirst), plan', n)
  {
    var p := PoolLayout(channelFirst);
    var k1 := PoolAligned(k, n.inputs[0], p);
    SoleInput(x, k, plan, n);
    PoolValue(x, o, n, channelFirst);
    StandardPool(x.net, channelFirst);
    var plan1, more := PoolAlignedOk(x, k, plan, n, p);
    MovedPlain(x.net, k, k1, n.inputs, more);
    OutputsUntouched(x, k, k1, PoolEmitted(x.net, k1, o, n.inputs[0], n.outputs[0], p), n, more);
    plan' := PoolEmittedOk(x, k1, plan1, o, n, channelFirst);
  }

  // ---- any family ----

  /** Whatever the family, the handler leaves the operation's outputs standing for their values. */
  lemma InputsOk(x: Setting, k: Work, plan: Plan, o: Op, n: Node) returns (plan': Plan)
    requires Prepared(x, k, plan, n) && OpMeans(x.net, x.sem, x.v, o, n) && o in x.net.s.g.node && n == x.net.s.g.node[o]
    requires RegularAt(x.net, o, n) && (|n.inputs| == 1 ==> n.inputs[0] in k.pv) && AllTakeOwn(x, k, OnInputs(x.net, k, o, n), n)
    ensures PhaseOk(x, OnInputs(x.net, k, o, n), plan', n)
  {
    match if o in x.net.family then x.net.family[o] else Default
    case Default => plan' := DefaultOk(x, k, plan, o, n);
    case Simple => plan' := SimpleOk(x, k, plan, o, n);
    case Transposing(perm) => plan' := TransposeOk(x, k, plan, n, perm);
    case Elementwise => plan' := ElementwiseOk(x, k, plan, o, n);
    case Pooling(channelFirst) => plan' := PoolOk(x, k, plan, o, n, channelFirst);
  }

  // ---- graph outputs ----

  /** Undoing a layout restores the value. */
  lemma UndoneValue(sem: Semantics, w: NewValues, y: Data, p: Permute, m: Mapped, d: Mapped)
    requires Fits(p, y.shape) && w(m) == Transpose(y, p) && w(d) == y
    ensures EmitHolds(sem, w, Permuted(m, Undo(p), d)) && Firm(w, Permuted(m, Undo(p), d))
  {
    TransposeRoundTrip(y, p);
  }

  lemma UndoneRight(x: Setting, plan: Plan, out: Tensor, p: Permute, m: Mapped)
    requires out in x.used && Owned(x, plan, out) && StandsFor(x, plan, out, p, m) && !TakesMapped(x.net, out, p) && Fits(p, x.v(out).shape)
    ensures Right(x, plan, Permuted(m, Undo(p), x.own[out]))
  {
    var w := Intended(x.v, plan);
    assert w(m) == Transpose(x.v(out), p);
    assert w(x.own[out]) == x.v(out) by { TransposeIdentity(x.v(out)); }
    UndoneValue(x.sem, w, x.v(out), p, m, x.own[out]);
  }

  lemma FinishOneOk(x: Setting, r: Work, plan: Plan, out: Tensor)
    requires Planned(x, r, plan) && OutputOk(x, r, plan, out) && out in x.used && Owners(x.net, x.own)
    ensures Planned(x, FinishOutput(x.net, x.own, r, out), plan)
  {
    var p := PvOf(r, out);
    if out in x.net.s.outputs && !Aligned(p) {
      var e := Permuted(MappedOf(r, out), Undo(p), x.own[out]);
      assert Owned(x, plan, out);
      UndoneRight(x, plan, out, p, MappedOf(r, out));
      Emitting(x, r, r, plan, plan, e);
      PlannedSame(x, Append(r, e), FinishOutput(x.net, x.own, r, out), plan);
    } else {
      PlannedSame(x, r, FinishOutput(x.net, x.own, r, out), plan);
    }
  }

  lemma StillOk(x: Setting, r: Work, r1: Work, plan: Plan, t: Tensor, more: seq<Mapped>)
    requires OutputOk(x, r, plan, t) && Untouched(r, r1, t) && SameLayout(r, r1, t) && Writes(r, r1, more)
    ensures OutputOk(x, r1, plan, t)
  {
    HoldsStays(x, r, r1, plan, plan, t);
  }

  lemma {:induction false} FinishOk(x: Setting, r: Work, plan: Plan, outs: seq<Tensor>)
    requires Planned(x, r, plan) && NoDuplicates(outs) && Owners(x.net, x.own)
    requires forall t | t in outs :: t in x.used && OutputOk(x, r, plan, t)
    ensures Planned(x, FinishOutputs(x.net, x.own, r, outs), plan)
    decreases |outs|
  {
    if outs != [] {
      var r1 := FinishOutput(x.net, x.own, r, outs[0]);
      NoDuplicatesTail(outs);
      assert outs == [outs[0]] + outs[1..];
      FinishOneOk(x, r, plan, outs[0]);
      FinishOneWrites(x.net, x.own, r, outs[0]);
      forall t | t in outs[1..] ensures t in x.used && OutputOk(x, r1, plan, t) {
        FinishOneFrame(x.net, x.own, r, outs[0], t);
        StillOk(x, r, r1, plan, t, OneUndone(x.net, x.own, r, outs[0]));
      }
      FinishOk(x, r1, plan, outs[1..]);
    }
  }

  /** A graph output ends up in its own tensor, aligned if somebody reads it. */
  lemma FinishedHolds(x: Setting, r: Work, r1: Work, plan: Plan, outs: seq<Tensor>, t: Tensor)
    requires OutputOk(x, r, plan, t) && FinishedAt(x.net, x.own, r, r1, outs, t) && Owners(x.net, x.own) && 1 <= |x.v(t).shape|
    requires t in outs && (t in x.net.s.outputs ==> Owned(x, plan, t) && ConsumersOf(x.net.s.g, t) != [])
    ensures Holds(x, r1, plan, t)
  {
    if t in x.net.s.outputs {
      StandardAligned(x.net, |x.v(t).shape|);
    } else {
      HoldsStays(x, r, r1, plan, plan, t);
    }
  }

  /** Every graph output the operation writes gets its own tensor written. */
  lemma FinishedWritten(x: Setting, r: Work, plan: Plan, outs: seq<Tensor>, t: Tensor)
    requires OutputOk(x, r, plan, t) && NoDuplicates(outs) && Owners(x.net, x.own) && t in outs && t in x.net.s.outputs
    ensures t in x.own && x.own[t] in Dsts(FinishOutputs(x.net, x.own, r, outs).infer.emitted)
  {
    FinishWrites(x.net, x.own, r, outs);
    if !Aligned(PvOf(r, t)) { UndoneOf(x.net, x.own, r, outs, x.own[t]); }
  }

  /** The raw graph outputs once the operation is handled. */
  ghost predicate RawAfter(x: Setting, raw: set<Tensor>, n: Node) {
    && (forall t | t in x.raw && t !in n.outputs :: t in raw)
    && forall t | t in n.outputs && t in x.net.s.outputs && ConsumersOf(x.net.s.g, t) == [] :: t in raw
  }

  lemma FinishedGood(x: Setting, r: Work, plan: Plan, n: Node, raw: set<Tensor>)
    requires PhaseOk(x, r, plan, n) && NoDuplicates(n.outputs) && Owners(x.net, x.own) && RawAfter(x, raw, n)
    requires forall t: Tensor :: 1 <= |x.v(t).shape|
    ensures Good(x.(raw := raw), FinishOutputs(x.net, x.own, r, n.outputs), plan)
  {
    var r1 := FinishOutputs(x.net, x.own, r, n.outputs);
    forall t | t in r1.pv && t !in raw ensures Holds(x.(raw := raw), r1, plan, t) {
      FinishPlaces(x.net, x.own, r, n.outputs, t);
      if t in n.outputs {
        assert OutputOk(x, r, plan, t) && (t in x.own ==> Owned(x, plan, t));
        FinishedHolds(x, r, r1, plan, n.outputs, t);
      } else {
        HoldsStays(x, r, r1, plan, plan, t);
      }
    }
  }

  lemma PlannedRaw(x: Setting, k: Work, plan: Plan, raw: set<Tensor>)
    requires Planned(x, k, plan)
    ensures Planned(x.(raw := raw), k, plan)
  {
    forall e | e in k.infer.emitted ensures Right(x.(raw := raw), plan, e) { RightStays(x, x.(raw := raw), plan, plan, e); }
    forall t | t in x.own ensures Owned(x.(raw := raw), plan, t) { assert Owned(x, plan, t); }
  }

  /** Handling an operation keeps the plan: everything emitted is right, what has a layout stands in
      it, and the graph outputs it writes are written to their own tensors. */
  lemma HandledOk(x: Setting, k: Work, plan: Plan, o: Op, n: Node, raw: set<Tensor>) returns (plan': Plan)
    requires Prepared(x, k, plan, n) && OpMeans(x.net, x.sem, x.v, o, n) && o in x.net.s.g.node && n == x.net.s.g.node[o]
    requires RegularAt(x.net, o, n) && (|n.inputs| == 1 ==> n.inputs[0] in k.pv) && AllTakeOwn(x, k, OnInputs(x.net, k, o, n), n)
    requires Owners(x.net, x.own) && RawAfter(x, raw, n)
    ensures Sane(x.(raw := raw), HandledWork(x.net, x.own, k, o, n), plan')
    ensures forall t | t in n.outputs && t in x.net.s.outputs ::
              t in x.own && x.own[t] in Dsts(HandledWork(x.net, x.own, k, o, n).infer.emitted)
  {
    var r := OnInputs(x.net, k, o, n);
    plan' := InputsOk(x, k, plan, o, n);
    FinishOk(x, r, plan', n.outputs);
    PlannedRaw(x, HandledWork(x.net, x.own, k, o, n), plan', raw);
    FinishedGood(x, r, plan', n, raw);
    forall t | t in n.outputs && t in x.net.s.outputs
      ensures t in x.own && x.own[t] in Dsts(HandledWork(x.net, x.own, k, o, n).infer.emitted)
    {
      FinishedWritten(x, r, plan', n.outputs, t);
    }
  }
}
