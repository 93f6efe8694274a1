/** The transposes of the new graph: none of them leaves its operand as it is. */
module LayoutTransposes {
  import opened GraphModel
  import opened Permutations
  import opened TensorLayout
  import opened LayoutWorklist
  import opened LayoutHandlers
  import opened LayoutRun

  ghost predicate AllMove(k: Work) {
    forall e | e in k.infer.emitted && e.Permuted? :: e.perm != Identity(|e.perm|)
  }

  /** Undoing a layout is no identity unless the layout is. */
  lemma UndoMoves(p: Permute)
    requires !Aligned(p)
    ensures !Aligned(Undo(p))
  {
    if IsPerm(p) { GroupLaws(p, p, p); }
  }

  lemma AlignOneMoves(net: Network, k: Work, t: Tensor, required: Permute)
    requires AllMove(k)
    ensures AllMove(AlignOne(net, k, t, required)) && AllMove(AlignVariable(k, t, required))
  {
  }

  lemma {:induction false} AlignAllMoves(net: Network, k: Work, ts: seq<Tensor>, required: Permute)
    requires AllMove(k)
    ensures AllMove(AlignAll(net, k, ts, required))
    decreases |ts|
  {
    if ts != [] {
      AlignOneMoves(net, k, ts[0], required);
      AlignAllMoves(net, AlignOne(net, k, ts[0], required), ts[1..], required);
    }
  }

  lemma {:induction false} ReverseAllMoves(net: Network, k: Work, ts: seq<Tensor>)
    requires AllMove(k)
    ensures AllMove(ReverseAll(net, k, ts))
    decreases |ts|
  {
    if ts != [] {
      if !Aligned(PvOf(k, ts[0])) { UndoMoves(PvOf(k, ts[0])); }
      ReverseAllMoves(net, ReverseOne(net, k, ts[0]), ts[1..]);
    }
  }

  lemma {:induction false} CreatesNothing(net: Network, k: Work, outs: seq<Tensor>, pvs: seq<Permute>)
    requires |outs| == |pvs|
    ensures CreateOutputs(net, k, outs, pvs).1.infer.emitted == k.infer.emitted
    decreases |outs|
  {
    if outs != [] { CreatesNothing(net, CreateOutput(net, k, outs[0], pvs[0]).1, outs[1..], pvs[1..]); }
  }

  lemma RebuildMoves(net: Network, k: Work, o: Op, ins: seq<Tensor>, outs: seq<Tensor>, pvs: seq<Permute>)
    requires AllMove(k) && |outs| == |pvs|
    ensures AllMove(Rebuild(net, k, o, ins, outs, pvs))
  {
    var (ds, k1) := CreateOutputs(net, k, outs, pvs);
    CreatesNothing(net, k, outs, pvs);
    SetLays(Append(k1, Rebuilt(o, MappedAll(k1, ins), ds)), outs, pvs);
  }

  lemma DefaultMoves(net: Network, k: Work, o: Op, n: Node)
    requires AllMove(k)
    ensures AllMove(OnDefault(net, k, o, n))
  {
    ReverseAllMoves(net, k, n.inputs);
    RebuildMoves(net, ReverseAll(net, k, n.inputs), o, n.inputs, n.outputs, DefaultLayouts(net, n.outputs));
  }

  lemma ElementwiseMoves(net: Network, k: Work, o: Op, ins: seq<Tensor>, out: Tensor, required: Permute)
    requires AllMove(k)
    ensures AllMove(OnElementwise(net, k, o, ins, out, required))
  {
    AlignAllMoves(net, k, ins, required);
    RebuildMoves(net, AlignAll(net, k, ins, required), o, ins, [out], [required]);
  }

  lemma PoolMoves(net: Network, k: Work, o: Op, src: Tensor, out: Tensor, channelFirst: bool)
    requires AllMove(k)
    ensures AllMove(OnPool(net, k, o, src, out, channelFirst))
  {
    AlignOneMoves(net, k, src, PoolLayout(channelFirst));
  }

  lemma InputsMove(net: Network, k: Work, o: Op, n: Node)
    requires AllMove(k)
    ensures AllMove(OnInputs(net, k, o, n))
  {
    DefaultMoves(net, k, o, n);
    if o in net.family && OneOutput(n) {
      var src, out := n.inputs[0], n.outputs[0];
      match net.family[o]
      case Default =>
      case Simple => RebuildMoves(net, k, o, [src], [out], [PvOf(k, src)]);
      case Transposing(perm) => assert AllMove(OnTranspose(net, k, src, out, perm));
      case Elementwise => ElementwiseMoves(net, k, o, n.inputs, out, ReferenceLayout(net, k, n.inputs, [], 0));
      case Pooling(channelFirst) => PoolMoves(net, k, o, src, out, channelFirst);
    }
  }

  lemma {:induction false} FinishMoves(net: Network, own: map<Tensor, Mapped>, k: Work, outs: seq<Tensor>)
    requires AllMove(k)
    ensures AllMove(FinishOutputs(net, own, k, outs))
    decreases |outs|
  {
    if outs != [] {
      if !Aligned(PvOf(k, outs[0])) { UndoMoves(PvOf(k, outs[0])); }
      FinishMoves(net, own, FinishOutput(net, own, k, outs[0]), outs[1..]);
    }
  }

  lemma {:induction false} SetUpMoves(net: Network, given: map<Tensor, Permute>, c: Context<Emit>, ts: seq<Tensor>)
    requires AllMove(WorkOf(c))
    ensures AllMove(WorkOf(AddSources(net, given, c, ts)))
    decreases |ts|
  {
    if ts != [] { SetUpMoves(net, given, AddSource(net, given, c, ts[0]), ts[1..]); }
  }

  lemma {:induction false} RunMoves(net: Network, trace: Trace, ops: seq<Op>, i: nat)
    requires HasNodes(net.s.g) && Run(net, trace, ops) && AllMove(WorkOf(trace[0])) && i <= |ops|
    ensures AllMove(WorkOf(trace[i]))
  {
    if i > 0 {
      var c, o := trace[i - 1], ops[i - 1];
      RunMoves(net, trace, ops, i - 1);
      assert Step(net, c, o, trace[i]);
      StepWork(net, c, o);
      InputsMove(net, WorkOf(c), o, net.s.g.node[o]);
      FinishMoves(net, c.outputMap, OnInputs(net, WorkOf(c), o, net.s.g.node[o]), net.s.g.node[o].outputs);
    }
  }

  /** The pass never inserts a transpose that changes nothing. */
  lemma EveryTransposeMoves(net: Network, given: map<Tensor, Permute>, e: Emit)
    requires WellLinked(net.s) && e in InferLayout(net, given).infer.emitted && e.Permuted?
    ensures exists i :: 0 <= i < |e.perm| && e.perm[i] != i
  {
    var c0, consts := FreshContext(net.s), ConstantInputs(net.s, net.s.g.ops);
    var c1 := AddInputs(net, given, c0, net.s.inputs);
    AddInputsFrame(net, given, c0, net.s.inputs);
    SetUpMoves(net, given, c1, consts);
    AddOutputsFrame(net, given, AddSources(net, given, c1, consts), net.s.outputs);
    PassRuns(net, given);
    RunMoves(net, PassTrace(net, given), Order(net, given), |Order(net, given)|);
  }

  // ---- operations that follow their inputs ----

  /** Every listed tensor is a variable one that stands in the layout. */
  predicate AllIn(net: Network, k: Work, ts: seq<Tensor>, p: Permute) {
    forall t | t in ts :: t !in net.s.constants && t in k.pv && k.pv[t] == p && t in k.tensorMap
  }

  lemma {:induction false} AlignAllSame(net: Network, k: Work, ts: seq<Tensor>, p: Permute)
    requires AllIn(net, k, ts, p) && IsPerm(p)
    ensures AlignAll(net, k, ts, p) == k
    decreases |ts|
  {
    if ts != [] {
      RealignVector(p, p);
      assert ts[0] in ts && AlignOne(net, k, ts[0], p) == k;
      AlignAllSame(net, k, ts[1..], p);
    }
  }

  lemma {:induction false} ReferenceSame(net: Network, k: Work, ts: seq<Tensor>, p: Permute, best: Permute, rank: nat)
    requires AllIn(net, k, ts, p) && (best == p || (ts != [] && RankOf(net, ts[0]) > rank))
    ensures ReferenceLayout(net, k, ts, best, rank) == p
    decreases |ts|
  {
    if ts != [] {
      assert ts[0] in ts;
      if RankOf(net, ts[0]) > rank {
        ReferenceSame(net, k, ts[1..], p, p, RankOf(net, ts[0]));
      } else {
        ReferenceSame(net, k, ts[1..], p, best, rank);
      }
    }
  }

  /** What rebuilding an operation with one output does. */
  lemma RebuiltOne(net: Network, k: Work, o: Op, ins: seq<Tensor>, out: Tensor, p: Permute)
    requires out !in net.plainOutputs && out !in ins
    ensures Rebuild(net, k, o, ins, [out], [p])
            == Work(k.pv[out := p], k.tensorMap[out := k.infer.next],
                    Inferred(k.infer.next + 1, k.infer.emitted + [Rebuilt(o, MappedAll(k, ins), [k.infer.next])]))
  {
    var (d, k1) := CreateOutput(net, k, out, p);
    var none: seq<Tensor> := [];
    assert [out][1..] == none && [p][1..] == [];
    assert CreateOutputs(net, k1, none, []) == ([], k1);
    assert [d] + [] == [d];
    assert CreateOutputs(net, k, [out], [p]) == ([d], k1);
    assert MappedAll(k1, ins) == MappedAll(k, ins);
    var k2 := Append(k1, Rebuilt(o, MappedAll(k, ins), [d]));
    assert SetLayouts(k2.(pv := k2.pv[out := p]), none, []) == k2.(pv := k2.pv[out := p]);
    assert SetLayouts(k2, [out], [p]) == k2.(pv := k2.pv[out := p]);
  }

  lemma FinishNothing(net: Network, own: map<Tensor, Mapped>, k: Work, out: Tensor)
    requires out !in net.s.outputs
    ensures FinishOutputs(net, own, k, [out]) == k
  {
    assert FinishOutput(net, own, k, out) == k;
    assert [out][1..] == [];
  }

  /** A single-input operation, or an element-wise one whose inputs are in one layout, is rebuilt on
      the tensors it finds, hands their layout on, and causes no transpose. */
  lemma LayoutPassesThrough(net: Network, c: Context<Emit>, o: Op, n: Node, p: Permute)
    requires o in net.s.g.node && n == net.s.g.node[o] && o in net.family && OneOutput(n) && IsPerm(p)
    requires (net.family[o] == Simple && |n.inputs| == 1) || (net.family[o] == Elementwise && RankOf(net, n.inputs[0]) > 0)
    requires AllIn(net, WorkOf(c), n.inputs, p)
    requires n.outputs[0] !in net.s.outputs && n.outputs[0] !in net.plainOutputs && n.outputs[0] !in n.inputs
    ensures var e := Infer(net, c, o);
            && e.infer.emitted == c.infer.emitted + [Rebuilt(o, MappedAll(WorkOf(c), n.inputs), [c.infer.next])]
            && e.pv == c.pv[n.outputs[0] := p] && e.tensorMap == c.tensorMap[n.outputs[0] := c.infer.next]
            && e.next == n.outputs
  {
    var k, out := WorkOf(c), n.outputs[0];
    assert n.outputs == [out];
    assert n.inputs[0] in n.inputs;
    RebuiltOne(net, k, o, n.inputs, out, p);
    if net.family[o] == Simple {
      assert n.inputs == [n.inputs[0]];
    } else {
      AlignAllSame(net, k, n.inputs, p);
      ReferenceSame(net, k, n.inputs, p, [], 0);
    }
    assert OnInputs(net, k, o, n) == Rebuild(net, k, o, n.inputs, [out], [p]);
    FinishNothing(net, c.outputMap, OnInputs(net, k, o, n), out);
    ReturnedExactly(net, c, o);
  }
}
