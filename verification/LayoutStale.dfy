/** A graph output that is given a layout of its own and read before it is written.  The reader takes
    its tensor for laid out so, the writer writes it as in the source, and the reader's result is
    right exactly if the operation cannot tell. */
module LayoutStale {
  import opened GraphModel
  import opened Permutations
  import opened TensorLayout
  import opened LayoutWorklist
  import opened LayoutHandlers
  import opened LayoutWrites
  import opened LayoutRun
  import opened LayoutOutputs
  import opened LayoutMeaning
  import opened LayoutStarts
  import opened LayoutSound
  import opened LayoutExecutes

  // ---- what is emitted stays ----

  predicate Grown(k: Work, r: Work) {
    k.infer.emitted <= r.infer.emitted
  }

  lemma {:induction false} AlignAllGrows(net: Network, k: Work, ts: seq<Tensor>, required: Permute)
    ensures Grown(k, AlignAll(net, k, ts, required))
    decreases |ts|
  {
    if ts != [] {
      assert Grown(k, AlignOne(net, k, ts[0], required));
      AlignAllGrows(net, AlignOne(net, k, ts[0], required), ts[1..], required);
    }
  }

  lemma {:induction false} ReverseAllGrows(net: Network, k: Work, ts: seq<Tensor>)
    ensures Grown(k, ReverseAll(net, k, ts))
    decreases |ts|
  {
    if ts != [] {
      assert Grown(k, ReverseOne(net, k, ts[0]));
      ReverseAllGrows(net, ReverseOne(net, k, ts[0]), ts[1..]);
    }
  }

  lemma {:induction false} CreateGrows(net: Network, k: Work, outs: seq<Tensor>, pvs: seq<Permute>)
    requires |outs| == |pvs|
    ensures CreateOutputs(net, k, outs, pvs).1.infer.emitted == k.infer.emitted
    decreases |outs|
  {
    if outs != [] { CreateGrows(net, CreateOutput(net, k, outs[0], pvs[0]).1, outs[1..], pvs[1..]); }
  }

  lemma RebuildGrows(net: Network, k: Work, o: Op, ins: seq<Tensor>, outs: seq<Tensor>, pvs: seq<Permute>)
    requires |outs| == |pvs|
    ensures Grown(k, Rebuild(net, k, o, ins, outs, pvs))
  {
    var (ds, k1) := CreateOutputs(net, k, outs, pvs);
    CreateGrows(net, k, outs, pvs);
    SetLays(Append(k1, Rebuilt(o, MappedAll(k1, ins), ds)), outs, pvs);
  }

  lemma DefaultGrows(net: Network, k: Work, o: Op, n: Node)
    ensures Grown(k, OnDefault(net, k, o, n))
  {
    ReverseAllGrows(net, k, n.inputs);
    RebuildGrows(net, ReverseAll(net, k, n.inputs), o, n.inputs, n.outputs, DefaultLayouts(net, n.outputs));
  }

  lemma ElementwiseGrows(net: Network, k: Work, o: Op, ins: seq<Tensor>, out: Tensor, required: Permute)
    ensures Grown(k, OnElementwise(net, k, o, ins, out, required))
  {
    AlignAllGrows(net, k, ins, required);
    RebuildGrows(net, AlignAll(net, k, ins, required), o, ins, [out], [required]);
  }

  lemma PoolGrows(net: Network, k: Work, o: Op, src: Tensor, out: Tensor, channelFirst: bool)
    ensures Grown(k, OnPool(net, k, o, src, out, channelFirst))
  {
    assert Grown(k, PoolAligned(k, src, PoolLayout(channelFirst)));
  }

  lemma InputsGrow(net: Network, k: Work, o: Op, n: Node)
    ensures Grown(k, OnInputs(net, k, o, n))
  {
    DefaultGrows(net, k, o, n);
    if o in net.family && OneOutput(n) {
      match net.family[o]
      case Default =>
      case Simple => RebuildGrows(net, k, o, [n.inputs[0]], [n.outputs[0]], [PvOf(k, n.inputs[0])]);
      case Transposing(perm) => assert Grown(k, OnTranspose(net, k, n.inputs[0], n.outputs[0], perm));
      case Elementwise => ElementwiseGrows(net, k, o, n.inputs, n.outputs[0], ReferenceLayout(net, k, n.inputs, [], 0));
      case Pooling(channelFirst) => PoolGrows(net, k, o, n.inputs[0], n.outputs[0], channelFirst);
    }
  }

  lemma {:induction false} FinishGrows(net: Network, own: map<Tensor, Mapped>, k: Work, outs: seq<Tensor>)
    ensures Grown(k, FinishOutputs(net, own, k, outs))
    decreases |outs|
  {
    if outs != [] {
      assert Grown(k, FinishOutput(net, own, k, outs[0]));
      FinishGrows(net, own, FinishOutput(net, own, k, outs[0]), outs[1..]);
    }
  }

  lemma StepGrows(net: Network, c: Context<Emit>, o: Op, c': Context<Emit>)
    requires HasNodes(net.s.g) && Step(net, c, o, c')
    ensures c.infer.emitted <= c'.infer.emitted
  {
    var n := net.s.g.node[o];
    StepWork(net, c, o);
    InputsGrow(net, WorkOf(c), o, n);
    FinishGrows(net, c.outputMap, OnInputs(net, WorkOf(c), o, n), n.outputs);
  }

  lemma {:induction false} RunGrows(net: Network, trace: Trace, ops: seq<Op>, i: nat, e: Emit)
    requires Run(net, trace, ops) && 1 <= i <= |ops| && e in trace[1].infer.emitted
    ensures e in trace[i].infer.emitted
  {
    if i > 1 {
      RunGrows(net, trace, ops, i - 1, e);
      StepGrows(net, trace[i - 1], ops[i - 1], trace[i]);
    }
  }

  // ---- graph inputs before the loop ----

  ghost predicate InputsPlaced(c: Context<Emit>) {
    forall t | t in c.inputMap :: t in c.tensorMap && c.tensorMap[t] == c.inputMap[t]
  }

  predicate InputAt(c: Context<Emit>, t: Tensor) {
    t in c.inputMap && t in c.tensorMap && c.tensorMap[t] == c.inputMap[t]
  }

  lemma {:induction false} AddInputsPlaced(net: Network, given: map<Tensor, Permute>, c: Context<Emit>, ts: seq<Tensor>)
    requires InputsPlaced(c)
    ensures InputsPlaced(AddInputs(net, given, c, ts))
    ensures forall t | t in ts || t in c.inputMap :: t in AddInputs(net, given, c, ts).inputMap
    decreases |ts|
  {
    if ts != [] {
      assert ts == [ts[0]] + ts[1..];
      AddInputsPlaced(net, given, AddInput(net, given, c, ts[0]), ts[1..]);
    }
  }

  lemma {:induction false} AddSourcesInput(net: Network, given: map<Tensor, Permute>, c: Context<Emit>, ts: seq<Tensor>, t: Tensor)
    requires InputAt(c, t) && t !in ts
    ensures InputAt(AddSources(net, given, c, ts), t)
    decreases |ts|
  {
    if ts != [] {
      assert ts == [ts[0]] + ts[1..];
      AddSourcesInput(net, given, AddSource(net, given, c, ts[0]), ts[1..], t);
    }
  }

  lemma {:induction false} AddOutputsInput(net: Network, given: map<Tensor, Permute>, c: Context<Emit>, ts: seq<Tensor>, t: Tensor)
    requires InputAt(c, t) && t !in ts
    ensures InputAt(AddOutputs(net, given, c, ts), t)
    decreases |ts|
  {
    if ts != [] {
      assert ts == [ts[0]] + ts[1..];
      AddOutputsInput(net, given, AddOutput(net, given, c, ts[0]), ts[1..], t);
    }
  }

  lemma SetUpInput(net: Network, given: map<Tensor, Permute>, t: Tensor)
    requires HasNodes(net.s.g) && t in net.s.inputs && t !in net.s.outputs && t !in net.s.constants
    ensures InputAt(SetUp(net, given), t)
  {
    var c0, consts := FreshContext(net.s), ConstantInputs(net.s, net.s.g.ops);
    var c1 := AddInputs(net, given, c0, net.s.inputs);
    AddInputsPlaced(net, given, c0, net.s.inputs);
    AddSourcesInput(net, given, c1, consts, t);
    AddOutputsInput(net, given, AddSources(net, given, c1, consts), net.s.outputs, t);
  }

  // ---- the reader ----

  /** r, element-wise, reads the graph input i and the graph output t, both given in layout p, and
      writes the graph output u. */
  ghost predicate ReadsStale(net: Network, given: map<Tensor, Permute>, r: Op, i: Tensor, t: Tensor, u: Tensor, p: Permute)
    requires HasNodes(net.s.g)
  {
    && r in net.s.g.ops && net.s.g.node[r].inputs == [i, t] && net.s.g.node[r].outputs == [u] && u != i && u != t
    && r in net.family && net.family[r] == Elementwise && i !in net.s.constants && t !in net.s.constants && RankOf(net, i) > 0
    && i in net.s.inputs && i !in net.s.outputs && t in net.s.outputs && u in net.s.outputs
    && i in given && given[i] == p && t in given && given[t] == p && IsPerm(p) && !Aligned(p)
  }

  /** A tensor that is in the layout stays as it is. */
  lemma AlignSame(net: Network, k: Work, t: Tensor, p: Permute)
    requires t !in net.s.constants && t in k.pv && k.pv[t] == p && t in k.tensorMap && IsPerm(p)
    ensures AlignOne(net, k, t, p) == k
  {
    RealignVector(p, p);
  }

  lemma BothInLayout(net: Network, k: Work, r: Op, i: Tensor, t: Tensor, u: Tensor, p: Permute)
    requires i !in net.s.constants && t !in net.s.constants && RankOf(net, i) > 0 && IsPerm(p)
    requires i in k.pv && k.pv[i] == p && t in k.pv && k.pv[t] == p && i in k.tensorMap && t in k.tensorMap
    ensures ReferenceLayout(net, k, [i, t], [], 0) == p && AlignAll(net, k, [i, t], p) == k
  {
    AlignSame(net, k, i, p);
    AlignSame(net, k, t, p);
    assert [i, t][1..] == [t] && [t][1..] == [];
    assert ReferenceLayout(net, k, [t], p, RankOf(net, i)) == p;
    assert AlignAll(net, k, [t], p) == k;
  }

  /** What rebuilding one operation with two inputs for one output emits. */
  lemma RebuiltTwo(net: Network, k: Work, r: Op, i: Tensor, t: Tensor, u: Tensor, p: Permute)
    requires !Aligned(p) && u != i && u != t
    ensures var k1, d := Rebuild(net, k, r, [i, t], [u], [p]), k.infer.next;
            && Rebuilt(r, [MappedOf(k, i), MappedOf(k, t)], [d]) in k1.infer.emitted
            && u in k1.pv && k1.pv[u] == p && u in k1.tensorMap && k1.tensorMap[u] == d
  {
    OneCreated(net, k, u, p);
    var (ds, k1) := CreateOutputs(net, k, [u], [p]);
    assert MappedAll(k1, [i, t]) == [MappedOf(k, i), MappedOf(k, t)];
    SetLays(Append(k1, Rebuilt(r, MappedAll(k1, [i, t]), ds)), [u], [p]);
    SetLayoutsAt(Append(k1, Rebuilt(r, MappedAll(k1, [i, t]), ds)), [u], [p], 0);
  }

  lemma FinishedOne(net: Network, own: map<Tensor, Mapped>, k: Work, u: Tensor, p: Permute, d: Mapped)
    requires u in net.s.outputs && u in own && u in k.pv && k.pv[u] == p && u in k.tensorMap && k.tensorMap[u] == d
    requires IsPerm(p) && !Aligned(p)
    ensures Permuted(d, Reverse(p), own[u]) in FinishOutputs(net, own, k, [u]).infer.emitted
  {
    assert [u][1..] == [];
    assert FinishOutputs(net, own, k, [u]) == FinishOutput(net, own, k, u);
  }

  /** Before the loop both inputs are in the layout, mapped to the tensors handed to the caller. */
  lemma StaleStart(net: Network, given: map<Tensor, Permute>, r: Op, i: Tensor, t: Tensor, u: Tensor, p: Permute)
    requires Regular(net) && ReadsStale(net, given, r, i, t, u, p)
    ensures var c := SetUp(net, given);
            && i in c.pv && c.pv[i] == p && t in c.pv && c.pv[t] == p && InputAt(c, i) && PlacedAt(c, t) && PlacedAt(c, u)
  {
    SetUpStarts(net, given);
    StartLayoutIs(net, given, i);
    StartLayoutIs(net, given, t);
    SetUpInput(net, given, i);
    SetUpPlaced(net, given);
    SetUpOrderly(net, given);
  }

  /** The reader takes the tensor of t as it is. */
  lemma StaleEmits(net: Network, given: map<Tensor, Permute>, c: Context<Emit>, r: Op, i: Tensor, t: Tensor, u: Tensor, p: Permute, c': Context<Emit>)
    requires HasNodes(net.s.g) && ReadsStale(net, given, r, i, t, u, p) && Step(net, c, r, c')
    requires i in c.pv && c.pv[i] == p && t in c.pv && c.pv[t] == p && InputAt(c, i) && PlacedAt(c, t) && u in c.outputMap
    ensures Rebuilt(r, [c.inputMap[i], c.outputMap[t]], [c.infer.next]) in c'.infer.emitted
    ensures Permuted(c.infer.next, Reverse(p), c.outputMap[u]) in c'.infer.emitted
  {
    var k, d := WorkOf(c), c.infer.next;
    var k1 := Rebuild(net, k, r, [i, t], [u], [p]);
    StepWork(net, c, r);
    BothInLayout(net, k, r, i, t, u, p);
    assert OnInputs(net, k, r, net.s.g.node[r]) == k1;
    RebuiltTwo(net, k, r, i, t, u, p);
    FinishGrows(net, c.outputMap, k1, [u]);
    FinishedOne(net, c.outputMap, k1, u, p, d);
  }

  lemma StaleEmitted(net: Network, given: map<Tensor, Permute>, r: Op, i: Tensor, t: Tensor, u: Tensor, p: Permute) returns (d: Mapped)
    requires Regular(net) && [r] <= Order(net, given) && ReadsStale(net, given, r, i, t, u, p)
    ensures var c := InferLayout(net, given);
            && i in c.inputMap && t in IoMap(c) && u in IoMap(c)
            && Rebuilt(r, [c.inputMap[i], IoMap(c)[t]], [d]) in c.infer.emitted && Permuted(d, Reverse(p), IoMap(c)[u]) in c.infer.emitted
  {
    var trace, ops := PassTrace(net, given), Order(net, given);
    PassRuns(net, given);
    RunFrame(net, trace, ops, |ops|);
    StaleStart(net, given, r, i, t, u, p);
    assert ops[0] == r && Step(net, trace[0], ops[0], trace[1]);
    StaleEmits(net, given, trace[0], r, i, t, u, p, trace[1]);
    d := trace[0].infer.next;
    RunGrows(net, trace, ops, |ops|, Rebuilt(r, [trace[0].inputMap[i], trace[0].outputMap[t]], [d]));
    RunGrows(net, trace, ops, |ops|, Permuted(d, Reverse(p), trace[0].outputMap[u]));
  }

  /** Undoing the layout gives y exactly from y in the layout. */
  lemma UndoneExactly(z: Data, y: Data, p: Permute)
    requires Fits(p, z.shape) && Fits(p, y.shape)
    ensures Fits(Reverse(p), z.shape) && (Transpose(z, Reverse(p)) == y <==> z == Transpose(y, p))
  {
    TransposeRoundTrip(z, p);
    TransposeRoundTrip(y, p);
  }

  lemma TwoTransposed(v: Values, i: Tensor, t: Tensor, p: Permute)
    requires Fits(p, v(i).shape) && Fits(p, v(t).shape)
    ensures TransposeAll(LayoutMeaning.All(v, [i, t]), p) == [Transpose(v(i), p), Transpose(v(t), p)]
  {
  }

  lemma TwoOperands(sem: Semantics, v: Values, o: Op, n: Node, i: Tensor, t: Tensor, u: Tensor, p: Permute)
    requires n.inputs == [i, t] && n.outputs == [u] && CommutesWithLayout(sem, v, o, n) && IsPerm(p) && |p| == |v(u).shape|
    ensures Fits(p, v(i).shape) && Fits(p, v(t).shape) && Fits(p, v(u).shape)
    ensures sem.op(o, [Transpose(v(i), p), Transpose(v(t), p)]) == [Transpose(v(u), p)]
  {
    assert i in n.inputs && t in n.inputs;
    assert sem.op(o, TransposeAll(LayoutMeaning.All(v, n.inputs), p)) == [Transpose(v(n.outputs[0]), p)];
    TwoTransposed(v, i, t, p);
  }

  /** The operation makes one tensor of this rank of the two. */
  ghost predicate MakesOne(sem: Semantics, o: Op, x: Data, y: Data, rank: nat) {
    |sem.op(o, [x, y])| == 1 && |sem.op(o, [x, y])[0].shape| == rank
  }

  lemma StaleEquations(sem: Semantics, w: NewValues, r: Op, a: Mapped, b: Mapped, d: Mapped, e: Mapped, p: Permute, y: Data)
    requires IsPerm(p) && EmitHolds(sem, w, Rebuilt(r, [a, b], [d])) && EmitHolds(sem, w, Permuted(d, Reverse(p), e))
    requires Fits(p, y.shape) && MakesOne(sem, r, w(a), w(b), |p|)
    ensures w(e) == y <==> sem.op(r, [w(a), w(b)]) == [Transpose(y, p)]
  {
    assert LayoutMeaning.All(w, [a, b]) == [w(a), w(b)] && LayoutMeaning.All(w, [d]) == [w(d)];
    UndoneExactly(w(d), y, p);
  }

  /** The tensor handed to the caller has the value. */
  predicate Returns(c: Context<Emit>, w: NewValues, t: Tensor, x: Data) {
    t in IoMap(c) && w(IoMap(c)[t]) == x
  }

  /** The reader handled first, the value of its result, in any solution in which t gets its own, is
      right exactly if the operation makes the same of t in its layout and of t as in the source. */
  lemma StaleRightExactlyWhen(net: Network, sem: Semantics, v: Values, w: NewValues, given: map<Tensor, Permute>,
                              r: Op, i: Tensor, t: Tensor, u: Tensor, p: Permute)
    requires Regular(net) && Solves(net, sem, v) && [r] <= Order(net, given) && ReadsStale(net, given, r, i, t, u, p)
    requires |p| == |v(u).shape| == |v(i).shape| == |v(t).shape| && MakesOne(sem, r, Laid(v(i), p), v(t), |p|)
    requires Satisfies(sem, w, InferLayout(net, given).infer.emitted) && InputsFed(net, v, w, given, InferLayout(net, given))
    requires Returns(InferLayout(net, given), w, t, v(t))
    ensures Returns(InferLayout(net, given), w, u, v(u))
            <==> sem.op(r, [Laid(v(i), p), v(t)]) == sem.op(r, [Laid(v(i), p), Laid(v(t), p)])
  {
    var c, n := InferLayout(net, given), net.s.g.node[r];
    assert OpMeans(net, sem, v, r, n);
    TwoOperands(sem, v, r, n, i, t, u, p);
    var d := StaleEmitted(net, given, r, i, t, u, p);
    StaleEquations(sem, w, r, c.inputMap[i], IoMap(c)[t], d, IoMap(c)[u], p, v(u));
  }
}
