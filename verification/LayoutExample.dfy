/** Element-wise operations meet what layout inference asks of them, and a network on which all
    its hypotheses hold: a unary operation and a sum with a constant, the input given in the
    pooling layout. */
module LayoutExample {
  import opened GraphModel
  import opened Permutations
  import opened TensorLayout
  import opened Broadcast
  import opened LayoutWorklist
  import opened LayoutHandlers
  import opened LayoutWrites
  import opened LayoutRun
  import opened LayoutOutputs
  import opened LayoutMeaning
  import opened LayoutStarts
  import opened LayoutSound
  import opened LayoutExecutes

  // ---- element-wise operations ----

  lemma OneOperand(v: Values, n: Node, p: Permute)
    requires |n.inputs| == 1 && Fits(p, v(n.inputs[0]).shape)
    ensures TransposeAll(LayoutMeaning.All(v, n.inputs), p) == [Transpose(v(n.inputs[0]), p)]
  {
  }

  lemma TwoOperands(v: Values, n: Node, p: Permute)
    requires |n.inputs| == 2 && Fits(p, v(n.inputs[0]).shape) && Fits(p, v(n.inputs[1]).shape)
    ensures TransposeAll(LayoutMeaning.All(v, n.inputs), p) == [Transpose(v(n.inputs[0]), p), Transpose(v(n.inputs[1]), p)]
  {
  }

  /** What the operation computes from one or two operands. */
  ghost predicate ComputesUnary(sem: Semantics, o: Op, f: real -> real) {
    forall x: Data :: sem.op(o, [x]) == [Unary(f, x)]
  }

  ghost predicate ComputesBinary(sem: Semantics, o: Op, f: (real, real) -> real) {
    forall x: Data, y: Data :: sem.op(o, [x, y]) == [Binary(f, x, y)]
  }

  lemma BinaryFollowsOne(sem: Semantics, v: Values, o: Op, n: Node, f: (real, real) -> real, p: Permute)
    requires |n.inputs| == 2 && |n.outputs| == 1 && ComputesBinary(sem, o, f)
    requires v(n.outputs[0]) == Binary(f, v(n.inputs[0]), v(n.inputs[1]))
    requires |v(n.inputs[0]).shape| == |v(n.inputs[1]).shape| && Joinable(v(n.inputs[0]).shape, v(n.inputs[1]).shape)
    requires Fits(p, v(n.inputs[0]).shape)
    ensures forall i | 0 <= i < 2 :: Fits(p, LayoutMeaning.All(v, n.inputs)[i].shape)
    ensures Fits(p, v(n.outputs[0]).shape)
    ensures sem.op(o, TransposeAll(LayoutMeaning.All(v, n.inputs), p)) == [Transpose(v(n.outputs[0]), p)]
  {
    BinaryCommutes(f, v(n.inputs[0]), v(n.inputs[1]), p);
    TwoOperands(v, n, p);
  }

  /** An operation that computes a binary element-wise function of operands of one rank
      commutes with every layout. */
  lemma BinaryFollowsLayout(sem: Semantics, v: Values, o: Op, n: Node, f: (real, real) -> real)
    requires |n.inputs| == 2 && |n.outputs| == 1 && ComputesBinary(sem, o, f)
    requires v(n.outputs[0]) == Binary(f, v(n.inputs[0]), v(n.inputs[1]))
    requires |v(n.inputs[0]).shape| == |v(n.inputs[1]).shape| && Joinable(v(n.inputs[0]).shape, v(n.inputs[1]).shape)
    ensures CommutesWithLayout(sem, v, o, n)
  {
    assert n.inputs == [n.inputs[0], n.inputs[1]];
    forall p: Permute | IsPerm(p) && |p| == |v(n.outputs[0]).shape|
      ensures forall i | 0 <= i < |n.inputs| :: Fits(p, LayoutMeaning.All(v, n.inputs)[i].shape)
      ensures sem.op(o, TransposeAll(LayoutMeaning.All(v, n.inputs), p)) == [Transpose(v(n.outputs[0]), p)]
    {
      BinaryFollowsOne(sem, v, o, n, f, p);
    }
  }

  lemma UnaryFollowsLayout(sem: Semantics, v: Values, o: Op, n: Node, f: real -> real)
    requires SingleIO(n) && ComputesUnary(sem, o, f) && v(n.outputs[0]) == Unary(f, v(n.inputs[0]))
    ensures CommutesWithLayout(sem, v, o, n)
  {
    assert n.inputs == [n.inputs[0]];
    forall p: Permute | IsPerm(p) && |p| == |v(n.outputs[0]).shape|
      ensures forall i | 0 <= i < |n.inputs| :: Fits(p, LayoutMeaning.All(v, n.inputs)[i].shape)
      ensures sem.op(o, TransposeAll(LayoutMeaning.All(v, n.inputs), p)) == [Transpose(v(n.outputs[0]), p)]
    {
      UnaryCommutes(f, v(n.inputs[0]), p);
      OneOperand(v, n, p);
    }
  }

  // ---- the network ----

  const UNARY: int := 40
  const SUM: int := 0

  /** Operation 0 reads the input 0 and writes tensor 1; operation 1 reads that and the constant
      3 and writes tensor 2.  Both are graph outputs, so one of them is read. */
  function ExampleGraph(): (g: Graph)
    ensures g.ops == [0, 1] && g.node.Keys == {0, 1}
    ensures g.node[0] == Node(UNARY, [0], [1]) && g.node[1] == Node(SUM, [1, 3], [2])
    ensures ConsumersOf(g, 0) == [0] && ConsumersOf(g, 1) == [1] && ConsumersOf(g, 3) == [1] && ConsumersOf(g, 2) == []
    ensures forall t | t > 3 :: ConsumersOf(g, t) == []
  {
    Graph([0, 1], map[0 := Node(UNARY, [0], [1]), 1 := Node(SUM, [1, 3], [2])],
          map[0 := [0], 1 := [1], 3 := [1]], map[1 := 0, 2 := 1])
  }

  function Plus(a: real, b: real): real {
    a + b
  }

  function ValueOf(f: real -> real, x: Data, c: Data, t: Tensor): Data {
    if t == 1 then Unary(f, x) else if t == 2 then Binary(Plus, Unary(f, x), c) else if t == 3 then c else x
  }

  function ExampleValues(f: real -> real, x: Data, c: Data): Values {
    (t: Tensor) => ValueOf(f, x, c, t)
  }

  function ExampleNetwork(v: Values): Network {
    Network(Source(ExampleGraph(), [0], [1, 2], {3}, {}), map[0 := Simple, 1 := Elementwise],
            (t: Tensor) => v(t).shape, map[3 := v(3)], {1, 2})
  }

  function Compute(f: real -> real, xs: seq<Data>): seq<Data> {
    if |xs| == 1 then [Unary(f, xs[0])] else if |xs| == 2 then [Binary(Plus, xs[0], xs[1])] else []
  }

  function ExampleSemantics(f: real -> real): Semantics {
    Semantics((o: Op, xs: seq<Data>) => Compute(f, xs), (o: Op, x: Data) => x)
  }

  /** The input comes in the pooling layout. */
  const GIVEN: map<Tensor, Permute> := map[0 := CWHN_TO_WHCN]

  function Rank(o: Op): nat { o }

  lemma TablesAgree(t: Tensor, o: Op)
    ensures o in ConsumersOf(ExampleGraph(), t) <==> o in ExampleGraph().ops && t in ExampleGraph().node[o].inputs
  {
    assert t > 3 || t == 0 || t == 1 || t == 2 || t == 3;
  }

  lemma ExampleLinked(v: Values)
    ensures WellLinked(ExampleNetwork(v).s) && SingleWriter(ExampleGraph())
  {
    forall t: Tensor, o: Op
      ensures o in ConsumersOf(ExampleGraph(), t) <==> o in ExampleGraph().ops && t in ExampleGraph().node[o].inputs
    {
      TablesAgree(t, o);
    }
  }

  lemma TwoOperations(o: Op)
    ensures o in ExampleGraph().ops <==> o < 2
  {
  }

  lemma InputSourced(o: Op, t: Tensor)
    requires o in ExampleGraph().ops && t in ExampleGraph().node[o].inputs && t != 3
    ensures t == 0 || exists p :: p in ExampleGraph().ops && t in ExampleGraph().node[p].outputs
  {
    TwoOperations(0);
    assert 1 in ExampleGraph().node[0].outputs;
  }

  lemma ExampleOrdered()
    ensures HasNodes(ExampleGraph()) && Ordered(ExampleGraph(), Rank)
  {
  }

  lemma ExampleComplete(v: Values)
    ensures HasNodes(ExampleGraph()) && Complete(ExampleNetwork(v), Rank)
  {
    var g, s := ExampleGraph(), ExampleNetwork(v).s;
    ExampleOrdered();
    ExampleLinked(v);
    forall o | o in g.ops ensures g.node[o].kind != -1 && LayoutWorklist.Fed(s, o) {
      TwoOperations(o);
      assert g.node[o].inputs[0] in g.node[o].inputs && Relevant(s, g.node[o].inputs[0]);
    }
    forall o, t | o in g.ops && t in g.node[o].inputs && Relevant(s, t)
      ensures t in s.inputs || exists p :: p in g.ops && t in g.node[p].outputs
    {
      InputSourced(o, t);
    }
  }

  lemma ExampleUsable(v: Values)
    ensures Usable(ExampleNetwork(v)) && forall t | t in ExampleNetwork(v).plainOutputs :: t in ExampleNetwork(v).s.outputs
  {
    ExampleLinked(v);
  }

  /** v gives the tensors what the two operations compute from x and c. */
  ghost predicate Computed(f: real -> real, x: Data, c: Data, v: Values) {
    && v(0) == x && v(1) == Unary(f, x) && v(2) == Binary(Plus, Unary(f, x), c) && v(3) == c
    && (forall t: Tensor :: 1 <= |v(t).shape|) && |x.shape| == |c.shape| == 4 && Joinable(x.shape, c.shape)
  }

  lemma ValuesComputed(f: real -> real, x: Data, c: Data)
    requires |x.shape| == |c.shape| == 4 && Joinable(x.shape, c.shape)
    ensures Computed(f, x, c, ExampleValues(f, x, c))
  {
  }

  lemma UnaryMeans(f: real -> real, x: Data, c: Data, v: Values)
    requires Computed(f, x, c, v)
    ensures OpMeans(ExampleNetwork(v), ExampleSemantics(f), v, 0, Node(UNARY, [0], [1]))
  {
    UnaryFollowsLayout(ExampleSemantics(f), v, 0, Node(UNARY, [0], [1]), f);
  }

  lemma SumMeans(f: real -> real, x: Data, c: Data, v: Values)
    requires Computed(f, x, c, v)
    ensures OpMeans(ExampleNetwork(v), ExampleSemantics(f), v, 1, Node(SUM, [1, 3], [2]))
  {
    BinaryFollowsLayout(ExampleSemantics(f), v, 1, Node(SUM, [1, 3], [2]), Plus);
    assert 1 in [1, 3];
  }

  lemma OpSolved(f: real -> real, x: Data, c: Data, v: Values, o: Op)
    requires Computed(f, x, c, v) && o in ExampleGraph().ops
    ensures OpMeans(ExampleNetwork(v), ExampleSemantics(f), v, o, ExampleGraph().node[o])
  {
    TwoOperations(o);
    if o == 0 { UnaryMeans(f, x, c, v); } else { SumMeans(f, x, c, v); }
  }

  lemma ExampleSolves(f: real -> real, x: Data, c: Data, v: Values)
    requires Computed(f, x, c, v)
    ensures HasNodes(ExampleGraph()) && Solves(ExampleNetwork(v), ExampleSemantics(f), v)
  {
    forall o | o in ExampleGraph().ops
      ensures OpMeans(ExampleNetwork(v), ExampleSemantics(f), v, o, ExampleGraph().node[o])
    {
      OpSolved(f, x, c, v, o);
    }
  }

  lemma ExampleGiven(v: Values)
    requires |v(0).shape| == 4
    ensures LayoutsGiven(ExampleNetwork(v), v, GIVEN) && !Aligned(GIVEN[0])
  {
    StandardPool(ExampleNetwork(v), true);
    PoolLayoutIsPerm(true);
    assert CWHN_TO_WHCN[0] == 1 && Identity(4)[0] == 0;
  }

  lemma NoneConstant(v: Values, o: Op)
    requires o in ExampleGraph().ops
    ensures o in ExampleGraph().node && !AllConstant(ExampleNetwork(v).s, o)
  {
    TwoOperations(o);
    assert ExampleGraph().node[o].inputs[0] in ExampleGraph().node[o].inputs;
  }

  lemma ExampleSeeds(v: Values, t: Tensor)
    requires HasNodes(ExampleGraph()) && Seed(ExampleNetwork(v).s, t)
    ensures t == 0
  {
    forall o | o in ExampleGraph().ops ensures !AllConstant(ExampleNetwork(v).s, o) { NoneConstant(v, o); }
  }

  /** Operation 0 can be handled at first, operation 1 only after it. */
  lemma ExampleClosed(v: Values)
    requires HasNodes(ExampleGraph())
    ensures ClosedBut(ExampleNetwork(v).s, 0, {})
  {
    var s := ExampleNetwork(v).s;
    forall o | Enabled(s, {}, o) ensures o == 0 {
      var t :| Queued(s, {}, t) && o in ConsumersOf(s.g, t);
      ExampleSeeds(v, t);
    }
  }

  /** Tensor 1 is read only by operation 1, which waits for it. */
  lemma ExampleInOrder(v: Values)
    ensures WellLinked(ExampleNetwork(v).s) && WritesFirst(ExampleNetwork(v).s, InferLayout(ExampleNetwork(v), GIVEN).order)
  {
    var s := ExampleNetwork(v).s;
    ExampleLinked(v);
    forall t | t in s.outputs && ConsumersOf(s.g, t) != [] ensures ReachedThroughWriter(s, t) {
      assert t == 1;
      ExampleClosed(v);
      forall r | r in s.g.ops && 1 in s.g.node[r].inputs ensures r !in {} && r != 0 { TwoOperations(r); }
      assert ReadersOutside(s, 0, {}, 1) && 0 in s.g.ops && 1 in s.g.node[0].outputs;
    }
    InferredInOrder(ExampleNetwork(v), GIVEN);
  }

  lemma ExampleFaithful(f: real -> real, x: Data, c: Data, v: Values)
    requires Computed(f, x, c, v)
    ensures var net := ExampleNetwork(v);
            && Usable(net) && Solves(net, ExampleSemantics(f), v) && LayoutsGiven(net, v, GIVEN) && Faithful(net, GIVEN)
            && forall t | t in net.plainOutputs :: t in net.s.outputs
  {
    ExampleUsable(v);
    ExampleSolves(f, x, c, v);
    ExampleGiven(v);
    ExampleInOrder(v);
    SolvedRegular(ExampleNetwork(v), ExampleSemantics(f), v);
    InOrderFaithful(ExampleNetwork(v), GIVEN);
  }

  /** For every input and constant that can be added, all the hypotheses hold: the network built
      can be evaluated, and both outputs then have the values the source computes. */
  lemma ExampleInferred(f: real -> real, x: Data, c: Data, v: Values) returns (w: NewValues, level: Mapped -> nat)
    requires Computed(f, x, c, v)
    ensures WellLinked(ExampleNetwork(v).s)
    ensures Satisfies(ExampleSemantics(f), w, InferLayout(ExampleNetwork(v), GIVEN).infer.emitted)
    ensures InputsFed(ExampleNetwork(v), v, w, GIVEN, InferLayout(ExampleNetwork(v), GIVEN)) && Acyclic(InferLayout(ExampleNetwork(v), GIVEN), level)
    ensures var io := IoMap(InferLayout(ExampleNetwork(v), GIVEN));
            1 in io && 2 in io && w(io[1]) == Unary(f, x) && w(io[2]) == Binary(Plus, Unary(f, x), c)
  {
    ExampleFaithful(f, x, c, v);
    ExampleComplete(v);
    w, level := NewGraphComputes(ExampleNetwork(v), ExampleSemantics(f), v, GIVEN, Rank);
    assert 1 in ExampleGraph().ops && 2 in ExampleGraph().node[1].outputs && 2 in ExampleNetwork(v).s.outputs;
    assert 0 in ExampleGraph().ops && 1 in ExampleGraph().node[0].outputs && 1 in ExampleNetwork(v).s.outputs;
  }
}
