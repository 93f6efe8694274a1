/** A graph output that is read before it is written.  With the input in the pooling layout the
    tensor handed to the caller is written by nobody; with everything aligned nothing is lost. */
module LayoutReadFirst {
  import opened GraphModel
  import opened Permutations
  import opened TensorLayout
  import opened LayoutWorklist
  import opened LayoutHandlers
  import opened LayoutWrites
  import opened LayoutRun
  import opened LayoutOutputs
  import opened LayoutMeaning
  import opened LayoutStarts
  import opened LayoutSound
  import opened LayoutExecutes

  /** Operation 0 writes the graph output 1 from the input 0; operation 1, element-wise, reads
      both and is bound first.  All tensors have four dimensions of length two. */
  function EarlyNetwork(): (net: Network)
    ensures net.s == ReadOutputExample()
  {
    Network(ReadOutputExample(), map[1 := Elementwise], (t: Tensor) => [2, 2, 2, 2], map[], {1})
  }

  /** The input comes in the pooling layout. */
  const POOLED: map<Tensor, Permute> := map[0 := CWHN_TO_WHCN]

  lemma TwoOperations(o: Op)
    ensures o in EarlyNetwork().s.g.ops <==> o < 2
    ensures o < 2 ==> o in EarlyNetwork().s.g.node && EarlyNetwork().s.g.node[o].inputs[0] == 0
  {
  }

  lemma EarlyRegular()
    ensures Regular(EarlyNetwork()) && SingleWriter(EarlyNetwork().s.g)
  {
    var net := EarlyNetwork();
    ReadOutputExampleWellLinked();
    forall o | o in net.s.g.ops ensures Apart(net.s.g.node[o]) && RegularAt(net, o, net.s.g.node[o]) { TwoOperations(o); }
  }

  lemma ReaderReady()
    ensures HasNodes(EarlyNetwork().s.g) && ReadyAtStart(EarlyNetwork().s, 1)
  {
    var s := EarlyNetwork().s;
    TwoOperations(1);
    assert 0 in s.g.node[1].inputs && 0 in s.inputs && Seed(s, 0);
  }

  /** The reader is bound first and so is handled first. */
  lemma EarlyOrder(given: map<Tensor, Permute>)
    ensures WellLinked(EarlyNetwork().s) && [1] <= Order(EarlyNetwork(), given)
    ensures !WritesFirst(EarlyNetwork().s, Order(EarlyNetwork(), given))
  {
    var s := EarlyNetwork().s;
    ReadOutputExampleWellLinked();
    ReaderReady();
    FavouredPass(EarlyNetwork(), given, s, 1);
    var ops := Order(EarlyNetwork(), given);
    assert ops[0] == 1 && Before(ops, 0) == {} && !WrittenBy(s, {}, 1);
    assert 1 in s.outputs && ConsumersOf(s.g, 1) != [] && 1 in s.g.node[1].inputs;
    assert !OutputsInOrder(s, Before(ops, 0), ops[0]);
  }

  lemma PooledDiffers()
    ensures !Aligned(Realigned(Identity(4), CWHN_TO_WHCN))
  {
    PoolLayoutIsPerm(true);
    IdentityIsPerm(4);
    RealignVector(Identity(4), CWHN_TO_WHCN);
    assert CWHN_TO_WHCN[0] == 1 && Identity(4)[0] == 0;
  }

  lemma EarlyLayouts()
    ensures HasNodes(EarlyNetwork().s.g) && StartLayout(EarlyNetwork(), POOLED, 1) == Identity(4)
    ensures StartLayout(EarlyNetwork(), POOLED, 0) == CWHN_TO_WHCN
  {
    StartLayoutIs(EarlyNetwork(), POOLED, 0);
    StartLayoutIs(EarlyNetwork(), POOLED, 1);
    assert Seed(EarlyNetwork().s, 0) && 1 in EarlyNetwork().s.outputs;
  }

  lemma EarlyReference(k: Work)
    requires PvOf(k, 0) == CWHN_TO_WHCN
    ensures ReferenceLayout(EarlyNetwork(), k, [0, 1], [], 0) == CWHN_TO_WHCN
  {
    assert [0, 1][1..] == [1];
    assert ReferenceLayout(EarlyNetwork(), k, [1], CWHN_TO_WHCN, 4) == CWHN_TO_WHCN;
  }

  /** The reader settles on the layout of the input, which is not the one the output starts with. */
  lemma EarlyRelays()
    ensures WellLinked(EarlyNetwork().s) && RelaysAtStart(EarlyNetwork(), POOLED, 1, 1)
  {
    ReadOutputExampleWellLinked();
    EarlyLayouts();
    EarlyReference(WorkOf(SetUp(EarlyNetwork(), POOLED)));
    PooledDiffers();
    ReaderReady();
    TwoOperations(1);
  }

  /** The writer, which has no layout rule, wants the output aligned. */
  lemma EarlyWriter()
    ensures WrittenAligned(EarlyNetwork(), 1) && 1 in EarlyNetwork().s.outputs && 1 in EarlyNetwork().s.g.node[0].outputs
  {
  }

  /** An instance of the failing family: the reader, handled first, has the output moved, and
      nobody writes the tensor handed to the caller for it. */
  lemma EarlyOutputLost()
    ensures Regular(EarlyNetwork()) && !WritesFirst(EarlyNetwork().s, Order(EarlyNetwork(), POOLED))
    ensures RelaysAtStart(EarlyNetwork(), POOLED, 1, 1) && WrittenAligned(EarlyNetwork(), 1)
    ensures 1 in EarlyNetwork().s.outputs && 1 in EarlyNetwork().s.g.node[0].outputs
    ensures var c := InferLayout(EarlyNetwork(), POOLED); 1 in IoMap(c) && IoMap(c)[1] !in Dsts(c.infer.emitted)
  {
    EarlyRegular();
    EarlyOrder(POOLED);
    EarlyRelays();
    EarlyWriter();
    RelayLoses(EarlyNetwork(), POOLED, 1, 1);
  }

  // ---- the same graph with everything aligned ----

  function Rank(o: Op): nat { o }

  function Zeros(t: Tensor): Data {
    Dense([2, 2, 2, 2], seq(Size([2, 2, 2, 2]), i => 0.0))
  }

  lemma EarlyShapes()
    ensures Layouts(EarlyNetwork(), Zeros, map[])
  {
  }

  lemma EarlyComplete()
    ensures WellLinked(EarlyNetwork().s) && Complete(EarlyNetwork(), Rank)
  {
    var net := EarlyNetwork();
    ReadOutputExampleWellLinked();
    forall o | o in net.s.g.ops ensures net.s.g.node[o].kind != -1 && LayoutWorklist.Fed(net.s, o) {
      TwoOperations(o);
      assert net.s.g.node[o].inputs[0] in net.s.g.node[o].inputs;
    }
    forall o, t | o in net.s.g.ops && t in net.s.g.node[o].inputs && Relevant(net.s, t)
      ensures t in net.s.inputs || exists p :: p in net.s.g.ops && t in net.s.g.node[p].outputs
    {
      TwoOperations(0);
      assert 1 in net.s.g.node[0].outputs;
    }
  }

  lemma EarlyOnlyAligned()
    ensures OnlyAligned(EarlyNetwork(), map[])
    ensures forall t | t in EarlyNetwork().s.outputs :: t !in EarlyNetwork().s.constants && t !in EarlyNetwork().s.inputs
  {
  }

  /** Read before it is written, the output still gets its value: nothing is moved. */
  lemma EarlyAligned()
    ensures WellLinked(EarlyNetwork().s) && !WritesFirst(EarlyNetwork().s, Order(EarlyNetwork(), map[]))
    ensures Faithful(EarlyNetwork(), map[])
  {
    EarlyRegular();
    EarlyOrder(map[]);
    EarlyComplete();
    EarlyShapes();
    EarlyOnlyAligned();
    AlignedFaithful(EarlyNetwork(), Zeros, map[], Rank);
  }
}
