/** A normalisation written out as eleven operations, fed by another one, and two graphs that
    differ from it in one operand.  The pass matches all three; on the first a step keeps the
    meaning for exactly the right dimensions, on the other two it does not. */
module FusionExample {
  import opened GraphModel
  import opened FusionMatch
  import opened FusionRemove
  import Permutations
  import opened TensorLayout
  import opened Broadcast
  import opened Normalize
  import opened NormalizePattern
  import opened NormalizeAxes
  import opened FusionMeaning
  import opened FusionResult
  import opened FusionSound
  import opened FusionOutputs

  // Operation i < 11 writes tensor i + 1, operation 11 copies tensor 16 to tensor 0, the
  // source.  Tensors 12 to 15 are the exponent, epsilon, gamma and beta.

  /** Mean0 reads the source or tensor 17; Pow's exponent is the constant or the source. */
  datatype Variant = Plain | OtherMean | OwnExponent

  function MeanInput(e: Variant): Tensor {
    if e.OtherMean? then 17 else 0
  }

  function Exponent(e: Variant): Tensor {
    if e.OwnExponent? then 0 else 12
  }

  function OperandsOf(e: Variant, o: Op): (ts: seq<Tensor>) {
    if o == 0 then [MeanInput(e)]
    else if o == 1 then [0, 1]
    else if o == 2 then [2, Exponent(e)]
    else if o == 3 then [3]
    else if o == 4 then [4, 13]
    else if o == 5 then [5]
    else if o == 6 then [6, 14]
    else if o == 7 then [0, 7]
    else if o == 8 then [1, 7]
    else if o == 9 then [15, 9]
    else if o == 10 then [8, 10]
    else [16]
  }

  function ReadBy(e: Variant, t: Tensor): (ops: seq<Op>) {
    if t == 0 then (if e.Plain? then [0, 1, 7] else if e.OtherMean? then [1, 7] else [0, 1, 2, 7])
    else if t == 1 then [1, 8]
    else if t == 7 then [7, 8]
    else if t == 2 then [2]
    else if t == 12 then (if e.OwnExponent? then [] else [2])
    else if t == 3 then [3]
    else if t == 4 || t == 13 then [4]
    else if t == 5 then [5]
    else if t == 6 || t == 14 then [6]
    else if t == 9 || t == 15 then [9]
    else if t == 8 || t == 10 then [10]
    else if t == 16 then [11]
    else if t == 17 && e.OtherMean? then [0]
    else []
  }

  const COPY: int := 200

  function KindOf(o: Op): int {
    if o == 0 || o == 3 then REDUCE
    else if o == 1 || o == 9 then SUBTRACT
    else if o == 2 then POW
    else if o == 4 || o == 10 then ADD
    else if o == 5 then RSQRT
    else if o == 11 then COPY
    else MULTIPLY
  }

  function ResultOf(o: Op): Tensor {
    if o == 11 then 0 else o + 1
  }

  function MakerOf(t: Tensor): Op {
    if t == 0 then 11 else t - 1
  }

  /** The operations in creation order. */
  function Upto(n: nat): (s: seq<Op>)
    ensures |s| == n && forall i | 0 <= i < n :: s[i] == i
  {
    seq(n, i => i)
  }

  lemma InUpto(n: nat, o: Op)
    ensures o in Upto(n) <==> o < n
  {
    if o < n { assert Upto(n)[o] == o; }
  }

  function NodeOf(e: Variant, o: Op): Node {
    Node(KindOf(o), OperandsOf(e, o), [ResultOf(o)])
  }

  function Example(e: Variant): Graph {
    Graph(Upto(12),
          map o: Op | 0 <= o < 12 :: NodeOf(e, o),
          map t: Tensor | 0 <= t < 18 :: ReadBy(e, t),
          map t: Tensor | 0 <= t <= 11 :: MakerOf(t))
  }

  lemma ExampleNodes(e: Variant)
    ensures forall o: Op :: o in Example(e).node <==> o < 12
    ensures forall o: Op | o < 12 :: Example(e).node[o] == NodeOf(e, o)
  {
  }

  lemma ExampleReaders(e: Variant)
    ensures forall t: Tensor :: ConsumersOf(Example(e), t) == ReadBy(e, t)
  {
  }

  lemma ExampleOps(e: Variant)
    ensures HasNodes(Example(e)) && forall o: Op :: o in Example(e).ops <==> o < 12
    ensures forall o: Op | o < 12 :: Example(e).node[o] == NodeOf(e, o)
  {
    ExampleNodes(e);
    forall o: Op ensures o in Example(e).ops <==> o < 12 { InUpto(12, o); }
  }

  /** The two tables are each other's inverse, and no list repeats an entry. */
  lemma TablesAgree(e: Variant, o: Op, t: Tensor)
    requires o < 12
    ensures o in ReadBy(e, t) <==> t in OperandsOf(e, o)
    ensures Permutations.Injective(ReadBy(e, t)) && Permutations.Injective(OperandsOf(e, o))
  {
  }

  lemma OperandsAgree(e: Variant, o: Op, t: Tensor)
    requires o < 12
    ensures Count(ReadBy(e, t), o) == Count(OperandsOf(e, o), t)
  {
    TablesAgree(e, o, t);
    if o in ReadBy(e, t) {
      OccursOnce(ReadBy(e, t), o);
      OccursOnce(OperandsOf(e, o), t);
    }
  }

  lemma ExampleConsumers(e: Variant)
    ensures HasNodes(Example(e)) && ConsumersAgree(Example(e))
  {
    var g := Example(e);
    ExampleOps(e);
    ExampleReaders(e);
    forall t: Tensor, o: Op | o in g.ops ensures Count(ConsumersOf(g, t), o) == Count(g.node[o].inputs, t) {
      OperandsAgree(e, o, t);
    }
    forall t: Tensor, o: Op | o in ConsumersOf(g, t) ensures o in g.ops { ReadersBelow(e, o, t); }
  }

  lemma ReadersBelow(e: Variant, o: Op, t: Tensor)
    requires o in ReadBy(e, t)
    ensures o < 12
  {
  }

  lemma ExampleProducers(e: Variant)
    ensures HasNodes(Example(e)) && ProducersAgree(Example(e)) && SingleWriter(Example(e)) && NoDuplicates(Example(e).ops)
  {
    ExampleOps(e);
  }

  lemma ExampleLinked(e: Variant)
    ensures Linked(Example(e)) && SingleWriter(Example(e))
  {
    ExampleConsumers(e);
    ExampleProducers(e);
  }

  /** The copy first, then the pattern. */
  function Rank(): Op -> nat {
    (o: Op) => if o == 11 then 0 else o + 1
  }

  lemma ExampleOrdered(e: Variant)
    ensures HasNodes(Example(e)) && Ordered(Example(e), Rank())
  {
    var g := Example(e);
    ExampleOps(e);
    forall p, o, t: Tensor | p in g.ops && o in g.ops && t in g.node[p].outputs && t in g.node[o].inputs
      ensures Rank()(p) < Rank()(o)
    {
      OperandsEarlier(e, o, t);
    }
  }

  lemma OperandsEarlier(e: Variant, o: Op, t: Tensor)
    requires o < 12 && t in OperandsOf(e, o)
    ensures t >= 12 || (o < 11 && t <= o)
  {
  }

  lemma ExampleWired(e: Variant)
    ensures Wired(Example(e)) && Arities(Example(e))
  {
    var g := Example(e);
    ExampleOps(e);
    forall t: Tensor, o: Op | o in ConsumersOf(g, t) ensures o in g.ops { ReadersBelow(e, o, t); }
    forall o | o in g.ops
      ensures (Kind(g, o) in [ADD, MULTIPLY, SUBTRACT, POW] ==> |g.node[o].inputs| == 2 && |g.node[o].outputs| == 1)
      ensures Kind(g, o) in [REDUCE, RSQRT] ==> |g.node[o].inputs| == 1
    {
      KindArity(e, o);
    }
  }

  lemma KindArity(e: Variant, o: Op)
    requires o < 12
    ensures KindOf(o) in [ADD, MULTIPLY, SUBTRACT, POW] ==> |OperandsOf(e, o)| == 2
    ensures KindOf(o) in [REDUCE, RSQRT] ==> |OperandsOf(e, o)| == 1
  {
  }

  // ---- the match ----

  const PATTERN: Pattern := Pattern(0, 1, 8, 2, 3, 4, 5, 6, 7, 10, 9)
  const CONSTANTS: set<Tensor> := {12, 13, 14, 15}

  function Sides(e: Variant): SideInputs {
    SideInputs(Exponent(e), 13, 14, 15)
  }

  function SiteOf(e: Variant, shape: Shape, axes: seq<nat>): Site {
    Site(PATTERN, 0, shape, Sides(e), axes, 12, 18, 19)
  }

  lemma ListedAt(e: Variant, o: Op)
    requires o < 12
    ensures Listed(Example(e), o, KindOf(o)) && Out(Example(e), o) == ResultOf(o)
    ensures o in Example(e).ops
  {
    InUpto(12, o);
  }

  lemma PairList(a: Op, b: Op)
    ensures multiset([a, b]) == multiset{a, b}
  {
  }

  lemma ExampleKinds(e: Variant)
    ensures Kinds(Example(e), PATTERN)
  {
    ListedAt(e, 0); ListedAt(e, 1); ListedAt(e, 2); ListedAt(e, 3); ListedAt(e, 4); ListedAt(e, 5);
    ListedAt(e, 6); ListedAt(e, 7); ListedAt(e, 8); ListedAt(e, 9); ListedAt(e, 10);
  }

  lemma FeedsAt(e: Variant, o: Op, b: Op)
    requires o < 11 && ReadBy(e, o + 1) == [b]
    ensures Feeds(Example(e), o, b)
  {
    ListedAt(e, o);
  }

  lemma FeedsTwoAt(e: Variant, o: Op, b: Op, c: Op)
    requires o < 11 && ReadBy(e, o + 1) == [b, c]
    ensures FeedsTwo(Example(e), o, b, c)
  {
    ListedAt(e, o);
    PairList(b, c);
  }

  lemma ForkEdges(e: Variant)
    ensures FeedsTwo(Example(e), 0, 1, 8) && FeedsTwo(Example(e), 6, 7, 8)
  {
    FeedsTwoAt(e, 0, 1, 8);
    FeedsTwoAt(e, 6, 7, 8);
  }

  lemma SpreadEdges(e: Variant)
    ensures Feeds(Example(e), 1, 2) && Feeds(Example(e), 2, 3) && Feeds(Example(e), 3, 4) && Feeds(Example(e), 4, 5)
  {
    FeedsAt(e, 1, 2); FeedsAt(e, 2, 3); FeedsAt(e, 3, 4); FeedsAt(e, 4, 5);
  }

  lemma ScaleEdges(e: Variant)
    ensures Feeds(Example(e), 5, 6) && Feeds(Example(e), 7, 10) && Feeds(Example(e), 8, 9) && Feeds(Example(e), 9, 10)
  {
    FeedsAt(e, 5, 6); FeedsAt(e, 7, 10); FeedsAt(e, 8, 9); FeedsAt(e, 9, 10);
  }

  lemma ExampleDiagram(e: Variant)
    ensures Diagram(Example(e), PATTERN)
  {
    ExampleKinds(e);
    ForkEdges(e);
    SpreadEdges(e);
    ScaleEdges(e);
    SharedInput(e);
  }

  lemma SharedInput(e: Variant)
    ensures PATTERN.sub0 in Example(e).node && 0 in Example(e).node[PATTERN.sub0].inputs
    ensures PATTERN.mul1 in Example(e).node && 0 in Example(e).node[PATTERN.mul1].inputs
  {
  }

  lemma PlacesAreAll(o: Op)
    ensures o in Places(PATTERN) <==> o < 11
  {
    PlacesListed(PATTERN);
  }

  /** The places read no tensor that the copy reads, and the copy writes one tensor. */
  lemma ExampleSidesPrivate(e: Variant)
    ensures Kinds(Example(e), PATTERN) && HasNodes(Example(e)) && SidesPrivate(Example(e), CONSTANTS, PATTERN)
  {
    var g, n := Example(e), Places(PATTERN);
    ExampleKinds(e);
    ExampleOps(e);
    forall i: nat, t | Sweeps(i) && n[i] in g.node && t in g.node[n[i]].inputs ensures SidePrivate(g, n, t) {
      PlacesAreAll(n[i]);
      assert n[i] in n;
      NeverCopied(e, n[i], t);
      forall x | x in g.ops && x in ConsumersOf(g, t) ensures x in n { PlacesAreAll(x); }
    }
  }

  lemma NeverCopied(e: Variant, o: Op, t: Tensor)
    requires o < 11 && t in OperandsOf(e, o)
    ensures 11 !in ReadBy(e, t)
  {
  }

  lemma ExampleFound(e: Variant)
    ensures Wired(Example(e)) && 0 in Example(e).ops && MatchPattern(Example(e), 0) == Found(Places(PATTERN))
  {
    ExampleWired(e);
    ExampleDiagram(e);
    ExampleOps(e);
    MatchExactlyDiagram(Example(e), PATTERN);
  }

  lemma TensorsBelow(e: Variant, o: Op, t: Tensor)
    requires o < 12 && (t in OperandsOf(e, o) || t == ResultOf(o))
    ensures t < 18
  {
  }

  lemma ExampleNewHandles(e: Variant, shape: Shape, axes: seq<nat>)
    ensures HasNodes(Example(e)) && NewHandles(Example(e), CONSTANTS, SiteOf(e, shape, axes))
  {
    var g := Example(e);
    ExampleOps(e);
    forall o: Op, t: Tensor | o in g.ops && t >= 18 ensures t !in g.node[o].inputs && t !in g.node[o].outputs {
      if t in g.node[o].inputs || t in g.node[o].outputs { TensorsBelow(e, o, t); }
    }
  }

  /** The pass matches each of the three graphs, whose bookkeeping is exact, and the structural
      hypotheses of the fusion results hold. */
  lemma ExampleMatched(e: Variant, shape: Shape, axes: seq<nat>)
    ensures Linked(Example(e)) && Wired(Example(e)) && 0 in Example(e).ops
    ensures MatchPattern(Example(e), 0) == Found(Places(PATTERN))
    ensures Matched(Example(e), Rank(), CONSTANTS, SiteOf(e, shape, axes))
  {
    ExampleLinked(e);
    ExampleOps(e);
    LinkedIsLive(Example(e), CONSTANTS);
    ExampleOrdered(e);
    ExampleWired(e);
    ExampleFound(e);
    ExampleSidesPrivate(e);
    ExampleNewHandles(e, shape, axes);
    SharedInput(e);
    MatchIsSite(Example(e), Rank(), CONSTANTS, 0, SiteOf(e, shape, axes));
  }

  // ---- values that solve it ----

  /** Any reciprocal square root does. */
  function RealKernels(rsqrt: real -> real): (k: Kernels)
    ensures Exact(k) && k.rsqrt == rsqrt
  {
    Kernels((a: real, b: real) => a + b, (a: real, b: real) => a - b, (a: real, b: real) => a * b,
            (a: real, b: real) => if b == 2.0 then Square(a) else a, rsqrt)
  }

  function MachineOf(rsqrt: real -> real, axes: seq<nat>): Machine {
    Machine(RealKernels(rsqrt), map[0 := Reduction(axes, true, true), 3 := Reduction(axes, true, true)],
            (o: Op, xs: seq<Data>) => xs)
  }

  function Single(value: real): (x: Data)
    ensures x.shape == [] && x.flat == [value]
  {
    Dense([], [value])
  }

  function DataOf(eps: real, gamma: Data, beta: Data): (data: Constants)
    ensures data.Keys == CONSTANTS
  {
    map[12 := Single(2.0), 13 := Single(eps), 14 := gamma, 15 := beta]
  }

  /** What is fed in: the source, what Mean0 reads if it reads something else, and the sides. */
  datatype Feed = Feed(axes: seq<nat>, x: Data, y: Data, eps: real, gamma: Data, beta: Data)

  function Run(e: Variant, k: Kernels, f: Feed): Values {
    Evaluate(k, AxisSet(f.axes), f.x, if e.OtherMean? then f.y else f.x, if e.OwnExponent? then f.x else Single(2.0),
             Single(f.eps), f.gamma, f.beta)
  }

  function ValueAt(r: Values, y: Data, t: Tensor): Data {
    if t == 1 then r.mean0 else if t == 2 then r.sub0 else if t == 3 then r.pow else if t == 4 then r.mean1
    else if t == 5 then r.add0 else if t == 6 then r.rsqrt else if t == 7 then r.mul0 else if t == 8 then r.mul1
    else if t == 9 then r.mul2 else if t == 10 then r.sub1 else if t == 11 then r.add1 else if t == 12 then Single(2.0)
    else if t == 13 then r.eps else if t == 14 then r.gamma else if t == 15 then r.beta else if t == 17 then y else r.x
  }

  function Valued(e: Variant, rsqrt: real -> real, f: Feed): Valuation {
    var r := Run(e, RealKernels(rsqrt), f);
    (t: Tensor) => ValueAt(r, f.y, t)
  }

  /** The result of an operation is what it makes of its operands. */
  ghost predicate Makes(e: Variant, k: Kernels, axes: seq<nat>, v: Valuation, o: Op)
    requires o < 12
  {
    var ts := OperandsOf(e, o);
    if o == 11 then v(0) == v(16)
    else if KindOf(o) == REDUCE then v(o + 1) == Average(v(ts[0]), Reduced(v(ts[0]).shape, AxisSet(axes)))
    else if KindOf(o) == RSQRT then v(o + 1) == Unary(k.rsqrt, v(ts[0]))
    else v(o + 1) == Binary(Elementwise(k, KindOf(o)).value, v(ts[0]), v(ts[1]))
  }

  lemma AllOne(v: Valuation, t: Tensor)
    ensures All(v, [t]) == [v(t)]
  {
  }

  lemma AllTwo(v: Valuation, t: Tensor, u: Tensor)
    ensures All(v, [t, u]) == [v(t), v(u)]
  {
  }

  lemma MadeHolds(e: Variant, rsqrt: real -> real, axes: seq<nat>, v: Valuation, o: Op)
    requires o < 12 && Makes(e, RealKernels(rsqrt), axes, v, o)
    ensures OpHolds(MachineOf(rsqrt, axes), v, o, NodeOf(e, o))
  {
    var ts := OperandsOf(e, o);
    KindArity(e, o);
    AllOne(v, ResultOf(o));
    AllOne(v, ts[0]);
    if |ts| == 2 {
      AllTwo(v, ts[0], ts[1]);
      assert ts == [ts[0], ts[1]];
    } else {
      assert ts == [ts[0]];
    }
  }

  /** The equations of the places, with Mean0 reading y. */
  ghost predicate Equations(e: Variant, k: Kernels, axes: seq<nat>, r: Values, y: Data) {
    && r.mean0 == Average(if e.OtherMean? then y else r.x, Reduced((if e.OtherMean? then y else r.x).shape, AxisSet(axes)))
    && r.mean1 == Average(r.pow, Reduced(r.pow.shape, AxisSet(axes)))
    && r.sub0 == Binary(k.minus, r.x, r.mean0)
    && r.pow == Binary(k.power, r.sub0, if e.OwnExponent? then r.x else Single(2.0))
    && r.add0 == Binary(k.plus, r.mean1, r.eps) && r.rsqrt == Unary(k.rsqrt, r.add0)
    && r.mul0 == Binary(k.times, r.rsqrt, r.gamma) && r.mul1 == Binary(k.times, r.x, r.mul0)
    && r.mul2 == Binary(k.times, r.mean0, r.mul0) && r.sub1 == Binary(k.minus, r.beta, r.mul2)
    && r.add1 == Binary(k.plus, r.mul1, r.sub1)
  }

  lemma RunEquations(e: Variant, k: Kernels, f: Feed)
    ensures Equations(e, k, f.axes, Run(e, k, f), f.y)
    ensures var r := Run(e, k, f);
            r.x == f.x && r.gamma == f.gamma && r.beta == f.beta && r.eps == Single(f.eps)
  {
  }

  /** What v gives to the tensors. */
  ghost predicate Assigned(v: Valuation, r: Values, y: Data) {
    && v(0) == r.x && v(1) == r.mean0 && v(2) == r.sub0 && v(3) == r.pow && v(4) == r.mean1 && v(5) == r.add0
    && v(6) == r.rsqrt && v(7) == r.mul0 && v(8) == r.mul1 && v(9) == r.mul2 && v(10) == r.sub1 && v(11) == r.add1
    && v(12) == Single(2.0) && v(13) == r.eps && v(14) == r.gamma && v(15) == r.beta && v(16) == r.x && v(17) == y
  }

  lemma ValuedAssigns(e: Variant, rsqrt: real -> real, f: Feed)
    ensures Assigned(Valued(e, rsqrt, f), Run(e, RealKernels(rsqrt), f), f.y)
  {
  }

  lemma MeanMakes(e: Variant, k: Kernels, axes: seq<nat>, r: Values, y: Data, v: Valuation, o: Op)
    requires Equations(e, k, axes, r, y) && Assigned(v, r, y) && (o == 0 || o == 3)
    ensures Makes(e, k, axes, v, o)
  {
    hide Binary; hide Unary; hide Average; hide Reduced;
    if o == 0 {
      assert OperandsOf(e, 0) == [MeanInput(e)];
    } else {
      assert OperandsOf(e, 3) == [3];
    }
  }

  lemma DifferenceMakes(e: Variant, k: Kernels, axes: seq<nat>, r: Values, y: Data, v: Valuation)
    requires Equations(e, k, axes, r, y) && Assigned(v, r, y)
    ensures Makes(e, k, axes, v, 1)
  {
    hide Binary; hide Unary; hide Average; hide Reduced;
    assert OperandsOf(e, 1) == [0, 1];
  }

  lemma SquareMakes(e: Variant, k: Kernels, axes: seq<nat>, r: Values, y: Data, v: Valuation)
    requires Equations(e, k, axes, r, y) && Assigned(v, r, y)
    ensures Makes(e, k, axes, v, 2)
  {
    hide Binary; hide Unary; hide Average; hide Reduced;
    assert OperandsOf(e, 2) == [2, Exponent(e)];
  }

  lemma VarianceMakes(e: Variant, k: Kernels, axes: seq<nat>, r: Values, y: Data, v: Valuation)
    requires Equations(e, k, axes, r, y) && Assigned(v, r, y)
    ensures Makes(e, k, axes, v, 4)
  {
    hide Binary; hide Unary; hide Average; hide Reduced;
    assert OperandsOf(e, 4) == [4, 13];
  }

  lemma RootMakes(e: Variant, k: Kernels, axes: seq<nat>, r: Values, y: Data, v: Valuation)
    requires Equations(e, k, axes, r, y) && Assigned(v, r, y)
    ensures Makes(e, k, axes, v, 5)
  {
    hide Binary; hide Unary; hide Average; hide Reduced;
    assert OperandsOf(e, 5) == [5];
  }

  lemma ScaleMakes(e: Variant, k: Kernels, axes: seq<nat>, r: Values, y: Data, v: Valuation, o: Op)
    requires Equations(e, k, axes, r, y) && Assigned(v, r, y) && 6 <= o < 9
    ensures Makes(e, k, axes, v, o)
  {
    hide Binary; hide Unary; hide Average; hide Reduced;
    if o == 6 {
      assert OperandsOf(e, 6) == [6, 14];
    } else if o == 7 {
      assert OperandsOf(e, 7) == [0, 7];
    } else {
      assert OperandsOf(e, 8) == [1, 7];
    }
  }

  lemma ResultMakes(e: Variant, k: Kernels, axes: seq<nat>, r: Values, y: Data, v: Valuation, o: Op)
    requires Equations(e, k, axes, r, y) && Assigned(v, r, y) && 9 <= o < 12
    ensures Makes(e, k, axes, v, o)
  {
    hide Binary; hide Unary; hide Average; hide Reduced;
    if o == 9 {
      assert OperandsOf(e, 9) == [15, 9];
    } else if o == 10 {
      assert OperandsOf(e, 10) == [8, 10];
    }
  }

  lemma RunMakes(e: Variant, rsqrt: real -> real, f: Feed, o: Op)
    requires o < 12
    ensures Makes(e, RealKernels(rsqrt), f.axes, Valued(e, rsqrt, f), o)
  {
    var k := RealKernels(rsqrt);
    var r, v := Run(e, k, f), Valued(e, rsqrt, f);
    RunEquations(e, k, f);
    ValuedAssigns(e, rsqrt, f);
    if o == 0 || o == 3 {
      MeanMakes(e, k, f.axes, r, f.y, v, o);
    } else if o == 1 {
      DifferenceMakes(e, k, f.axes, r, f.y, v);
    } else if o == 2 {
      SquareMakes(e, k, f.axes, r, f.y, v);
    } else if o == 4 {
      VarianceMakes(e, k, f.axes, r, f.y, v);
    } else if o == 5 {
      RootMakes(e, k, f.axes, r, f.y, v);
    } else if o < 9 {
      ScaleMakes(e, k, f.axes, r, f.y, v, o);
    } else {
      ResultMakes(e, k, f.axes, r, f.y, v, o);
    }
  }

  lemma ExampleSolved(e: Variant, rsqrt: real -> real, f: Feed)
    ensures HasNodes(Example(e)) && Solves(Example(e), MachineOf(rsqrt, f.axes), Valued(e, rsqrt, f))
  {
    ExampleOps(e);
    forall o | o in Example(e).ops ensures OpHolds(MachineOf(rsqrt, f.axes), Valued(e, rsqrt, f), o, Example(e).node[o]) {
      RunMakes(e, rsqrt, f, o);
      MadeHolds(e, rsqrt, f.axes, Valued(e, rsqrt, f), o);
    }
  }

  /** Parameters along the averaged dimension, and a source of twos if it is the exponent. */
  ghost predicate Fits(e: Variant, f: Feed, shape: Shape) {
    && f.x.shape == shape && AxesFit(|shape|, f.axes)
    && Vector(f.gamma, shape, OldDim(f.axes)) && Vector(f.beta, shape, OldDim(f.axes))
    && (e.OwnExponent? ==> Uniform(f.x, shape, 2.0))
  }

  function DataIn(f: Feed): (data: Constants)
    ensures data.Keys == CONSTANTS
  {
    DataOf(f.eps, f.gamma, f.beta)
  }

  lemma ExampleRecorded(e: Variant, f: Feed, shape: Shape, s: Tensor)
    requires AxesFit(|shape|, f.axes)
    ensures Recorded(Example(e), DataIn(f), SiteOf(e, shape, f.axes).(s := s))
    ensures Epsilon(Example(e), DataIn(f), SiteOf(e, shape, f.axes).(s := s)) == f.eps
  {
    assert EpsSource(Example(e), CONSTANTS, 13) == Some(13);
  }

  lemma SingleIsUniform(value: real, full: Shape)
    ensures Uniform(Single(value), full, value)
  {
  }

  lemma ExampleSlots(e: Variant)
    requires !e.OtherMean?
    ensures Kinds(Example(e), PATTERN) && Slots(Example(e), PATTERN, 0, Sides(e))
  {
    ExampleKinds(e);
    ListedAt(e, 1); ListedAt(e, 3); ListedAt(e, 6); ListedAt(e, 8);
    PairList(4, 13);
  }

  lemma ExampleParameters(rsqrt: real -> real, axes: seq<nat>)
    ensures Parameters(MachineOf(rsqrt, axes), PATTERN, axes)
  {
    forall o | o in Places(PATTERN) && o != 0 && o != 3 ensures o !in MachineOf(rsqrt, axes).param { }
  }

  /** What v gives to the tensors that are fed in. */
  predicate Fed(v: Valuation, f: Feed) {
    && v(0) == f.x && v(16) == f.x && v(17) == f.y && v(12) == Single(2.0) && v(13) == Single(f.eps)
    && v(14) == f.gamma && v(15) == f.beta
  }

  lemma FedValues(e: Variant, rsqrt: real -> real, f: Feed)
    ensures Fed(Valued(e, rsqrt, f), f)
  {
    RunEquations(e, RealKernels(rsqrt), f);
    ValuesFed(Valued(e, rsqrt, f), Run(e, RealKernels(rsqrt), f), f);
  }

  lemma ValuesFed(v: Valuation, r: Values, f: Feed)
    requires (forall t: Tensor :: v(t) == ValueAt(r, f.y, t)) && r.x == f.x && r.eps == Single(f.eps)
    requires r.gamma == f.gamma && r.beta == f.beta
    ensures Fed(v, f)
  {
  }

  lemma FedHolds(v: Valuation, f: Feed)
    requires Fed(v, f)
    ensures Holds(v, DataIn(f))
  {
  }

  lemma ExampleValuesFit(e: Variant, v: Valuation, f: Feed, shape: Shape)
    requires Fits(e, f, shape) && Fed(v, f)
    ensures Recorded(Example(e), DataIn(f), SiteOf(e, shape, f.axes))
    ensures ValuesFit(Example(e), v, DataIn(f), SiteOf(e, shape, f.axes))
  {
    ExampleRecorded(e, f, shape, 0);
    SingleIsUniform(2.0, shape);
    SingleIsUniform(f.eps, Reduced(shape, AxisSet(f.axes)));
  }

  lemma ExampleFolds(e: Variant, rsqrt: real -> real, v: Valuation, f: Feed, shape: Shape)
    requires !e.OtherMean? && Fits(e, f, shape) && Fed(v, f)
    ensures Kinds(Example(e), PATTERN)
    ensures Foldable(Example(e), MachineOf(rsqrt, f.axes), v, DataIn(f), SiteOf(e, shape, f.axes))
  {
    ExampleSlots(e);
    ExampleParameters(rsqrt, f.axes);
    ExampleValuesFit(e, v, f, shape);
  }

  lemma FedSupported(e: Variant, rsqrt: real -> real, v: Valuation, f: Feed, shape: Shape)
    requires !e.OtherMean? && Fits(e, f, shape) && Fed(v, f)
    requires HasNodes(Example(e)) && Solves(Example(e), MachineOf(rsqrt, f.axes), v)
    ensures Kinds(Example(e), PATTERN)
    ensures Supported(Example(e), MachineOf(rsqrt, f.axes), v, DataIn(f), SiteOf(e, shape, f.axes))
  {
    FedHolds(v, f);
    ExampleFolds(e, rsqrt, v, f, shape);
  }

  /** Whatever is fed in, the values solve the graph and meet what the fused operation takes for
      granted; only the graph in which Mean0 reads something else does not. */
  lemma ExampleSupported(e: Variant, rsqrt: real -> real, f: Feed, shape: Shape)
    requires !e.OtherMean? && Fits(e, f, shape)
    ensures HasNodes(Example(e)) && Kinds(Example(e), PATTERN)
    ensures Supported(Example(e), MachineOf(rsqrt, f.axes), Valued(e, rsqrt, f), DataIn(f), SiteOf(e, shape, f.axes))
  {
    FedValues(e, rsqrt, f);
    ExampleSolved(e, rsqrt, f);
    FedSupported(e, rsqrt, Valued(e, rsqrt, f), f, shape);
  }

  lemma ExampleProduces(e: Variant, rsqrt: real -> real, axes: seq<nat>)
    ensures HasNodes(Example(e)) && Produces(Example(e), MachineOf(rsqrt, axes))
  {
    ExampleOps(e);
    forall o | o in Example(e).ops ensures ProducesAt(MachineOf(rsqrt, axes), o, Example(e).node[o]) {
      ProducesOne(e, rsqrt, axes, o);
    }
  }

  lemma ProducesOne(e: Variant, rsqrt: real -> real, axes: seq<nat>, o: Op)
    requires o < 12
    ensures ProducesAt(MachineOf(rsqrt, axes), o, NodeOf(e, o))
  {
    KindArity(e, o);
  }

  // ---- which dimensions may be averaged ----

  /** w solves the graph after a step on the example. */
  ghost predicate Continued(e: Variant, rsqrt: real -> real, f: Feed, shape: Shape, w: Valuation) {
    Continues(Example(e), MachineOf(rsqrt, f.axes), Valued(e, rsqrt, f), w, DataIn(f), SiteOf(e, shape, f.axes))
  }

  lemma SweepingPlaces(e: Variant, i: nat)
    requires Sweeps(i)
    ensures 0 in OperandsOf(e, Places(PATTERN)[i]) <==> e.OwnExponent? && i == POW_0
  {
  }

  lemma ExampleIsOps(e: Variant)
    ensures IsOps(Example(e), Places(PATTERN))
    ensures forall i | 0 <= i < 11 :: Example(e).node[Places(PATTERN)[i]] == NodeOf(e, Places(PATTERN)[i])
  {
    ExampleOps(e);
    forall i | 0 <= i < 11 ensures Places(PATTERN)[i] < 11 { PlacesAreAll(Places(PATTERN)[i]); }
  }

  /** The source is always written, and swept exactly when it is the exponent. */
  lemma ExampleSource(e: Variant, shape: Shape, axes: seq<nat>)
    ensures SourceStays(Example(e), SiteOf(e, shape, axes)) <==> !e.OwnExponent?
  {
    ExampleIsOps(e);
    ExampleOps(e);
    assert 11 in Example(e).ops && 0 in Example(e).node[11].outputs;
    forall i: nat | Sweeps(i) ensures 0 in OperandsOf(e, Places(PATTERN)[i]) <==> e.OwnExponent? && i == POW_0 {
      SweepingPlaces(e, i);
    }
    assert Sweeps(POW_0);
  }

  /** A graph with what the results about a step ask for, the last addition writing tensor 11. */
  ghost predicate Ready(g: Graph, m: Machine, v: Valuation, data: Constants, a: Site) {
    Matched(g, Rank(), data.Keys, a) && Supported(g, m, v, data, a) && Produces(g, m) && Out(g, a.p.add1) == 11
  }

  lemma ExampleReady(e: Variant, rsqrt: real -> real, f: Feed, shape: Shape)
    requires !e.OtherMean? && Fits(e, f, shape)
    ensures Ready(Example(e), MachineOf(rsqrt, f.axes), Valued(e, rsqrt, f), DataIn(f), SiteOf(e, shape, f.axes))
  {
    ExampleMatched(e, shape, f.axes);
    ExampleSupported(e, rsqrt, f, shape);
    ExampleProduces(e, rsqrt, f.axes);
    ListedAt(e, 10);
  }

  lemma ReadyKept(g: Graph, m: Machine, v: Valuation, w: Valuation, data: Constants, a: Site)
    requires Ready(g, m, v, data, a) && AxesAgree(a.shape, a.axes) && SourceStays(g, a) && Continues(g, m, v, w, data, a)
    ensures w(11) == v(11)
  {
    FusionSound.ResultKept(g, m, v, w, Rank(), data, a);
  }

  lemma ReadyBreaks(g: Graph, m: Machine, v: Valuation, data: Constants, a: Site) returns (w: Valuation)
    requires Ready(g, m, v, data, a) && |a.axes| == 1
    requires var d := NewDim(|a.shape|, a.axes);
             LayerResult(g, m, data, a, v(a.s), Reshaped(data[a.side.beta], a.shape, d), Reshaped(data[a.side.gamma], a.shape, d))
             != Normalized(m.k.rsqrt, v(a.s), data[a.side.beta], data[a.side.gamma], Epsilon(g, data, a),
                           Reduced(a.shape, AxisSet(a.axes)))
    ensures Continues(g, m, v, w, data, a) && w(11) != v(11)
  {
    w := LayerBreaks(g, m, v, Rank(), data, a);
  }

  /** Parameters along the one averaged dimension of a shape with positive lengths. */
  ghost predicate OneDimension(f: Feed, shape: Shape, rsqrt: real -> real) {
    && (forall k | 0 <= k < |shape| :: shape[k] > 0) && |f.axes| == 1 && f.axes[0] < |shape|
    && Vector(f.gamma, shape, f.axes[0]) && Vector(f.beta, shape, f.axes[0]) && NeverZero(rsqrt) && NowhereZero(f.gamma)
  }

  /** The fused result of what is fed in is not the pattern's. */
  ghost predicate Wrong(rsqrt: real -> real, f: Feed, shape: Shape)
    requires AxesFit(|shape|, f.axes) && f.x.shape == shape
  {
    var d := NewDim(|shape|, f.axes);
    Normalized(rsqrt, f.x, Reshaped(f.beta, shape, d), Reshaped(f.gamma, shape, d), f.eps, Reduced(shape, {d}))
    != Normalized(rsqrt, f.x, f.beta, f.gamma, f.eps, Reduced(shape, AxisSet(f.axes)))
  }

  lemma WrongInput(rsqrt: real -> real, f: Feed, shape: Shape) returns (f': Feed)
    requires OneDimension(f, shape, rsqrt) && !AxesAgree(shape, f.axes)
    ensures f'.x.shape == shape && f' == f.(x := f'.x) && Wrong(rsqrt, f', shape)
  {
    var d := Reversed(|shape|, f.axes[0]);
    SameReduction(shape, f.axes[0]);
    AxisOfOne(f.axes);
    var x := DifferentAxesDiffer(rsqrt, shape, f.eps, f.beta, f.gamma, Reduced(shape, {f.axes[0]}),
                                 Reshaped(f.beta, shape, d), Reshaped(f.gamma, shape, d), Reduced(shape, {d}));
    f' := f.(x := x);
  }

  lemma FedBreaks(g: Graph, rsqrt: real -> real, v: Valuation, f: Feed, shape: Shape, a: Site) returns (w: Valuation)
    requires AxesFit(|shape|, f.axes) && f.x.shape == shape && |f.axes| == 1 && Wrong(rsqrt, f, shape) && Fed(v, f)
    requires a.s == 0 && a.shape == shape && a.axes == f.axes && a.side.beta == 15 && a.side.gamma == 14
    requires Ready(g, MachineOf(rsqrt, f.axes), v, DataIn(f), a) && Epsilon(g, DataIn(f), a) == f.eps
    ensures Continues(g, MachineOf(rsqrt, f.axes), v, w, DataIn(f), a) && w(11) != v(11)
  {
    w := ReadyBreaks(g, MachineOf(rsqrt, f.axes), v, DataIn(f), a);
  }

  lemma FeedBreaks(rsqrt: real -> real, f: Feed, shape: Shape) returns (w: Valuation)
    requires Fits(Plain, f, shape) && |f.axes| == 1 && Wrong(rsqrt, f, shape)
    ensures Continued(Plain, rsqrt, f, shape, w) && w(11) != Valued(Plain, rsqrt, f)(11)
  {
    hide Ready;
    ExampleReady(Plain, rsqrt, f, shape);
    FedValues(Plain, rsqrt, f);
    ExampleRecorded(Plain, f, shape, 0);
    w := FedBreaks(Example(Plain), rsqrt, Valued(Plain, rsqrt, f), f, shape, SiteOf(Plain, shape, f.axes));
  }

  lemma FedKept(g: Graph, rsqrt: real -> real, v: Valuation, w: Valuation, f: Feed, shape: Shape, a: Site)
    requires AxesFit(|shape|, f.axes) && AxesAgree(shape, f.axes) && a.shape == shape && a.axes == f.axes
    requires Ready(g, MachineOf(rsqrt, f.axes), v, DataIn(f), a) && SourceStays(g, a)
    requires Continues(g, MachineOf(rsqrt, f.axes), v, w, DataIn(f), a)
    ensures w(11) == v(11)
  {
    ReadyKept(g, MachineOf(rsqrt, f.axes), v, w, DataIn(f), a);
  }

  lemma PlainKept(rsqrt: real -> real, f: Feed, shape: Shape, w: Valuation)
    requires Fits(Plain, f, shape) && AxesAgree(shape, f.axes) && Continued(Plain, rsqrt, f, shape, w)
    ensures w(11) == Valued(Plain, rsqrt, f)(11)
  {
    hide Ready;
    ExampleReady(Plain, rsqrt, f, shape);
    ExampleSource(Plain, shape, f.axes);
    FedKept(Example(Plain), rsqrt, Valued(Plain, rsqrt, f), w, f, shape, SiteOf(Plain, shape, f.axes));
  }

  /** On the plain graph a step keeps the result, for every input and every solution of the new
      graph, exactly when the dimension is the middle one or both have length one. */
  lemma AxisRightExactlyWhen(rsqrt: real -> real, f: Feed, shape: Shape)
    requires OneDimension(f, shape, rsqrt)
    ensures (forall x: Data, w: Valuation | x.shape == shape && Continued(Plain, rsqrt, f.(x := x), shape, w) ::
               w(11) == Valued(Plain, rsqrt, f.(x := x))(11))
            <==> AxesAgree(shape, f.axes)
  {
    if AxesAgree(shape, f.axes) {
      forall x: Data, w: Valuation | x.shape == shape && Continued(Plain, rsqrt, f.(x := x), shape, w)
        ensures w(11) == Valued(Plain, rsqrt, f.(x := x))(11)
      {
        PlainKept(rsqrt, f.(x := x), shape, w);
      }
    } else {
      var f' := WrongInput(rsqrt, f, shape);
      var w := FeedBreaks(rsqrt, f', shape);
    }
  }

  // ---- an output inside the pattern ----

  lemma ReadyLoses(g: Graph, m: Machine, v: Valuation, data: Constants, a: Site, t: Tensor) returns (w: Valuation)
    requires Ready(g, m, v, data, a) && SourceStays(g, a) && Written(g, t) && Loses(g, data.Keys, a, t)
    ensures Continues(g, m, v, w, data, a) && w(t) != v(t)
  {
    w := LostDiffers(g, m, v, Rank(), data, a, t);
  }

  lemma MeanGoes(shape: Shape, axes: seq<nat>)
    ensures IsOps(Example(Plain), Places(PATTERN)) && HasNodes(Example(Plain)) && Written(Example(Plain), 1)
    ensures 10 in Example(Plain).node && Example(Plain).node[10].outputs == [11]
    ensures Loses(Example(Plain), CONSTANTS, SiteOf(Plain, shape, axes), 1)
    ensures !Loses(Example(Plain), CONSTANTS, SiteOf(Plain, shape, axes), 11)
  {
    ExampleOps(Plain);
    ExampleIsOps(Plain);
    ListedAt(Plain, 0);
    ListedAt(Plain, 10);
    PlacesAreAll(0);
    assert 1 in Example(Plain).node[0].outputs;
  }

  /** The matched graph with the mean itself among its outputs: the step loses it, and a solution of
      the new graph gives it another value. */
  lemma MeanOutputLost(rsqrt: real -> real, f: Feed, shape: Shape) returns (w: Valuation)
    requires Fits(Plain, f, shape)
    ensures Continued(Plain, rsqrt, f, shape, w) && w(1) != Valued(Plain, rsqrt, f)(1)
  {
    hide Ready; hide SourceStays; hide Loses; hide Written;
    ExampleReady(Plain, rsqrt, f, shape);
    ExampleSource(Plain, shape, f.axes);
    MeanGoes(shape, f.axes);
    w := ReadyLoses(Example(Plain), MachineOf(rsqrt, f.axes), Valued(Plain, rsqrt, f), DataIn(f), SiteOf(Plain, shape, f.axes), 1);
  }

  // ---- an exponent that is the source ----

  /** Zeros and an indicator normalise differently. */
  lemma InputsDiffer(rsqrt: real -> real, shape: Shape, beta: Data, gamma: Data, eps: real, d: nat)
    requires (forall k | 0 <= k < |shape| :: shape[k] > 0) && d < |shape| && shape[d] > 1
    requires NeverZero(rsqrt) && NowhereZero(gamma) && Stretches(gamma.shape, shape)
    ensures Normalized(rsqrt, Zeros(shape), beta, gamma, eps, Reduced(shape, {d}))
            != Normalized(rsqrt, Indicator(shape, d), beta, gamma, eps, Reduced(shape, {d}))
  {
    var idx := Origin(shape);
    ZerosNormalize(rsqrt, shape, beta, gamma, eps, Reduced(shape, {d}), idx);
    IndicatorNormalizes(rsqrt, shape, beta, gamma, eps, Reduced(shape, {d}), d, idx);
  }

  lemma FedLoses(g: Graph, rsqrt: real -> real, v: Valuation, f: Feed, shape: Shape, a: Site) returns (w: Valuation)
    requires OneDimension(f, shape, rsqrt) && shape[NewDim(|shape|, f.axes)] > 1
    requires a.shape == shape && a.axes == f.axes && a.side.beta == 15 && a.side.gamma == 14
    requires Ready(g, MachineOf(rsqrt, f.axes), v, DataIn(f), a) && !SourceStays(g, a)
    ensures Continues(g, MachineOf(rsqrt, f.axes), v, w, DataIn(f), a) && w(11) != v(11)
  {
    hide Matched; hide Produces; hide Continues; hide SourceStays;
    assert Recorded(g, DataIn(f), a);
    hide Supported;
    var d := NewDim(|shape|, f.axes);
    InputsDiffer(rsqrt, shape, Reshaped(f.beta, shape, d), Reshaped(f.gamma, shape, d), Epsilon(g, DataIn(f), a), d);
    w := LostSourceChanges(g, MachineOf(rsqrt, f.axes), v, Rank(), DataIn(f), a, Zeros(shape), Indicator(shape, d));
  }

  /** The failing input: the exponent is the source itself, which holds twos.  The pass matches
      the graph and all that a step takes for granted holds (ExampleReady), yet the operation
      that writes the source is erased, and a solution of the new graph has another result. */
  lemma OwnExponentBreaks(rsqrt: real -> real, f: Feed, shape: Shape) returns (w: Valuation)
    requires OneDimension(f, shape, rsqrt) && Fits(OwnExponent, f, shape) && shape[NewDim(|shape|, f.axes)] > 1
    ensures Continued(OwnExponent, rsqrt, f, shape, w) && w(11) != Valued(OwnExponent, rsqrt, f)(11)
  {
    hide Ready;
    ExampleReady(OwnExponent, rsqrt, f, shape);
    ExampleSource(OwnExponent, shape, f.axes);
    w := FedLoses(Example(OwnExponent), rsqrt, Valued(OwnExponent, rsqrt, f), f, shape, SiteOf(OwnExponent, shape, f.axes));
  }

  // ---- a mean of another tensor ----

  /** w solves the graph after a step on the example in which Mean0 reads tensor 17, which is
      what the code connects. */
  ghost predicate Reconnects(rsqrt: real -> real, f: Feed, shape: Shape, w: Valuation) {
    Continues(Example(OtherMean), MachineOf(rsqrt, f.axes), Valued(OtherMean, rsqrt, f), w, DataIn(f),
              SiteOf(OtherMean, shape, f.axes).(s := 17))
  }

  /** Mean0 reads zeros where the shared input is all ones. */
  ghost predicate OnesOverZeros(rsqrt: real -> real, f: Feed, shape: Shape) {
    OneDimension(f, shape, rsqrt) && AxesAgree(shape, f.axes) && f.x == Ones(shape) && f.y == Zeros(shape)
  }

  lemma SourceUnwritten(e: Variant)
    ensures HasNodes(Example(e)) && !Written(Example(e), 17)
  {
    ExampleOps(e);
  }

  lemma ResultValue(e: Variant, rsqrt: real -> real, f: Feed)
    ensures Valued(e, rsqrt, f)(11) == Run(e, RealKernels(rsqrt), f).add1
  {
  }

  lemma OtherMeanDiffers(k: Kernels, f: Feed, shape: Shape)
    requires Exact(k) && OnesOverZeros(k.rsqrt, f, shape)
    ensures Run(OtherMean, k, f).add1 != Normalized(k.rsqrt, Zeros(shape), f.beta, f.gamma, f.eps, Reduced(shape, AxisSet(f.axes)))
  {
    SingleIsUniform(2.0, shape);
    SingleIsUniform(f.eps, Reduced(shape, AxisSet(f.axes)));
    MeanOfAnotherTensor(k, AxisSet(f.axes), shape, Single(2.0), Single(f.eps), f.gamma, f.beta, f.eps);
  }

  /** Matched, with Mean0 reading tensor 17, which nobody writes. */
  ghost predicate Reconnectable(g: Graph, f: Feed, a: Site) {
    && Matched(g, Rank(), CONSTANTS, a) && !Written(g, 17) && Out(g, a.p.add1) == 11
    && Recorded(g, DataIn(f), a) && Epsilon(g, DataIn(f), a) == f.eps
  }

  lemma OtherMeanReconnectable(f: Feed, shape: Shape)
    requires AxesFit(|shape|, f.axes)
    ensures Reconnectable(Example(OtherMean), f, SiteOf(OtherMean, shape, f.axes))
  {
    hide Matched;
    ExampleMatched(OtherMean, shape, f.axes);
    ExampleRecorded(OtherMean, f, shape, 0);
    SourceUnwritten(OtherMean);
    ListedAt(OtherMean, 10);
  }

  lemma FedReconnects(g: Graph, rsqrt: real -> real, v: Valuation, w: Valuation, f: Feed, shape: Shape, a: Site)
    requires OnesOverZeros(rsqrt, f, shape) && Fed(v, f) && Reconnectable(g, f, a)
    requires a.shape == shape && a.axes == f.axes && a.side.beta == 15 && a.side.gamma == 14 && a.beta == 18 && a.gamma == 19
    requires Continues(g, MachineOf(rsqrt, f.axes), v, w, DataIn(f), a.(s := 17))
    ensures w(11) == Normalized(rsqrt, Zeros(shape), f.beta, f.gamma, f.eps, Reduced(shape, AxisSet(f.axes)))
  {
    ReconnectedValue(g, MachineOf(rsqrt, f.axes), v, w, Rank(), DataIn(f), a, 17);
    ReversedRight(rsqrt, Zeros(shape), f.axes, f.eps, f.beta, f.gamma, w(18), w(19));
  }

  /** The pass matches the graph in which Mean0 reads another tensor like the others, but every
      solution of the graph after the step has another result. */
  lemma OtherMeanBreaks(rsqrt: real -> real, f: Feed, shape: Shape, w: Valuation)
    requires OnesOverZeros(rsqrt, f, shape) && Reconnects(rsqrt, f, shape, w)
    ensures w(11) != Valued(OtherMean, rsqrt, f)(11)
  {
    hide Reconnectable; hide Continues;
    OtherMeanReconnectable(f, shape);
    FedValues(OtherMean, rsqrt, f);
    FedReconnects(Example(OtherMean), rsqrt, Valued(OtherMean, rsqrt, f), w, f, shape, SiteOf(OtherMean, shape, f.axes));
    OtherMeanDiffers(RealKernels(rsqrt), f, shape);
    ResultValue(OtherMean, rsqrt, f);
  }

  /** There are such solutions. */
  lemma OtherMeanSolved(rsqrt: real -> real, f: Feed, shape: Shape) returns (w: Valuation)
    requires AxesFit(|shape|, f.axes)
    ensures Reconnects(rsqrt, f, shape, w)
  {
    hide Matched; hide Produces; hide Continues;
    ExampleNodes(OtherMean);
    assert Example(OtherMean).node[0].inputs == [17];
    ExampleMatched(OtherMean, shape, f.axes);
    ExampleRecorded(OtherMean, f, shape, 17);
    ExampleProduces(OtherMean, rsqrt, f.axes);
    w := ReconnectedContinuation(Example(OtherMean), MachineOf(rsqrt, f.axes), Valued(OtherMean, rsqrt, f), Rank(), DataIn(f),
                                 SiteOf(OtherMean, shape, f.axes), 17);
  }

  // ---- such inputs exist ----

  function AllTwos(shape: Shape): (x: Data)
    ensures x.shape == shape && Uniform(x, shape, 2.0)
  {
    Dense(shape, seq(Size(shape), o => 2.0))
  }

  /** Twos and zeros, the first dimension averaged, parameters of ones. */
  function OnesFeed(shape: Shape, x: Data): Feed
    requires shape != []
  {
    Feed([0], x, Zeros(shape), 1.0, Ones([shape[0]]), Ones([shape[0]]))
  }

  /** The first of two unequal dimensions is a wrong one; the only dimension is a right one, and
      meets what the two failures ask for. */
  lemma FeedsFit(rsqrt: real -> real)
    requires NeverZero(rsqrt)
    ensures OneDimension(OnesFeed([2, 3], Ones([2, 3])), [2, 3], rsqrt) && !AxesAgree([2, 3], [0])
    ensures OneDimension(OnesFeed([3], AllTwos([3])), [3], rsqrt) && Fits(OwnExponent, OnesFeed([3], AllTwos([3])), [3])
    ensures OnesOverZeros(rsqrt, OnesFeed([3], Ones([3])), [3])
  {
    SizeAlong([2], 0);
    SizeAlong([3], 0);
  }
}
