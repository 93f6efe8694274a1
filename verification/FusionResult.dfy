/** One fusion step: the operation that is put in place of a match, the graph afterwards, and
    what is true of its bookkeeping. */
module FusionResult {
  import opened GraphModel
  import opened FusionMatch
  import opened FusionRemove
  import opened TensorLayout
  import opened Broadcast
  import opened Normalize
  import opened NormalizePattern
  import opened NormalizeAxes
  import opened FusionMeaning

  // ---- the operation put in place of the pattern ----

  /** One reduced dimension makes a layer normalisation, with the dimension counted from the
      other end; any other number makes an instance normalisation. */
  function FusedKind(axes: seq<nat>): int {
    if |axes| == 1 then LAYER_NORM else INSTANCE_NORM
  }

  predicate AxesFit(rank: nat, axes: seq<nat>) {
    if |axes| == 1 then axes[0] < rank else rank > 0
  }

  function FusedParam(rank: nat, axes: seq<nat>, eps: real): Param
    requires AxesFit(rank, axes)
  {
    if |axes| == 1 then Layer(Reversed(rank, axes[0]), eps) else Instance(eps)
  }

  /** The dimension the new parameters are laid along, and the one the old ones were. */
  function NewDim(rank: nat, axes: seq<nat>): (d: nat)
    requires AxesFit(rank, axes)
    ensures d < rank
  {
    if |axes| == 1 then Reversed(rank, axes[0]) else 0
  }

  function OldDim(axes: seq<nat>): nat {
    if |axes| == 1 then axes[0] else 0
  }

  /** When the fused operation averages what the pattern averaged. */
  predicate AxesAgree(shape: Shape, axes: seq<nat>)
    requires AxesFit(|shape|, axes)
  {
    if |axes| == 1 then 2 * axes[0] + 1 == |shape| || shape[axes[0]] == 1 == shape[Reversed(|shape|, axes[0])]
    else SameAxes(shape, AxisSet(axes), {1, 2})
  }

  lemma AxisOfOne(axes: seq<nat>)
    requires |axes| == 1
    ensures AxisSet(axes) == {axes[0]}
  {
  }

  /** With agreeing dimensions, the reversed one and reshaped parameters normalise alike. */
  lemma ReversedRight(rsqrt: real -> real, x: Data, axes: seq<nat>, eps: real, beta: Data, gamma: Data, beta': Data, gamma': Data)
    requires |axes| == 1 && axes[0] < |x.shape| && AxesAgree(x.shape, axes)
    requires Vector(beta, x.shape, axes[0]) && Vector(gamma, x.shape, axes[0])
    requires Passed(beta, beta', x.shape, Reversed(|x.shape|, axes[0])) && Passed(gamma, gamma', x.shape, Reversed(|x.shape|, axes[0]))
    ensures Normalized(rsqrt, x, beta', gamma', eps, Reduced(x.shape, {Reversed(|x.shape|, axes[0])}))
            == Normalized(rsqrt, x, beta, gamma, eps, Reduced(x.shape, AxisSet(axes)))
  {
    AxisOfOne(axes);
    SameReduction(x.shape, axes[0]);
    PassedVector(beta, beta', x.shape, axes[0]);
    PassedVector(gamma, gamma', x.shape, axes[0]);
    ReshapedParameters(rsqrt, x, beta, gamma, beta', gamma', eps, Reduced(x.shape, AxisSet(axes)), axes[0]);
  }

  /** The fused operation, given the reshaped parameters, computes the pattern's result. */
  lemma FusedComputes(m: Machine, o: Op, axes: seq<nat>, eps: real, x: Data, beta: Data, gamma: Data, beta': Data, gamma': Data)
    requires AxesFit(|x.shape|, axes) && AxesAgree(x.shape, axes)
    requires o in m.param && m.param[o] == FusedParam(|x.shape|, axes, eps)
    requires Vector(beta, x.shape, OldDim(axes)) && Vector(gamma, x.shape, OldDim(axes))
    requires Passed(beta, beta', x.shape, NewDim(|x.shape|, axes)) && Passed(gamma, gamma', x.shape, NewDim(|x.shape|, axes))
    ensures OpValue(m, o, FusedKind(axes), [x, beta', gamma'])
            == [Normalized(m.k.rsqrt, x, beta, gamma, eps, Reduced(x.shape, AxisSet(axes)))]
  {
    if |axes| == 1 {
      ReversedRight(m.k.rsqrt, x, axes, eps, beta, gamma, beta', gamma');
    } else {
      SameAxesReduce(x.shape, AxisSet(axes), {1, 2});
      PassedAlong(beta, beta', x.shape, 0);
      PassedAlong(gamma, gamma', x.shape, 0);
      ReshapedParameters(m.k.rsqrt, x, beta, gamma, beta', gamma', eps, Reduced(x.shape, AxisSet(axes)), 0);
    }
  }

  // ---- the site of a fusion ----

  /** The data of the constant tensors. */
  type Constants = map<Tensor, Data>

  /** A matched pattern, its source with the shape recorded for it, its side inputs and the
      dimensions it averages, and the handles of what is created. */
  datatype Site = Site(p: Pattern, s: Tensor, shape: Shape, side: SideInputs, axes: seq<nat>, op: Op, beta: Tensor, gamma: Tensor)

  /** Where the code looks for epsilon among Add0's inputs. */
  function EpsSlot(g: Graph, p: Pattern): (i: nat)
    requires p.add0 in g.node && |g.node[p.add0].inputs| == 2
    ensures i < 2
  {
    if ProducerOf(g, g.node[p.add0].inputs[0]) == Some(p.mean1) then 1 else 0
  }

  /** The constant it is read from: the operand itself, or the first input of its producer. */
  function EpsSource(g: Graph, constants: set<Tensor>, t: Tensor): Option<Tensor> {
    if t in constants then Some(t)
    else if t in g.producer && g.producer[t] in g.node && g.node[g.producer[t]].inputs != []
    then Some(g.node[g.producer[t]].inputs[0])
    else None
  }

  /** The slot test finds the operand that is not Mean1's output. */
  lemma EpsSlotFindsEpsilon(g: Graph, p: Pattern, eps: Tensor)
    requires WritersAgree(g) && Kinds(g, p) && Feeds(g, p.mean1, p.add0) && TwoOperands(g, p.add0, Out(g, p.mean1), eps)
    ensures g.node[p.add0].inputs[EpsSlot(g, p)] == eps
  {
    TwoOrders(g.node[p.add0].inputs, Out(g, p.mean1), eps);
    assert Out(g, p.mean1) in g.node[p.mean1].outputs;
    WriterIs(g, p.mean1, Out(g, p.mean1));
    assert g.node[p.mean1].outputs == [Out(g, p.mean1)];
    assert eps in g.producer ==> eps in g.node[g.producer[eps]].outputs;
  }

  /** What the code converts to numbers is constant data: gamma, beta, and where epsilon comes
      from. */
  predicate Recorded(g: Graph, data: Constants, a: Site) {
    && AxesFit(|a.shape|, a.axes) && a.side.beta in data && a.side.gamma in data
    && EpsSource(g, data.Keys, a.side.eps).Some? && EpsSource(g, data.Keys, a.side.eps).value in data
    && data[EpsSource(g, data.Keys, a.side.eps).value].flat != []
  }

  /** The value handed to the fused operation. */
  function Epsilon(g: Graph, data: Constants, a: Site): real
    requires Recorded(g, data, a)
  {
    data[EpsSource(g, data.Keys, a.side.eps).value].flat[0]
  }

  ghost predicate Holds(v: Valuation, data: Constants) {
    forall t | t in data :: v(t) == data[t]
  }

  /** The source has the shape recorded for it, the parameters lie along one dimension, the
      exponent is two and epsilon is the number read. */
  ghost predicate ValuesFit(g: Graph, v: Valuation, data: Constants, a: Site)
    requires Recorded(g, data, a)
  {
    && v(a.s).shape == a.shape
    && Vector(data[a.side.beta], a.shape, OldDim(a.axes)) && Vector(data[a.side.gamma], a.shape, OldDim(a.axes))
    && Uniform(v(a.side.exponent), a.shape, 2.0)
    && Uniform(v(a.side.eps), Reduced(a.shape, AxisSet(a.axes)), Epsilon(g, data, a))
  }

  /** q makes t a copy of c, its first input. */
  ghost predicate Copies(g: Graph, m: Machine, v: Valuation, q: Op, c: Tensor, t: Tensor) {
    && q in g.ops && q in g.node && g.node[q].inputs != [] && g.node[q].inputs[0] == c && g.node[q].outputs == [t]
    && OpValue(m, q, g.node[q].kind, All(v, g.node[q].inputs)) == [v(c)]
  }

  /** The number read is that of the constant c, whether Add0 reads c itself or a copy of it, as a
      conversion makes; and it is what Add0 adds. */
  lemma EpsilonRead(g: Graph, m: Machine, v: Valuation, data: Constants, a: Site, q: Op, c: Tensor)
    requires WritersAgree(g) && Solves(g, m, v) && Holds(v, data) && c in data && data[c].flat != []
    requires AxesFit(|a.shape|, a.axes) && a.side.beta in data && a.side.gamma in data
    requires a.side.eps == c || (a.side.eps !in data && Copies(g, m, v, q, c, a.side.eps))
    ensures EpsSource(g, data.Keys, a.side.eps) == Some(c) && Recorded(g, data, a)
    ensures Epsilon(g, data, a) == data[c].flat[0] && v(a.side.eps) == data[c]
  {
    if a.side.eps != c {
      assert a.side.eps in g.node[q].outputs;
      WriterIs(g, q, a.side.eps);
      assert OpHolds(m, v, q, g.node[q]);
      assert All(v, [a.side.eps]) == [v(a.side.eps)];
    }
  }

  /** What the fusion code takes for granted about the operands of a match. */
  ghost predicate Foldable(g: Graph, m: Machine, v: Valuation, data: Constants, a: Site)
    requires Kinds(g, a.p)
  {
    && Slots(g, a.p, a.s, a.side) && Parameters(m, a.p, a.axes)
    && Recorded(g, data, a) && ValuesFit(g, v, data, a)
  }

  lemma PlacesBound(g: Graph, p: Pattern)
    requires Kinds(g, p)
    ensures forall o | o in Places(p) :: o in g.node && g.node[o].outputs != []
  {
    forall o | o in Places(p) ensures o in g.node && g.node[o].outputs != [] {
      PlaceCases(p, o);
    }
  }

  /** The pattern's last tensor holds the normalisation of its first. */
  lemma MatchNormalizes(g: Graph, m: Machine, v: Valuation, data: Constants, a: Site)
    requires HasNodes(g) && Solves(g, m, v) && Holds(v, data) && Exact(m.k)
    requires Diagram(g, a.p) && Operands(g, a.p, a.s) && NoDuplicates(Places(a.p)) && Foldable(g, m, v, data, a)
    ensures v(Out(g, a.p.add1)) == Normalized(m.k.rsqrt, v(a.s), data[a.side.beta], data[a.side.gamma], Epsilon(g, data, a),
                                              Reduced(a.shape, AxisSet(a.axes)))
  {
    PlacesBound(g, a.p);
    MeansDiffer(a.p);
    MatchEquations(g, m, v, a.p, a.s, a.side, a.axes);
    PatternNormalizes(m.k, AxisSet(a.axes), ValuesAt(g, v, a.p, a.s, a.side), Epsilon(g, data, a));
  }

  lemma MeansDiffer(p: Pattern)
    requires NoDuplicates(Places(p))
    ensures p.mean0 != p.mean1
  {
    assert Places(p)[MEAN_0] != Places(p)[MEAN_1];
  }

  // ---- the graph afterwards ----

  function Appended(consumers: map<Tensor, seq<Op>>, t: Tensor, o: Op): map<Tensor, seq<Op>> {
    consumers[t := (if t in consumers then consumers[t] else []) + [o]]
  }

  /** The fused operation, connected: it is pushed onto the source's readers once by hand and
      once by binding. */
  function FusedGraph(l: Links, node: map<Op, Node>, o: Op, kind: int, src: Tensor, beta: Tensor, gamma: Tensor, final: Tensor): Graph {
    Graph(l.ops + [o],
          node[o := Node(kind, [src, beta, gamma], [final])],
          Appended(Appended(Appended(Appended(l.consumers, src, o), src, o), beta, o), gamma, o),
          l.producer[final := o])
  }

  /** No operation binds the tensor. */
  ghost predicate Unbound(g: Graph, t: Tensor)
    requires HasNodes(g)
  {
    forall x | x in g.ops :: t !in g.node[x].inputs && t !in g.node[x].outputs
  }

  /** The operation and the two parameter tensors are new. */
  ghost predicate NewHandles(g: Graph, constants: set<Tensor>, a: Site)
    requires HasNodes(g)
  {
    && a.op !in g.node && Unbound(g, a.beta) && Unbound(g, a.gamma)
    && a.beta !in constants && a.gamma !in constants && a.beta != a.gamma
  }

  /** A matched pattern with clean sides in an acyclic graph whose links are true for live
      operations. */
  ghost predicate Matched(g: Graph, rank: Op -> nat, constants: set<Tensor>, a: Site) {
    && LiveLinked(g, constants) && Ordered(g, rank)
    && Diagram(g, a.p) && NoDuplicates(Places(a.p)) && Operands(g, a.p, a.s) && SidesPrivate(g, constants, a.p)
    && IsOps(g, Places(a.p)) && |g.node[a.p.add1].outputs| == 1
    && NewHandles(g, constants, a)
  }

  function Fused(g: Graph, l: Links, a: Site): Graph
    requires a.p.add1 in g.node && g.node[a.p.add1].outputs != []
  {
    FusedGraph(l, g.node, a.op, FusedKind(a.axes), a.s, a.beta, a.gamma, Out(g, a.p.add1))
  }

  /** The graph after a step at a matched site; the removal does not fail there. */
  function After(g: Graph, constants: set<Tensor>, a: Site): Graph
    requires IsOps(g, Places(a.p))
  {
    match RemoveAll(g, constants, Places(a.p))
    case Done(l) => Add1Bound(g, a.p); Fused(g, l, a)
    case Fault => g
  }

  lemma Add1Bound(g: Graph, p: Pattern)
    requires IsOps(g, Places(p))
    ensures p.add1 in g.ops && p.add1 in g.node && g.node[p.add1].outputs != []
  {
    assert Places(p)[ADD_1] in g.ops;
  }

  lemma MatchIsPattern(g: Graph, rank: Op -> nat, op: Op, p: Pattern)
    requires Linked(g) && SingleWriter(g) && Ordered(g, rank) && Wired(g) && Arities(g)
    requires op in g.ops && MatchPattern(g, op) == Found(Places(p))
    ensures Diagram(g, p) && NoDuplicates(Places(p)) && |g.node[p.add1].outputs| == 1
  {
    var q := MatchHasShape(g, op);
    PlacesDetermine(q, p);
    AllDistinct(g, rank, p);
  }

  /** What the matcher accepts, with private sides and new handles, is a site. */
  lemma MatchIsSite(g: Graph, rank: Op -> nat, constants: set<Tensor>, op: Op, a: Site)
    requires Linked(g) && LiveLinked(g, constants) && Ordered(g, rank) && Wired(g) && Arities(g)
    requires op in g.ops && MatchPattern(g, op) == Found(Places(a.p))
    requires Kinds(g, a.p) ==> SidesPrivate(g, constants, a.p)
    requires a.p.sub0 in g.node && a.s in g.node[a.p.sub0].inputs && a.p.mul1 in g.node && a.s in g.node[a.p.mul1].inputs
    requires NewHandles(g, constants, a)
    ensures Matched(g, rank, constants, a)
  {
    MatchIsPattern(g, rank, op, a.p);
    OperandsFollow(g, rank, a.p, a.s);
    ShapeIsOps(g, constants, rank, a.p, a.s);
  }

  /** What a step starts from once the match is out: exact remains in a graph with true links. */
  ghost predicate CutOut(g: Graph, constants: set<Tensor>, a: Site, l: Links) {
    && IsOps(g, Places(a.p)) && LiveLinked(g, constants) && NewHandles(g, constants, a)
    && a.p.add1 in Places(a.p) && a.p.add1 in g.ops && |g.node[a.p.add1].outputs| == 1
    && Remainder(g, constants, Places(a.p), l)
  }

  /** The removal at a site. */
  lemma SiteRemoved(g: Graph, rank: Op -> nat, constants: set<Tensor>, a: Site) returns (l: Links)
    requires Matched(g, rank, constants, a)
    ensures CutOut(g, constants, a, l) && RemoveAll(g, constants, Places(a.p)) == Done(l) && After(g, constants, a) == Fused(g, l, a)
  {
    MatchIsCuttable(g, rank, constants, a.p, a.s);
    RemovalExact(g, constants, Places(a.p));
    PlacesListed(a.p);
    l := RemoveAll(g, constants, Places(a.p)).links;
  }

  /** What is put in place of the pattern: a layer normalisation, with the dimension counted from
      the other end, of one reduced dimension and an instance normalisation of any other number. */
  lemma FusedIs(g: Graph, rank: Op -> nat, constants: set<Tensor>, a: Site, eps: real)
    requires Matched(g, rank, constants, a) && AxesFit(|a.shape|, a.axes)
    ensures var h := After(g, constants, a);
            && a.op in h.node
            && (|a.axes| == 1 ==>
                  h.node[a.op] == Node(58, [a.s, a.beta, a.gamma], [Out(g, a.p.add1)])
                  && FusedParam(|a.shape|, a.axes, eps) == Layer(|a.shape| - 1 - a.axes[0], eps))
            && (|a.axes| != 1 ==>
                  h.node[a.op] == Node(60, [a.s, a.beta, a.gamma], [Out(g, a.p.add1)])
                  && FusedParam(|a.shape|, a.axes, eps) == Instance(eps))
  {
    hide *;
    MatchedIsOps(g, rank, constants, a);
    var l := SiteRemoved(g, rank, constants, a);
    Add1Bound(g, a.p);
    FusedNode(g, l, a);
    FusedParameters(|a.shape|, a.axes, eps);
  }

  lemma MatchedIsOps(g: Graph, rank: Op -> nat, constants: set<Tensor>, a: Site)
    requires Matched(g, rank, constants, a)
    ensures IsOps(g, Places(a.p))
  {
  }

  lemma FusedNode(g: Graph, l: Links, a: Site)
    requires a.p.add1 in g.node && g.node[a.p.add1].outputs != []
    ensures a.op in Fused(g, l, a).node && Fused(g, l, a).node[a.op] == Node(FusedKind(a.axes), [a.s, a.beta, a.gamma], [Out(g, a.p.add1)])
  {
  }

  lemma FusedParameters(rank: nat, axes: seq<nat>, eps: real)
    requires AxesFit(rank, axes)
    ensures |axes| == 1 ==> FusedKind(axes) == 58 && axes[0] < rank && FusedParam(rank, axes, eps) == Layer(rank - 1 - axes[0], eps)
    ensures |axes| != 1 ==> FusedKind(axes) == 60 && FusedParam(rank, axes, eps) == Instance(eps)
  {
  }

  // ---- its readers and producers ----

  lemma AppendedCount(consumers: map<Tensor, seq<Op>>, t: Tensor, o: Op, u: Tensor, x: Op)
    ensures var c := Appended(consumers, t, o);
            Count(if u in c then c[u] else [], x)
            == Count(if u in consumers then consumers[u] else [], x) + if x == o && u == t then 1 else 0
  {
  }

  /** Connecting adds the fused operation to the lists of its inputs, to the source's twice. */
  lemma FusedCount(l: Links, node: map<Op, Node>, o: Op, kind: int, src: Tensor, beta: Tensor, gamma: Tensor, final: Tensor,
                   x: Op, t: Tensor)
    ensures Count(ConsumersOf(FusedGraph(l, node, o, kind, src, beta, gamma, final), t), x)
            == Count(Readers(l, t), x) + if x == o then Count([src, beta, gamma], t) + (if t == src then 1 else 0) else 0
  {
    var c1 := Appended(l.consumers, src, o);
    var c2 := Appended(c1, src, o);
    var c3 := Appended(c2, beta, o);
    AppendedCount(l.consumers, src, o, t, x);
    AppendedCount(c1, src, o, t, x);
    AppendedCount(c2, beta, o, t, x);
    AppendedCount(c3, gamma, o, t, x);
  }

  /** How often an operation of the new graph is listed as a reader. */
  lemma FusedListed(g: Graph, constants: set<Tensor>, a: Site, l: Links, x: Op, t: Tensor)
    requires CutOut(g, constants, a, l) && x in Fused(g, l, a).ops
    ensures x in Fused(g, l, a).node && (x != a.op ==> x in g.ops && Fused(g, l, a).node[x] == g.node[x])
    ensures Count(ConsumersOf(Fused(g, l, a), t), x)
            == if x == a.op then Count([a.s, a.beta, a.gamma], t) + (if t == a.s then 1 else 0)
               else if Spoiled(g, constants, Places(a.p), t) then 0 else Count(ConsumersOf(g, t), x)
  {
    FusedCount(l, g.node, a.op, FusedKind(a.axes), a.s, a.beta, a.gamma, Out(g, a.p.add1), x, t);
    assert a.op !in Readers(l, t);
  }

  lemma FusedHasNodes(g: Graph, constants: set<Tensor>, a: Site, l: Links)
    requires CutOut(g, constants, a, l)
    ensures HasNodes(Fused(g, l, a)) && a.op !in l.ops && a.p.add1 !in l.ops
  {
  }

  lemma CutWriters(g: Graph, constants: set<Tensor>, a: Site, l: Links)
    requires CutOut(g, constants, a, l)
    ensures WritersAgree(g) && a.op !in g.node && (forall x | x in l.ops :: x in g.ops)
    ensures ProducersTrue(g, l, a.p.add1) && a.p.add1 in g.ops && a.p.add1 !in l.ops && g.node[a.p.add1].outputs == [Out(g, a.p.add1)]
  {
  }

  lemma FusedProducers(g: Graph, constants: set<Tensor>, a: Site, l: Links)
    requires CutOut(g, constants, a, l)
    ensures WritersAgree(Fused(g, l, a))
  {
    CutWriters(g, constants, a, l);
    hide CutOut;
    ProducersConnected(g, l, a.p.add1, a.op, FusedKind(a.axes), a.s, a.beta, a.gamma, Out(g, a.p.add1));
  }

  lemma OneWriterConnected(g: Graph, l: Links, add1: Op, o: Op, kind: int, src: Tensor, beta: Tensor, gamma: Tensor, final: Tensor)
    requires WritersAgree(g) && o !in g.node && (forall x | x in l.ops :: x in g.ops)
    requires ProducersTrue(g, l, add1) && add1 in g.ops && add1 !in l.ops && g.node[add1].outputs == [final]
    ensures var h := FusedGraph(l, g.node, o, kind, src, beta, gamma, final); HasNodes(h) && SingleWriter(h)
  {
    hide ProducersAgree; hide ProducersTrue;
    forall x | x in l.ops ensures final !in g.node[x].outputs {
      assert final in g.node[add1].outputs;
    }
  }

  lemma ProducersConnected(g: Graph, l: Links, add1: Op, o: Op, kind: int, src: Tensor, beta: Tensor, gamma: Tensor, final: Tensor)
    requires WritersAgree(g) && o !in g.node && (forall x | x in l.ops :: x in g.ops)
    requires ProducersTrue(g, l, add1) && add1 in g.ops && add1 !in l.ops && g.node[add1].outputs == [final]
    ensures WritersAgree(FusedGraph(l, g.node, o, kind, src, beta, gamma, final))
  {
    var h := FusedGraph(l, g.node, o, kind, src, beta, gamma, final);
    OneWriterConnected(g, l, add1, o, kind, src, beta, gamma, final);
    hide SingleWriter;
    forall t: Tensor | t in h.producer ensures h.producer[t] in h.ops && t in h.node[h.producer[t]].outputs {
      assert t != final ==> t in l.producer && l.producer[t] in l.ops;
    }
  }

  /** Every live operation is listed as a reader of each tensor as often as it binds it, except
      that the fused operation is listed once too often for its source. */
  ghost predicate ReadersLive(g: Graph, o: Op, src: Tensor)
    requires HasNodes(g)
  {
    forall x, t: Tensor | x in g.ops ::
      Count(ConsumersOf(g, t), x) == Count(g.node[x].inputs, t) + if x == o && t == src then 1 else 0
  }

  /** A constant that a removed place read is read by an operation that stays. */
  ghost predicate SharesConstant(g: Graph, constants: set<Tensor>, n: seq<Op>)
    requires IsOps(g, n)
  {
    exists x, t: Tensor :: x in g.ops && !Gone(g, constants, n, x) && t in g.node[x].inputs && Spoiled(g, constants, n, t)
  }

  lemma UnsharedListed(g: Graph, constants: set<Tensor>, a: Site, l: Links, x: Op, t: Tensor)
    requires CutOut(g, constants, a, l) && ConsumersAgree(g) && !SharesConstant(g, constants, Places(a.p))
    requires x in Fused(g, l, a).ops
    ensures x in Fused(g, l, a).node
    ensures Count(ConsumersOf(Fused(g, l, a), t), x)
            == Count(Fused(g, l, a).node[x].inputs, t) + if x == a.op && t == a.s then 1 else 0
  {
    FusedListed(g, constants, a, l, x, t);
    if x != a.op {
      assert Count(ConsumersOf(g, t), x) == Count(g.node[x].inputs, t);
      assert t in g.node[x].inputs ==> !Spoiled(g, constants, Places(a.p), t);
    }
  }

  lemma SharedForgotten(g: Graph, constants: set<Tensor>, a: Site, l: Links)
    requires CutOut(g, constants, a, l) && SharesConstant(g, constants, Places(a.p))
    ensures HasNodes(Fused(g, l, a)) && !ReadersLive(Fused(g, l, a), a.op, a.s)
  {
    var x, t: Tensor :| x in g.ops && !Gone(g, constants, Places(a.p), x) && t in g.node[x].inputs
                        && Spoiled(g, constants, Places(a.p), t);
    FusedHasNodes(g, constants, a, l);
    FusedListed(g, constants, a, l, x, t);
  }

  lemma ReadersLiveExactlyWhen(g: Graph, constants: set<Tensor>, a: Site, l: Links)
    requires CutOut(g, constants, a, l) && ConsumersAgree(g)
    ensures HasNodes(Fused(g, l, a))
    ensures ReadersLive(Fused(g, l, a), a.op, a.s) <==> !SharesConstant(g, constants, Places(a.p))
  {
    FusedHasNodes(g, constants, a, l);
    if SharesConstant(g, constants, Places(a.p)) {
      SharedForgotten(g, constants, a, l);
    } else {
      forall x, t: Tensor | x in Fused(g, l, a).ops
        ensures Count(ConsumersOf(Fused(g, l, a), t), x)
                == Count(Fused(g, l, a).node[x].inputs, t) + if x == a.op && t == a.s then 1 else 0
      {
        UnsharedListed(g, constants, a, l, x, t);
      }
    }
  }

  /** After a step in a graph with exact bookkeeping the operations are those that stay and the
      fused one, every output names its producer, and the reader lists are exact precisely if
      no operation that stays reads a constant of the pattern. */
  lemma FusedLinksTrue(g: Graph, rank: Op -> nat, constants: set<Tensor>, a: Site)
    requires Matched(g, rank, constants, a) && Linked(g)
    ensures var h := After(g, constants, a);
            && h.ops == FusionRemove.Without(g.ops, GoneSet(g, constants, Places(a.p))) + [a.op]
            && WritersAgree(h)
            && (ReadersLive(h, a.op, a.s) <==> !SharesConstant(g, constants, Places(a.p)))
  {
    var l := SiteRemoved(g, rank, constants, a);
    FusedProducers(g, constants, a, l);
    ReadersLiveExactlyWhen(g, constants, a, l);
  }

  // ---- the invariant of fusion steps ----

  lemma ReadersStayTrue(g: Graph, constants: set<Tensor>, a: Site, l: Links)
    requires CutOut(g, constants, a, l)
    ensures HasNodes(Fused(g, l, a)) && ReadersAgree(Fused(g, l, a), constants + {a.beta, a.gamma})
  {
    FusedHasNodes(g, constants, a, l);
    forall x: Op, t: Tensor | x in Fused(g, l, a).ops && t !in constants + {a.beta, a.gamma}
      ensures x in ConsumersOf(Fused(g, l, a), t) <==> t in Fused(g, l, a).node[x].inputs
    {
      FusedListed(g, constants, a, l, x, t);
    }
  }

  lemma {:induction false} WithoutDistinct(ops: seq<Op>, gone: set<Op>)
    requires NoDuplicates(ops)
    ensures NoDuplicates(FusionRemove.Without(ops, gone))
  {
    if ops != [] {
      NoDuplicatesTail(ops);
      WithoutDistinct(ops[1..], gone);
    }
  }

  lemma NamesStay(g: Graph, l: Links, a: Site)
    requires NoStrangers(g, l) && ReadersNamed(g)
    requires a.p.add1 in g.node && g.node[a.p.add1].outputs != []
    ensures ReadersNamed(Fused(g, l, a))
  {
    forall t: Tensor, x: Op | x in ConsumersOf(Fused(g, l, a), t) ensures x in Fused(g, l, a).node {
      FusedCount(l, g.node, a.op, FusedKind(a.axes), a.s, a.beta, a.gamma, Out(g, a.p.add1), x, t);
    }
  }

  /** No live operation writes a constant, old or new. */
  lemma ConstantsStay(g: Graph, l: Links, constants: set<Tensor>, a: Site)
    requires HasNodes(g) && Unwritten(g, constants) && Unbound(g, a.beta) && Unbound(g, a.gamma)
    requires a.p.add1 in g.ops && g.node[a.p.add1].outputs != [] && forall x | x in l.ops :: x in g.ops && x != a.op
    ensures HasNodes(Fused(g, l, a)) && Unwritten(Fused(g, l, a), constants + {a.beta, a.gamma})
  {
    assert Out(g, a.p.add1) in g.node[a.p.add1].outputs;
  }

  lemma LinksStay(g: Graph, constants: set<Tensor>, a: Site, l: Links)
    requires CutOut(g, constants, a, l)
    ensures LiveLinked(Fused(g, l, a), constants + {a.beta, a.gamma})
  {
    FusedProducers(g, constants, a, l);
    ReadersStayTrue(g, constants, a, l);
    FusedHasNodes(g, constants, a, l);
    WithoutDistinct(g.ops, GoneSet(g, constants, Places(a.p)));
    NamesStay(g, l, a);
    ConstantsStay(g, l, constants, a);
  }

  /** What is true of the links of live operations stays true, with the new parameters among
      the constants. */
  lemma StepKeepsLinks(g: Graph, rank: Op -> nat, constants: set<Tensor>, a: Site)
    requires Matched(g, rank, constants, a)
    ensures LiveLinked(After(g, constants, a), constants + {a.beta, a.gamma})
  {
    var l := SiteRemoved(g, rank, constants, a);
    LinksStay(g, constants, a, l);
  }
}
