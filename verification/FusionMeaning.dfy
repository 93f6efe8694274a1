/** What a graph computes, and what replacing a matched pattern does to it: every tensor that
    survives keeps its value. */
module FusionMeaning {
  import opened GraphModel
  import opened FusionMatch
  import opened FusionRemove
  import opened TensorLayout
  import opened Broadcast
  import opened Normalize
  import opened NormalizePattern
  import opened NormalizeAxes

  const LAYER_NORM: int := 58
  const INSTANCE_NORM: int := 60

  /** The parameters an operation is created with, where its meaning depends on them. */
  datatype Param =
    | Reduction(axes: seq<nat>, mean: bool, keepDims: bool)
    | Layer(axis: nat, epsilon: real)
    | Instance(epsilon: real)
    | Special

  /** The driver: its element-wise functions, the parameters of each operation, and what any
      other operation computes. */
  datatype Machine = Machine(k: Kernels, param: map<Op, Param>, other: (Op, seq<Data>) -> seq<Data>)

  function AxisSet(axes: seq<nat>): (s: set<nat>)
    ensures forall a :: a in s <==> a in axes
  {
    set a | a in axes
  }

  function Elementwise(k: Kernels, kind: int): Option<(real, real) -> real> {
    if kind == ADD then Some(k.plus)
    else if kind == SUBTRACT then Some(k.minus)
    else if kind == MULTIPLY then Some(k.times)
    else if kind == POW then Some(k.power)
    else None
  }

  /** What an operation computes from its operands. */
  function OpValue(m: Machine, o: Op, kind: int, xs: seq<Data>): seq<Data> {
    if o !in m.param then
      if Elementwise(m.k, kind).Some? && |xs| == 2 then [Binary(Elementwise(m.k, kind).value, xs[0], xs[1])]
      else if kind == RSQRT && |xs| == 1 then [Unary(m.k.rsqrt, xs[0])]
      else m.other(o, xs)
    else
      match m.param[o]
      case Reduction(axes, true, true) =>
        if kind == REDUCE && |xs| == 1 then [Average(xs[0], Reduced(xs[0].shape, AxisSet(axes)))] else m.other(o, xs)
      case Layer(axis, eps) =>
        if kind == LAYER_NORM && |xs| == 3
        then [Normalized(m.k.rsqrt, xs[0], xs[1], xs[2], eps, Reduced(xs[0].shape, {axis}))] else m.other(o, xs)
      case Instance(eps) =>
        if kind == INSTANCE_NORM && |xs| == 3
        then [Normalized(m.k.rsqrt, xs[0], xs[1], xs[2], eps, Reduced(xs[0].shape, {1, 2}))] else m.other(o, xs)
      case _ => m.other(o, xs)
  }

  type Valuation = Tensor -> Data

  function All(v: Valuation, ts: seq<Tensor>): (xs: seq<Data>)
    ensures |xs| == |ts| && forall i | 0 <= i < |ts| :: xs[i] == v(ts[i])
  {
    seq(|ts|, i requires 0 <= i < |ts| => v(ts[i]))
  }

  predicate OpHolds(m: Machine, v: Valuation, o: Op, n: Node) {
    All(v, n.outputs) == OpValue(m, o, n.kind, All(v, n.inputs))
  }

  /** v gives every tensor the value its writer computes. */
  ghost predicate Solves(g: Graph, m: Machine, v: Valuation)
    requires HasNodes(g)
  {
    forall o | o in g.ops :: OpHolds(m, v, o, g.node[o])
  }

  // ---- the equations of a match ----

  /** The operands the fused operation takes over: exponent, epsilon, gamma and beta. */
  datatype SideInputs = SideInputs(exponent: Tensor, eps: Tensor, gamma: Tensor, beta: Tensor)

  ghost predicate InOrder(g: Graph, o: Op, t: Tensor, u: Tensor) {
    o in g.node && |g.node[o].inputs| == 2 && g.node[o].inputs[0] == t && g.node[o].inputs[1] == u
  }

  /** Which slots the pattern's operands sit in, where order matters, and that Mean0 reads
      the tensor Sub0 and Mul1 share. */
  ghost predicate Slots(g: Graph, p: Pattern, s: Tensor, side: SideInputs)
    requires Kinds(g, p)
  {
    && g.node[p.mean0].inputs == [s]
    && InOrder(g, p.pow, Out(g, p.sub0), side.exponent)
    && InOrder(g, p.mul0, Out(g, p.rsqrt), side.gamma)
    && InOrder(g, p.sub1, side.beta, Out(g, p.mul2))
    && TwoOperands(g, p.add0, Out(g, p.mean1), side.eps)
  }

  /** Both reductions are means over the same dimensions that keep them; the element-wise
      places have no scale or other parameter. */
  predicate Parameters(m: Machine, p: Pattern, axes: seq<nat>) {
    && p.mean0 in m.param && m.param[p.mean0] == Reduction(axes, true, true)
    && p.mean1 in m.param && m.param[p.mean1] == Reduction(axes, true, true)
    && forall o | o in Places(p) && o != p.mean0 && o != p.mean1 :: o !in m.param
  }

  function ValuesAt(g: Graph, v: Valuation, p: Pattern, s: Tensor, side: SideInputs): Values
    requires forall o | o in Places(p) :: o in g.node && g.node[o].outputs != []
  {
    PlacesListed(p);
    Values(v(s), v(side.exponent), v(side.eps), v(side.gamma), v(side.beta),
           v(Out(g, p.mean0)), v(Out(g, p.sub0)), v(Out(g, p.pow)), v(Out(g, p.mean1)), v(Out(g, p.add0)),
           v(Out(g, p.rsqrt)), v(Out(g, p.mul0)), v(Out(g, p.mul1)), v(Out(g, p.mul2)), v(Out(g, p.sub1)),
           v(Out(g, p.add1)))
  }

  lemma BinaryHolds(g: Graph, m: Machine, v: Valuation, o: Op, kind: int, f: (real, real) -> real, t: Tensor, u: Tensor)
    requires HasNodes(g) && Solves(g, m, v) && Listed(g, o, kind) && o !in m.param
    requires Elementwise(m.k, kind) == Some(f) && InOrder(g, o, t, u)
    ensures v(Out(g, o)) == Binary(f, v(t), v(u))
  {
    var n := g.node[o];
    assert OpHolds(m, v, o, n);
    assert All(v, n.outputs)[0] == v(Out(g, o));
  }

  lemma EitherHolds(g: Graph, m: Machine, v: Valuation, o: Op, kind: int, f: (real, real) -> real, t: Tensor, u: Tensor)
    requires HasNodes(g) && Solves(g, m, v) && Listed(g, o, kind) && o !in m.param
    requires Elementwise(m.k, kind) == Some(f) && TwoOperands(g, o, t, u)
    ensures Either(f, v(t), v(u), v(Out(g, o)))
  {
    TwoOrders(g.node[o].inputs, t, u);
    if g.node[o].inputs == [t, u] {
      BinaryHolds(g, m, v, o, kind, f, t, u);
    } else {
      BinaryHolds(g, m, v, o, kind, f, u, t);
    }
  }

  lemma TwoOrders(ts: seq<Tensor>, t: Tensor, u: Tensor)
    requires |ts| == 2 && t != u && multiset(ts) == multiset{t, u}
    ensures ts == [t, u] || ts == [u, t]
  {
    assert ts == [ts[0], ts[1]];
    assert t in multiset(ts) && u in multiset(ts);
  }

  lemma MatchEquations(g: Graph, m: Machine, v: Valuation, p: Pattern, s: Tensor, side: SideInputs, axes: seq<nat>)
    requires HasNodes(g) && Solves(g, m, v) && Diagram(g, p) && Operands(g, p, s)
    requires Slots(g, p, s, side) && Parameters(m, p, axes) && p.mean0 != p.mean1
    requires NoDuplicates(Places(p)) && forall o | o in Places(p) :: o in g.node && g.node[o].outputs != []
    ensures SpreadEquations(m.k, AxisSet(axes), ValuesAt(g, v, p, s, side))
    ensures ScaleEquations(m.k, ValuesAt(g, v, p, s, side))
  {
    PlacesListed(p);
    PlainPlaces(m, p, axes);
    SpreadHolds(g, m, v, p, s, side, axes);
    ScaleHolds(g, m, v, p, s, side);
  }

  lemma PlainPlaces(m: Machine, p: Pattern, axes: seq<nat>)
    requires Parameters(m, p, axes) && NoDuplicates(Places(p))
    ensures p.sub0 !in m.param && p.pow !in m.param && p.add0 !in m.param && p.rsqrt !in m.param && p.mul0 !in m.param
    ensures p.mul1 !in m.param && p.mul2 !in m.param && p.sub1 !in m.param && p.add1 !in m.param
  {
    PlacesListed(p);
    var n := Places(p);
    assert n[MEAN_0] == p.mean0 && n[MEAN_1] == p.mean1;
    assert forall i | 0 <= i < 11 && i != MEAN_0 && i != MEAN_1 :: n[i] in n && n[i] != p.mean0 && n[i] != p.mean1;
  }

  lemma DeviationHolds(g: Graph, m: Machine, v: Valuation, p: Pattern, s: Tensor)
    requires HasNodes(g) && Solves(g, m, v) && Kinds(g, p) && Operands(g, p, s) && p.sub0 !in m.param
    ensures Either(m.k.minus, v(s), v(Out(g, p.mean0)), v(Out(g, p.sub0)))
  {
    EitherHolds(g, m, v, p.sub0, SUBTRACT, m.k.minus, Out(g, p.mean0), s);
  }

  lemma PowerHolds(g: Graph, m: Machine, v: Valuation, pow: Op, t: Tensor, exponent: Tensor)
    requires HasNodes(g) && Solves(g, m, v) && Listed(g, pow, POW) && InOrder(g, pow, t, exponent) && pow !in m.param
    ensures v(Out(g, pow)) == Binary(m.k.power, v(t), v(exponent))
  {
    BinaryHolds(g, m, v, pow, POW, m.k.power, t, exponent);
  }

  lemma SpreadHolds(g: Graph, m: Machine, v: Valuation, p: Pattern, s: Tensor, side: SideInputs, axes: seq<nat>)
    requires HasNodes(g) && Solves(g, m, v) && Kinds(g, p) && Operands(g, p, s)
    requires Slots(g, p, s, side) && Parameters(m, p, axes) && p.sub0 !in m.param && p.pow !in m.param
    requires forall o | o in Places(p) :: o in g.node && g.node[o].outputs != []
    ensures SpreadEquations(m.k, AxisSet(axes), ValuesAt(g, v, p, s, side))
  {
    DeviationHolds(g, m, v, p, s);
    PowerHolds(g, m, v, p.pow, Out(g, p.sub0), side.exponent);
  }

  lemma FactorHolds(g: Graph, m: Machine, v: Valuation, p: Pattern, s: Tensor, side: SideInputs)
    requires HasNodes(g) && Solves(g, m, v) && Kinds(g, p) && Operands(g, p, s) && Slots(g, p, s, side)
    requires p.add0 !in m.param && p.rsqrt !in m.param && p.mul0 !in m.param
    ensures Either(m.k.plus, v(Out(g, p.mean1)), v(side.eps), v(Out(g, p.add0)))
    ensures v(Out(g, p.rsqrt)) == Unary(m.k.rsqrt, v(Out(g, p.add0)))
    ensures v(Out(g, p.mul0)) == Binary(m.k.times, v(Out(g, p.rsqrt)), v(side.gamma))
  {
    EitherHolds(g, m, v, p.add0, ADD, m.k.plus, Out(g, p.mean1), side.eps);
    BinaryHolds(g, m, v, p.mul0, MULTIPLY, m.k.times, Out(g, p.rsqrt), side.gamma);
  }

  lemma ProductsHold(g: Graph, m: Machine, v: Valuation, p: Pattern, s: Tensor)
    requires HasNodes(g) && Solves(g, m, v) && Kinds(g, p) && Operands(g, p, s)
    requires p.mul1 !in m.param && p.mul2 !in m.param
    ensures Either(m.k.times, v(s), v(Out(g, p.mul0)), v(Out(g, p.mul1)))
    ensures Either(m.k.times, v(Out(g, p.mean0)), v(Out(g, p.mul0)), v(Out(g, p.mul2)))
  {
    EitherHolds(g, m, v, p.mul1, MULTIPLY, m.k.times, Out(g, p.mul0), s);
    EitherHolds(g, m, v, p.mul2, MULTIPLY, m.k.times, Out(g, p.mean0), Out(g, p.mul0));
  }

  lemma ResultHolds(g: Graph, m: Machine, v: Valuation, p: Pattern, s: Tensor, side: SideInputs)
    requires HasNodes(g) && Solves(g, m, v) && Kinds(g, p) && Operands(g, p, s) && Slots(g, p, s, side)
    requires p.sub1 !in m.param && p.add1 !in m.param
    ensures v(Out(g, p.sub1)) == Binary(m.k.minus, v(side.beta), v(Out(g, p.mul2)))
    ensures Either(m.k.plus, v(Out(g, p.mul1)), v(Out(g, p.sub1)), v(Out(g, p.add1)))
  {
    BinaryHolds(g, m, v, p.sub1, SUBTRACT, m.k.minus, side.beta, Out(g, p.mul2));
    EitherHolds(g, m, v, p.add1, ADD, m.k.plus, Out(g, p.mul1), Out(g, p.sub1));
  }

  lemma ScaleHolds(g: Graph, m: Machine, v: Valuation, p: Pattern, s: Tensor, side: SideInputs)
    requires HasNodes(g) && Solves(g, m, v) && Kinds(g, p) && Operands(g, p, s) && Slots(g, p, s, side)
    requires p.add0 !in m.param && p.rsqrt !in m.param && p.mul0 !in m.param
    requires p.mul1 !in m.param && p.mul2 !in m.param && p.sub1 !in m.param && p.add1 !in m.param
    requires forall o | o in Places(p) :: o in g.node && g.node[o].outputs != []
    ensures ScaleEquations(m.k, ValuesAt(g, v, p, s, side))
  {
    FactorHolds(g, m, v, p, s, side);
    ProductsHold(g, m, v, p, s);
    ResultHolds(g, m, v, p, s, side);
  }
}
