/** What a fusion step does to the values a graph computes. */
module FusionSound {
  import opened GraphModel
  import opened FusionMatch
  import opened FusionRemove
  import opened TensorLayout
  import opened Broadcast
  import opened Normalize
  import opened NormalizePattern
  import opened NormalizeAxes
  import opened FusionMeaning
  import opened FusionResult

  // ---- values are determined by the sources ----

  ghost predicate Written(g: Graph, t: Tensor)
    requires HasNodes(g)
  {
    exists q :: q in g.ops && t in g.node[q].outputs
  }

  /** v and w agree on what the operations read from outside. */
  ghost predicate SameSources(g: Graph, v: Valuation, w: Valuation)
    requires HasNodes(g)
  {
    forall o, t: Tensor | o in g.ops && t in g.node[o].inputs && !Written(g, t) :: v(t) == w(t)
  }

  lemma SameAll(v: Valuation, w: Valuation, ts: seq<Tensor>)
    ensures All(v, ts) == All(w, ts) <==> forall t | t in ts :: v(t) == w(t)
  {
    if All(v, ts) == All(w, ts) {
      forall t | t in ts ensures v(t) == w(t) {
        var i :| 0 <= i < |ts| && ts[i] == t;
        assert All(v, ts)[i] == All(w, ts)[i];
      }
    }
  }

  /** On an acyclic graph two solutions with the same sources are the same. */
  lemma {:induction false} Determined(g: Graph, m: Machine, rank: Op -> nat, v: Valuation, w: Valuation, o: Op)
    requires HasNodes(g) && Ordered(g, rank) && Solves(g, m, v) && Solves(g, m, w) && SameSources(g, v, w) && o in g.ops
    ensures forall t | t in g.node[o].inputs || t in g.node[o].outputs :: v(t) == w(t)
    decreases rank(o)
  {
    var n := g.node[o];
    forall t | t in n.inputs ensures v(t) == w(t) {
      if Written(g, t) {
        var q :| q in g.ops && t in g.node[q].outputs;
        Determined(g, m, rank, v, w, q);
      }
    }
    SameAll(v, w, n.inputs);
    assert OpHolds(m, v, o, n) && OpHolds(m, w, o, n);
    SameAll(v, w, n.outputs);
  }

  // ---- and exist ----

  /** Every operation computes as many values as it has outputs, which are different tensors. */
  ghost predicate Produces(g: Graph, m: Machine)
    requires HasNodes(g)
  {
    forall o | o in g.ops :: ProducesAt(m, o, g.node[o])
  }

  ghost predicate ProducesAt(m: Machine, o: Op, n: Node) {
    NoDuplicates(n.outputs) && forall xs: seq<Data> | |xs| == |n.inputs| :: |OpValue(m, o, n.kind, xs)| == |n.outputs|
  }

  ghost function WriterOf(g: Graph, t: Tensor): (q: Op)
    requires HasNodes(g) && Written(g, t)
    ensures q in g.ops && t in g.node[q].outputs
  {
    var q :| q in g.ops && t in g.node[q].outputs; q
  }

  /** The value for t among the values of the tensors ts. */
  ghost function Picked(xs: seq<Data>, ts: seq<Tensor>, t: Tensor): Data
    requires t in ts
  {
    var i :| 0 <= i < |ts| && ts[i] == t;
    if i < |xs| then xs[i] else Zeros([])
  }

  ghost function InputsOf(g: Graph, m: Machine, rank: Op -> nat, src: Valuation, o: Op, k: nat): (xs: seq<Data>)
    requires HasNodes(g) && Ordered(g, rank) && o in g.ops && k <= |g.node[o].inputs|
    ensures |xs| == k
    decreases rank(o), 0, k
  {
    if k == 0 then []
    else
      var t := g.node[o].inputs[k - 1];
      InputsOf(g, m, rank, src, o, k - 1) + [if Written(g, t) then ValueOf(g, m, rank, src, t) else src(t)]
  }

  ghost function ResultsOf(g: Graph, m: Machine, rank: Op -> nat, src: Valuation, o: Op): seq<Data>
    requires HasNodes(g) && Ordered(g, rank) && o in g.ops
    decreases rank(o), 1, 0
  {
    OpValue(m, o, g.node[o].kind, InputsOf(g, m, rank, src, o, |g.node[o].inputs|))
  }

  ghost function ValueOf(g: Graph, m: Machine, rank: Op -> nat, src: Valuation, t: Tensor): Data
    requires HasNodes(g) && Ordered(g, rank) && Written(g, t)
    decreases rank(WriterOf(g, t)), 2, 0
  {
    var q := WriterOf(g, t);
    Picked(ResultsOf(g, m, rank, src, q), g.node[q].outputs, t)
  }

  /** The values computed from the sources src. */
  ghost function Computed(g: Graph, m: Machine, rank: Op -> nat, src: Valuation): Valuation
    requires HasNodes(g) && Ordered(g, rank)
  {
    (t: Tensor) => if Written(g, t) then ValueOf(g, m, rank, src, t) else src(t)
  }

  lemma {:induction false} InputsComputed(g: Graph, m: Machine, rank: Op -> nat, src: Valuation, o: Op, k: nat)
    requires HasNodes(g) && Ordered(g, rank) && o in g.ops && k <= |g.node[o].inputs|
    ensures InputsOf(g, m, rank, src, o, k) == All(Computed(g, m, rank, src), g.node[o].inputs[..k])
  {
    if k > 0 {
      InputsComputed(g, m, rank, src, o, k - 1);
      AllExtends(Computed(g, m, rank, src), g.node[o].inputs, k);
    }
  }

  lemma AllExtends(v: Valuation, ts: seq<Tensor>, k: nat)
    requires 0 < k <= |ts|
    ensures All(v, ts[..k]) == All(v, ts[..k - 1]) + [v(ts[k - 1])]
  {
  }

  lemma OutputComputed(g: Graph, m: Machine, rank: Op -> nat, src: Valuation, o: Op, i: nat)
    requires WritersAgree(g) && Ordered(g, rank) && Produces(g, m) && o in g.ops && i < |g.node[o].outputs|
    requires |ResultsOf(g, m, rank, src, o)| == |g.node[o].outputs|
    ensures Computed(g, m, rank, src)(g.node[o].outputs[i]) == ResultsOf(g, m, rank, src, o)[i]
  {
    var ts := g.node[o].outputs;
    assert ts[i] in ts && WriterOf(g, ts[i]) == o && ProducesAt(m, o, g.node[o]);
  }

  /** An acyclic graph can be evaluated, whatever its sources. */
  lemma Solvable(g: Graph, m: Machine, rank: Op -> nat, src: Valuation)
    requires WritersAgree(g) && Ordered(g, rank) && Produces(g, m)
    ensures Solves(g, m, Computed(g, m, rank, src))
    ensures forall t: Tensor | !Written(g, t) :: Computed(g, m, rank, src)(t) == src(t)
  {
    var v := Computed(g, m, rank, src);
    forall o | o in g.ops ensures OpHolds(m, v, o, g.node[o]) {
      var n := g.node[o];
      InputsComputed(g, m, rank, src, o, |n.inputs|);
      assert n.inputs[..|n.inputs|] == n.inputs && ProducesAt(m, o, n);
      forall i | 0 <= i < |n.outputs| ensures All(v, n.outputs)[i] == ResultsOf(g, m, rank, src, o)[i] {
        OutputComputed(g, m, rank, src, o, i);
      }
    }
  }

  // ---- the old values in the new graph ----

  ghost predicate Supported(g: Graph, m: Machine, v: Valuation, data: Constants, a: Site)
    requires HasNodes(g) && Kinds(g, a.p)
  {
    Solves(g, m, v) && Holds(v, data) && Exact(m.k) && Foldable(g, m, v, data, a)
  }

  /** The driver with the new operation's parameters. */
  function NewMachine(g: Graph, m: Machine, data: Constants, a: Site): Machine
    requires Recorded(g, data, a)
  {
    m.(param := m.param[a.op := FusedParam(|a.shape|, a.axes, Epsilon(g, data, a))])
  }

  /** w gives the new parameter tensors the buffers of the old ones. */
  predicate ParametersPassed(g: Graph, data: Constants, w: Valuation, a: Site)
    requires Recorded(g, data, a)
  {
    && Passed(data[a.side.beta], w(a.beta), a.shape, NewDim(|a.shape|, a.axes))
    && Passed(data[a.side.gamma], w(a.gamma), a.shape, NewDim(|a.shape|, a.axes))
  }

  /** v, with the values w gives to the new parameters. */
  function Patched(v: Valuation, w: Valuation, a: Site): Valuation {
    (t: Tensor) => if t == a.beta || t == a.gamma then w(t) else v(t)
  }

  lemma PatchedElsewhere(v: Valuation, w: Valuation, a: Site, ts: seq<Tensor>)
    requires a.beta !in ts && a.gamma !in ts
    ensures All(Patched(v, w, a), ts) == All(v, ts)
  {
  }

  lemma LiveHolds(g: Graph, m: Machine, v: Valuation, w: Valuation, a: Site, param: Param, x: Op)
    requires HasNodes(g) && Solves(g, m, v) && x in g.ops && x != a.op && Unbound(g, a.beta) && Unbound(g, a.gamma)
    ensures OpHolds(m.(param := m.param[a.op := param]), Patched(v, w, a), x, g.node[x])
  {
    var n := g.node[x];
    PatchedElsewhere(v, w, a, n.inputs);
    PatchedElsewhere(v, w, a, n.outputs);
    assert OpHolds(m, v, x, n);
  }

  lemma OneResult(m: Machine, u: Valuation, o: Op, kind: int, x: Tensor, y: Tensor, z: Tensor, t: Tensor)
    requires OpValue(m, o, kind, [u(x), u(y), u(z)]) == [u(t)]
    ensures OpHolds(m, u, o, Node(kind, [x, y, z], [t]))
  {
    assert All(u, [x, y, z]) == [u(x), u(y), u(z)];
    assert All(u, [t]) == [u(t)];
  }

  lemma FusedOpHolds(g: Graph, m: Machine, v: Valuation, w: Valuation, data: Constants, a: Site, final: Tensor)
    requires Recorded(g, data, a) && ValuesFit(g, v, data, a) && AxesAgree(a.shape, a.axes) && ParametersPassed(g, data, w, a)
    requires v(final) == Normalized(m.k.rsqrt, v(a.s), data[a.side.beta], data[a.side.gamma], Epsilon(g, data, a),
                                    Reduced(a.shape, AxisSet(a.axes)))
    requires a.s != a.beta && a.s != a.gamma && final != a.beta && final != a.gamma
    ensures OpHolds(NewMachine(g, m, data, a), Patched(v, w, a), a.op, Node(FusedKind(a.axes), [a.s, a.beta, a.gamma], [final]))
  {
    var m', u := NewMachine(g, m, data, a), Patched(v, w, a);
    FusedComputes(m', a.op, a.axes, Epsilon(g, data, a), v(a.s), data[a.side.beta], data[a.side.gamma], w(a.beta), w(a.gamma));
    OneResult(m', u, a.op, FusedKind(a.axes), a.s, a.beta, a.gamma, final);
  }

  /** h has the operations of g that stay and the fused one. */
  ghost predicate Replaced(g: Graph, h: Graph, constants: set<Tensor>, a: Site) {
    && IsOps(g, Places(a.p)) && a.p.add1 in g.ops && g.node[a.p.add1].outputs == [Out(g, a.p.add1)] && HasNodes(h)
    && a.op in h.node && h.node[a.op] == Node(FusedKind(a.axes), [a.s, a.beta, a.gamma], [Out(g, a.p.add1)])
    && (forall x :: x in h.ops <==> x == a.op || (x in g.ops && !Gone(g, constants, Places(a.p), x)))
    && (forall x | x in g.ops :: x != a.op && x in h.node && h.node[x] == g.node[x])
  }

  lemma FusedReplaces(g: Graph, constants: set<Tensor>, a: Site, l: Links)
    requires CutOut(g, constants, a, l)
    ensures Replaced(g, Fused(g, l, a), constants, a)
  {
    FusedHasNodes(g, constants, a, l);
    assert g.node[a.p.add1].outputs == [Out(g, a.p.add1)];
  }

  lemma StepReplaces(g: Graph, rank: Op -> nat, constants: set<Tensor>, a: Site)
    requires Matched(g, rank, constants, a)
    ensures Replaced(g, After(g, constants, a), constants, a)
  {
    var l := SiteRemoved(g, rank, constants, a);
    FusedReplaces(g, constants, a, l);
  }

  /** The source and the result are bound, hence none of the new parameters. */
  lemma SiteTensors(g: Graph, constants: set<Tensor>, a: Site)
    requires Kinds(g, a.p) && HasNodes(g) && Operands(g, a.p, a.s) && NewHandles(g, constants, a)
    ensures a.s != a.beta && a.s != a.gamma && Out(g, a.p.add1) != a.beta && Out(g, a.p.add1) != a.gamma
  {
    assert a.p.sub0 in g.ops && a.s in multiset(g.node[a.p.sub0].inputs);
    assert Out(g, a.p.add1) in g.node[a.p.add1].outputs;
  }

  lemma ReplacedSolved(g: Graph, h: Graph, m: Machine, v: Valuation, w: Valuation, constants: set<Tensor>, a: Site, param: Param)
    requires Replaced(g, h, constants, a) && Solves(g, m, v) && Unbound(g, a.beta) && Unbound(g, a.gamma)
    requires OpHolds(m.(param := m.param[a.op := param]), Patched(v, w, a), a.op, h.node[a.op])
    ensures Solves(h, m.(param := m.param[a.op := param]), Patched(v, w, a))
  {
    forall x | x in h.ops && x != a.op ensures OpHolds(m.(param := m.param[a.op := param]), Patched(v, w, a), x, h.node[x]) {
      LiveHolds(g, m, v, w, a, param, x);
    }
  }

  /** The old values, with the new parameters, solve the new graph. */
  lemma OldValuesSolve(g: Graph, m: Machine, v: Valuation, w: Valuation, rank: Op -> nat, data: Constants, a: Site)
    requires Matched(g, rank, data.Keys, a) && Supported(g, m, v, data, a) && AxesAgree(a.shape, a.axes)
    requires ParametersPassed(g, data, w, a)
    ensures HasNodes(After(g, data.Keys, a))
    ensures Solves(After(g, data.Keys, a), NewMachine(g, m, data, a), Patched(v, w, a))
  {
    StepReplaces(g, rank, data.Keys, a);
    SiteTensors(g, data.Keys, a);
    MatchNormalizes(g, m, v, data, a);
    FusedOpHolds(g, m, v, w, data, a, Out(g, a.p.add1));
    ReplacedSolved(g, After(g, data.Keys, a), m, v, w, data.Keys, a, FusedParam(|a.shape|, a.axes, Epsilon(g, data, a)));
  }

  /** What the pattern computes at a site. */
  lemma SiteNormalizes(g: Graph, m: Machine, v: Valuation, rank: Op -> nat, data: Constants, a: Site)
    requires Matched(g, rank, data.Keys, a) && Supported(g, m, v, data, a)
    ensures v(Out(g, a.p.add1)) == Normalized(m.k.rsqrt, v(a.s), data[a.side.beta], data[a.side.gamma], Epsilon(g, data, a),
                                              Reduced(a.shape, AxisSet(a.axes)))
  {
    MatchNormalizes(g, m, v, data, a);
  }

  /** An operation that stays computes with the new machine what it did with the old one. */
  lemma StayingHolds(g: Graph, h: Graph, m: Machine, w: Valuation, data: Constants, a: Site, x: Op)
    requires Recorded(g, data, a) && Replaced(g, h, data.Keys, a) && Solves(h, NewMachine(g, m, data, a), w)
    requires x in g.ops && x in h.ops
    ensures OpHolds(m, w, x, g.node[x])
  {
    assert OpHolds(NewMachine(g, m, data, a), w, x, h.node[x]);
  }

  // ---- the new graph is acyclic ----

  /** The fused operation takes Add1's place in the order. */
  function FusedRank(rank: Op -> nat, a: Site): Op -> nat {
    (x: Op) => if x == a.op then rank(a.p.add1) else rank(x)
  }

  lemma FusedEdge(g: Graph, h: Graph, rank: Op -> nat, constants: set<Tensor>, a: Site, q: Op, x: Op, t: Tensor)
    requires Replaced(g, h, constants, a) && Ordered(g, rank) && NewHandles(g, constants, a)
    requires a.p.mean0 in g.ops && g.node[a.p.mean0].inputs == [a.s] && rank(a.p.mean0) < rank(a.p.add1)
    requires Out(g, a.p.add1) != a.beta && Out(g, a.p.add1) != a.gamma
    requires q in h.ops && x in h.ops && t in h.node[q].outputs && t in h.node[x].inputs
    ensures FusedRank(rank, a)(q) < FusedRank(rank, a)(x)
  {
    var q' := if q == a.op then a.p.add1 else q;
    var x' := if x == a.op then a.p.mean0 else x;
    assert q' in g.ops && t in g.node[q'].outputs;
    assert x' in g.ops && t in g.node[x'].inputs;
  }

  lemma ReplacedOrdered(g: Graph, h: Graph, rank: Op -> nat, constants: set<Tensor>, a: Site)
    requires Replaced(g, h, constants, a) && Ordered(g, rank) && NewHandles(g, constants, a)
    requires a.p.mean0 in g.ops && g.node[a.p.mean0].inputs == [a.s] && rank(a.p.mean0) < rank(a.p.add1)
    requires Out(g, a.p.add1) != a.beta && Out(g, a.p.add1) != a.gamma
    ensures Ordered(h, FusedRank(rank, a))
  {
    forall q, x, t: Tensor | q in h.ops && x in h.ops && t in h.node[q].outputs && t in h.node[x].inputs
      ensures FusedRank(rank, a)(q) < FusedRank(rank, a)(x)
    {
      FusedEdge(g, h, rank, constants, a, q, x, t);
    }
  }

  lemma AfterOrdered(g: Graph, rank: Op -> nat, constants: set<Tensor>, a: Site)
    requires Matched(g, rank, constants, a) && g.node[a.p.mean0].inputs == [a.s]
    ensures HasNodes(After(g, constants, a)) && Ordered(After(g, constants, a), FusedRank(rank, a))
  {
    StepReplaces(g, rank, constants, a);
    SiteTensors(g, constants, a);
    RanksIncrease(g, constants, rank, a.p);
    ReplacedOrdered(g, After(g, constants, a), rank, constants, a);
  }

  // ---- what keeps its writer ----

  /** A place whose inputs lose their producers reads the tensor. */
  ghost predicate SweepReads(g: Graph, n: seq<Op>, t: Tensor)
    requires IsOps(g, n)
  {
    exists i: nat :: Sweeps(i) && t in g.node[n[i]].inputs
  }

  lemma SoleOutput(g: Graph, q: Op, t: Tensor)
    requires q in g.node && |g.node[q].outputs| == 1 && t in g.node[q].outputs
    ensures g.node[q].outputs == [t] && Out(g, q) == t
  {
  }

  lemma PlaceWriter(g: Graph, rank: Op -> nat, constants: set<Tensor>, p: Pattern, s: Tensor, q: Op, t: Tensor)
    requires LiveLinked(g, constants) && Ordered(g, rank) && Diagram(g, p) && Operands(g, p, s) && |g.node[p.add1].outputs| == 1
    requires q in Places(p) && q in g.node && t in g.node[q].outputs
    ensures t == Out(g, p.add1) || Interior(g, p, t)
  {
    PlaceFacts(g, constants, rank, p, s, q);
    SoleOutput(g, q, t);
  }

  lemma SweptWriter(g: Graph, rank: Op -> nat, constants: set<Tensor>, p: Pattern, s: Tensor, q: Op, t: Tensor)
    requires LiveLinked(g, constants) && Ordered(g, rank) && Diagram(g, p) && Operands(g, p, s)
    requires IsOps(g, Places(p)) && SidesPrivate(g, constants, p)
    requires q in g.node && t in g.node[q].outputs && SweptBy(g, constants, Places(p), q)
    ensures SweepReads(g, Places(p), t)
  {
    var i, u := SweptTensor(g, constants, Places(p), q);
    SweptWritesOne(g, rank, constants, p, s, i, u);
    SoleOutput(g, q, t);
    SoleOutput(g, q, u);
  }

  lemma SweptTensor(g: Graph, constants: set<Tensor>, n: seq<Op>, q: Op) returns (i: nat, u: Tensor)
    requires IsOps(g, n) && WritersAgree(g) && SweptBy(g, constants, n, q)
    ensures Sweeps(i) && u in g.node[n[i]].inputs && u !in constants && u in g.producer && g.producer[u] == q
    ensures q in g.ops && u in g.node[q].outputs && SweepReads(g, n, u)
  {
    i, u :| Sweeps(i) && u in g.node[n[i]].inputs && u !in constants && u in g.producer && g.producer[u] == q;
  }

  /** What an erased operation wrote is Add1's result, which the fused operation writes, an
      interior tensor or a swept one. */
  lemma GoneWriter(g: Graph, rank: Op -> nat, constants: set<Tensor>, a: Site, q: Op, t: Tensor)
    requires LiveLinked(g, constants) && Ordered(g, rank) && Diagram(g, a.p) && Operands(g, a.p, a.s)
    requires IsOps(g, Places(a.p)) && SidesPrivate(g, constants, a.p) && |g.node[a.p.add1].outputs| == 1
    requires q in g.ops && t in g.node[q].outputs && Gone(g, constants, Places(a.p), q)
    ensures t == Out(g, a.p.add1) || Interior(g, a.p, t) || SweepReads(g, Places(a.p), t)
  {
    if q in Places(a.p) {
      PlaceWriter(g, rank, constants, a.p, a.s, q, t);
    } else {
      SweptWriter(g, rank, constants, a.p, a.s, q, t);
    }
  }

  /** Nobody who stays reads an interior or a swept tensor. */
  lemma GoneReaders(g: Graph, constants: set<Tensor>, a: Site, x: Op, t: Tensor)
    requires LiveLinked(g, constants) && Diagram(g, a.p) && IsOps(g, Places(a.p)) && SidesPrivate(g, constants, a.p)
    requires x in g.ops && t in g.node[x].inputs && t !in constants
    requires Interior(g, a.p, t) || SweepReads(g, Places(a.p), t)
    ensures x in Places(a.p)
  {
    assert x in ConsumersOf(g, t);
    if Interior(g, a.p, t) {
      InteriorIsUnshared(g, a.p, t, x);
    } else {
      var i: nat :| Sweeps(i) && t in g.node[Places(a.p)[i]].inputs;
      SweptIsUnshared(g, constants, a.p, i, t, x);
    }
  }

  lemma MeanFirst(g: Graph, constants: set<Tensor>, rank: Op -> nat, p: Pattern, y: Op)
    requires LiveLinked(g, constants) && Ordered(g, rank) && Diagram(g, p) && y in Places(p)
    ensures y in g.ops && rank(p.mean0) <= rank(y)
  {
    PlaceCases(p, y);
    RanksIncrease(g, constants, rank, p);
  }

  /** No place writes what Mean0 reads. */
  lemma SourceOutside(g: Graph, rank: Op -> nat, constants: set<Tensor>, p: Pattern, s: Tensor, y: Op)
    requires LiveLinked(g, constants) && Ordered(g, rank) && Diagram(g, p) && s in g.node[p.mean0].inputs
    requires y in Places(p) && y in g.node
    ensures s !in g.node[y].outputs
  {
    MeanFirst(g, constants, rank, p, y);
  }

  lemma SourceNotInterior(g: Graph, rank: Op -> nat, constants: set<Tensor>, p: Pattern, s: Tensor)
    requires LiveLinked(g, constants) && Ordered(g, rank) && Diagram(g, p) && s in g.node[p.mean0].inputs
    ensures s != Out(g, p.add1) && !Interior(g, p, s)
  {
    hide LiveLinked; hide Ordered;
    PlacesListed(p);
    SourceOutside(g, rank, constants, p, s, p.add1);
    assert Out(g, p.add1) in g.node[p.add1].outputs;
    if Interior(g, p, s) {
      var y :| y in Places(p) && y != p.add1 && y in g.node && g.node[y].outputs != [] && s == Out(g, y);
      SourceOutside(g, rank, constants, p, s, y);
    }
  }

  lemma SweptWriterGone(g: Graph, constants: set<Tensor>, n: seq<Op>, q: Op, t: Tensor)
    requires IsOps(g, n) && LiveLinked(g, constants) && q in g.ops && t in g.node[q].outputs && SweepReads(g, n, t)
    ensures Gone(g, constants, n, q)
  {
    WriterIs(g, q, t);
  }

  /** The writer of the source goes exactly when a sweeping place reads the source as well. */
  lemma SourceWriterGone(g: Graph, rank: Op -> nat, constants: set<Tensor>, a: Site, q: Op)
    requires LiveLinked(g, constants) && Ordered(g, rank) && Diagram(g, a.p) && Operands(g, a.p, a.s)
    requires IsOps(g, Places(a.p)) && SidesPrivate(g, constants, a.p) && |g.node[a.p.add1].outputs| == 1
    requires a.s in g.node[a.p.mean0].inputs && q in g.ops && a.s in g.node[q].outputs
    ensures Gone(g, constants, Places(a.p), q) <==> SweepReads(g, Places(a.p), a.s)
  {
    SourceNotInterior(g, rank, constants, a.p, a.s);
    if SweepReads(g, Places(a.p), a.s) {
      SweptWriterGone(g, constants, Places(a.p), q, a.s);
    } else if Gone(g, constants, Places(a.p), q) {
      GoneWriter(g, rank, constants, a, q, a.s);
    }
  }

  /** After the step the source has its writer exactly if no sweeping place reads it. */
  lemma SourceKeptExactlyWhen(g: Graph, rank: Op -> nat, constants: set<Tensor>, a: Site)
    requires Matched(g, rank, constants, a) && a.s in g.node[a.p.mean0].inputs && Written(g, a.s)
    ensures HasNodes(After(g, constants, a))
    ensures Written(After(g, constants, a), a.s) <==> !SweepReads(g, Places(a.p), a.s)
  {
    StepReplaces(g, rank, constants, a);
    SourceNotInterior(g, rank, constants, a.p, a.s);
    SourceWriterGone(g, rank, constants, a, WriterOf(g, a.s));
    WriterStays(g, After(g, constants, a), constants, a, WriterOf(g, a.s), a.s);
  }

  /** A tensor other than the result has the writer it had, or none. */
  lemma WriterStays(g: Graph, h: Graph, constants: set<Tensor>, a: Site, q: Op, t: Tensor)
    requires Replaced(g, h, constants, a) && SingleWriter(g) && q in g.ops && t in g.node[q].outputs && t != Out(g, a.p.add1)
    ensures Written(h, t) <==> !Gone(g, constants, Places(a.p), q)
  {
    if !Gone(g, constants, Places(a.p), q) {
      assert q in h.ops && t in h.node[q].outputs;
    }
  }

  lemma ResultWritten(g: Graph, h: Graph, constants: set<Tensor>, a: Site)
    requires Replaced(g, h, constants, a)
    ensures Written(h, Out(g, a.p.add1))
  {
    assert a.op in h.ops && Out(g, a.p.add1) in h.node[a.op].outputs;
  }

  /** What an operation that stays reads is written by one that stays, or by Add1. */
  lemma LiveWriterStays(g: Graph, rank: Op -> nat, constants: set<Tensor>, a: Site, x: Op, q: Op, t: Tensor)
    requires LiveLinked(g, constants) && Ordered(g, rank) && Diagram(g, a.p) && Operands(g, a.p, a.s)
    requires IsOps(g, Places(a.p)) && SidesPrivate(g, constants, a.p) && |g.node[a.p.add1].outputs| == 1
    requires x in g.ops && !Gone(g, constants, Places(a.p), x) && t in g.node[x].inputs
    requires q in g.ops && t in g.node[q].outputs && t != Out(g, a.p.add1)
    ensures !Gone(g, constants, Places(a.p), q)
  {
    if Gone(g, constants, Places(a.p), q) {
      GoneWriter(g, rank, constants, a, q, t);
      GoneReaders(g, constants, a, x, t);
    }
  }

  /** Whatever a live operation other than the fused one reads keeps its writer. */
  lemma LiveInputWritten(g: Graph, h: Graph, rank: Op -> nat, constants: set<Tensor>, a: Site, x: Op, t: Tensor)
    requires Matched(g, rank, constants, a) && Replaced(g, h, constants, a)
    requires x in h.ops && x != a.op && t in h.node[x].inputs && Written(g, t)
    ensures Written(h, t)
  {
    if t == Out(g, a.p.add1) {
      ResultWritten(g, h, constants, a);
    } else {
      LiveWriterStays(g, rank, constants, a, x, WriterOf(g, t), t);
      WriterStays(g, h, constants, a, WriterOf(g, t), t);
    }
  }

  /** The source is not swept, if anybody writes it. */
  ghost predicate SourceStays(g: Graph, a: Site) {
    IsOps(g, Places(a.p)) && (Written(g, a.s) ==> !SweepReads(g, Places(a.p), a.s))
  }

  /** Whatever a live operation reads keeps its writer, the new parameters aside. */
  lemma InputStillWritten(g: Graph, rank: Op -> nat, constants: set<Tensor>, a: Site, x: Op, t: Tensor)
    requires Matched(g, rank, constants, a) && a.s in g.node[a.p.mean0].inputs && SourceStays(g, a)
    requires HasNodes(After(g, constants, a)) && x in After(g, constants, a).ops && t in After(g, constants, a).node[x].inputs
    requires t != a.beta && t != a.gamma && Written(g, t)
    ensures Written(After(g, constants, a), t)
  {
    StepReplaces(g, rank, constants, a);
    if x == a.op {
      SourceKeptExactlyWhen(g, rank, constants, a);
    } else {
      LiveInputWritten(g, After(g, constants, a), rank, constants, a, x, t);
    }
  }

  // ---- the fused graph computes what the old one did ----

  /** w has v's values for what the new graph reads and nobody wrote before the step. */
  ghost predicate SameBefore(g: Graph, h: Graph, v: Valuation, w: Valuation, a: Site)
    requires HasNodes(g) && HasNodes(h)
  {
    forall x, t: Tensor | x in h.ops && t in h.node[x].inputs && !Written(g, t) && t != a.beta && t != a.gamma :: w(t) == v(t)
  }

  /** w solves the graph after the step, from the same sources and with the parameters passed. */
  ghost predicate Continues(g: Graph, m: Machine, v: Valuation, w: Valuation, data: Constants, a: Site) {
    && IsOps(g, Places(a.p)) && Recorded(g, data, a) && HasNodes(After(g, data.Keys, a))
    && Solves(After(g, data.Keys, a), NewMachine(g, m, data, a), w)
    && ParametersPassed(g, data, w, a) && SameBefore(g, After(g, data.Keys, a), v, w, a)
  }

  /** Every tensor a live operation reads or writes, the new parameters aside, has in w the
      value it had in v. */
  ghost predicate Kept(h: Graph, v: Valuation, w: Valuation, a: Site)
    requires HasNodes(h)
  {
    forall x, t: Tensor | x in h.ops && (t in h.node[x].inputs || t in h.node[x].outputs) && t != a.beta && t != a.gamma :: w(t) == v(t)
  }

  lemma SourcesAgree(g: Graph, rank: Op -> nat, v: Valuation, w: Valuation, constants: set<Tensor>, a: Site)
    requires Matched(g, rank, constants, a) && a.s in g.node[a.p.mean0].inputs && SourceStays(g, a)
    requires HasNodes(After(g, constants, a)) && SameBefore(g, After(g, constants, a), v, w, a)
    ensures SameSources(After(g, constants, a), Patched(v, w, a), w)
  {
    var h := After(g, constants, a);
    forall x, t: Tensor | x in h.ops && t in h.node[x].inputs && !Written(h, t) ensures Patched(v, w, a)(t) == w(t) {
      if t != a.beta && t != a.gamma && Written(g, t) {
        InputStillWritten(g, rank, constants, a, x, t);
      }
    }
  }

  /** A fusion step keeps meaning, if the source keeps its writer: with the same values for
      what nobody wrote in the old graph, every tensor of the new one has its old value. */
  lemma FusionPreservesMeaning(g: Graph, m: Machine, v: Valuation, w: Valuation, rank: Op -> nat, data: Constants, a: Site)
    requires Matched(g, rank, data.Keys, a) && Supported(g, m, v, data, a) && AxesAgree(a.shape, a.axes) && SourceStays(g, a)
    requires Continues(g, m, v, w, data, a)
    ensures Kept(After(g, data.Keys, a), v, w, a)
  {
    OldValuesSolve(g, m, v, w, rank, data, a);
    AfterOrdered(g, rank, data.Keys, a);
    SourcesAgree(g, rank, v, w, data.Keys, a);
    AllDetermined(After(g, data.Keys, a), NewMachine(g, m, data, a), FusedRank(rank, a), v, w, a);
  }

  lemma AllDetermined(h: Graph, m: Machine, rank: Op -> nat, v: Valuation, w: Valuation, a: Site)
    requires HasNodes(h) && Ordered(h, rank) && Solves(h, m, Patched(v, w, a)) && Solves(h, m, w)
    requires SameSources(h, Patched(v, w, a), w)
    ensures Kept(h, v, w, a)
  {
    forall x, t: Tensor | x in h.ops && (t in h.node[x].inputs || t in h.node[x].outputs) && t != a.beta && t != a.gamma
      ensures w(t) == v(t)
    {
      Determined(h, m, rank, Patched(v, w, a), w, x);
    }
  }

  // ---- and otherwise it does not ----

  /** The new parameter with the old buffer, if that has the size the new shape asks for. */
  function Reshaped(p: Data, full: Shape, d: nat): (q: Data)
    requires d < |full|
    ensures Passed(p, q, full, d) && (NowhereZero(p) ==> NowhereZero(q))
  {
    var shape := ParameterShape(full, d);
    if Size(shape) == |p.flat| then Dense(shape, p.flat) else Ones(shape)
  }

  function Another(x: Data): (y: Data)
    ensures y != x
  {
    if x.shape == [] then Zeros([1]) else Zeros([])
  }

  /** The old values, the new parameters passed, and x for the source. */
  function Disturbed(v: Valuation, data: Constants, a: Site, x: Data): Valuation
    requires AxesFit(|a.shape|, a.axes) && a.side.beta in data && a.side.gamma in data
  {
    var d := NewDim(|a.shape|, a.axes);
    (t: Tensor) => if t == a.beta then Reshaped(data[a.side.beta], a.shape, d)
                   else if t == a.gamma then Reshaped(data[a.side.gamma], a.shape, d)
                   else if t == a.s then x else v(t)
  }

  lemma OtherProduces(m: Machine, o: Op, param: Param, x: Op, n: Node)
    requires x != o && ProducesAt(m, x, n)
    ensures ProducesAt(m.(param := m.param[o := param]), x, n)
  {
    var m' := m.(param := m.param[o := param]);
    forall xs: seq<Data> | |xs| == |n.inputs| ensures |OpValue(m', x, n.kind, xs)| == |n.outputs| {
      assert OpValue(m', x, n.kind, xs) == OpValue(m, x, n.kind, xs);
    }
  }

  lemma FusedProduces(m: Machine, o: Op, rank: nat, axes: seq<nat>, eps: real, ins: seq<Tensor>, t: Tensor)
    requires AxesFit(rank, axes) && |ins| == 3
    ensures ProducesAt(m.(param := m.param[o := FusedParam(rank, axes, eps)]), o, Node(FusedKind(axes), ins, [t]))
  {
  }

  lemma ReplacedProduces(g: Graph, h: Graph, m: Machine, data: Constants, a: Site)
    requires Recorded(g, data, a) && Replaced(g, h, data.Keys, a) && Produces(g, m)
    ensures Produces(h, NewMachine(g, m, data, a))
  {
    FusedProduces(m, a.op, |a.shape|, a.axes, Epsilon(g, data, a), [a.s, a.beta, a.gamma], Out(g, a.p.add1));
    forall x | x in h.ops && x != a.op ensures ProducesAt(NewMachine(g, m, data, a), x, h.node[x]) {
      OtherProduces(m, a.op, FusedParam(|a.shape|, a.axes, Epsilon(g, data, a)), x, g.node[x]);
    }
  }

  /** Nobody writes after the step what nobody wrote before. */
  lemma NothingNewWritten(g: Graph, h: Graph, constants: set<Tensor>, a: Site, t: Tensor)
    requires Replaced(g, h, constants, a) && Written(h, t)
    ensures Written(g, t)
  {
    var x := WriterOf(h, t);
    if x == a.op {
      assert t in g.node[a.p.add1].outputs;
    } else {
      assert t in g.node[x].outputs;
    }
  }

  lemma DisturbedPasses(g: Graph, v: Valuation, w: Valuation, data: Constants, a: Site, x: Data)
    requires Recorded(g, data, a) && a.beta != a.gamma
    requires w(a.beta) == Disturbed(v, data, a, x)(a.beta) && w(a.gamma) == Disturbed(v, data, a, x)(a.gamma)
    ensures PassesReshaped(g, data, w, a) && ParametersPassed(g, data, w, a)
  {
    ReshapedPasses(g, data, w, a);
  }

  predicate PassesReshaped(g: Graph, data: Constants, w: Valuation, a: Site)
    requires Recorded(g, data, a)
  {
    && w(a.beta) == Reshaped(data[a.side.beta], a.shape, NewDim(|a.shape|, a.axes))
    && w(a.gamma) == Reshaped(data[a.side.gamma], a.shape, NewDim(|a.shape|, a.axes))
  }

  lemma ReshapedPasses(g: Graph, data: Constants, w: Valuation, a: Site)
    requires Recorded(g, data, a) && PassesReshaped(g, data, w, a)
    ensures ParametersPassed(g, data, w, a)
  {
  }

  lemma DisturbedSame(g: Graph, h: Graph, v: Valuation, w: Valuation, data: Constants, a: Site, x: Data)
    requires HasNodes(g) && AxesFit(|a.shape|, a.axes) && a.side.beta in data && a.side.gamma in data
    requires Replaced(g, h, data.Keys, a) && (Written(g, a.s) || x == v(a.s))
    requires forall t: Tensor | !Written(h, t) :: w(t) == Disturbed(v, data, a, x)(t)
    ensures SameBefore(g, h, v, w, a)
  {
    forall y, t: Tensor | y in h.ops && t in h.node[y].inputs && !Written(g, t) && t != a.beta && t != a.gamma
      ensures w(t) == v(t)
    {
      if Written(h, t) { NothingNewWritten(g, h, data.Keys, a, t); }
    }
  }

  lemma DisturbedContinues(g: Graph, h: Graph, v: Valuation, w: Valuation, data: Constants, a: Site, x: Data)
    requires HasNodes(g) && Recorded(g, data, a) && Replaced(g, h, data.Keys, a) && NewHandles(g, data.Keys, a)
    requires a.s != a.beta && a.s != a.gamma && Unwritten(h, data.Keys + {a.beta, a.gamma}) && (Written(g, a.s) || x == v(a.s))
    requires forall t: Tensor | !Written(h, t) :: w(t) == Disturbed(v, data, a, x)(t)
    ensures PassesReshaped(g, data, w, a) && ParametersPassed(g, data, w, a) && SameBefore(g, h, v, w, a)
    ensures Written(h, a.s) || w(a.s) == x
  {
    assert !Written(h, a.beta) && !Written(h, a.gamma);
    DisturbedPasses(g, v, w, data, a, x);
    DisturbedSame(g, h, v, w, data, a, x);
  }

  /** The graph after a step has a solution with v's sources and the parameters passed; if the
      source has lost its writer, any value will do for it. */
  lemma Continuation(g: Graph, m: Machine, v: Valuation, rank: Op -> nat, data: Constants, a: Site, x: Data) returns (w: Valuation)
    requires Matched(g, rank, data.Keys, a) && g.node[a.p.mean0].inputs == [a.s] && Recorded(g, data, a) && Produces(g, m)
    requires Written(g, a.s) || x == v(a.s)
    ensures Continues(g, m, v, w, data, a) && PassesReshaped(g, data, w, a)
    ensures Written(After(g, data.Keys, a), a.s) || w(a.s) == x
  {
    StepReplaces(g, rank, data.Keys, a);
    AfterOrdered(g, rank, data.Keys, a);
    StepKeepsLinks(g, rank, data.Keys, a);
    SiteTensors(g, data.Keys, a);
    w := Evaluated(g, After(g, data.Keys, a), m, v, FusedRank(rank, a), data, a, x);
  }

  lemma Evaluated(g: Graph, h: Graph, m: Machine, v: Valuation, rank: Op -> nat, data: Constants, a: Site, x: Data) returns (w: Valuation)
    requires Replaced(g, h, data.Keys, a) && NewHandles(g, data.Keys, a) && Recorded(g, data, a) && Produces(g, m)
    requires WritersAgree(h) && Ordered(h, rank) && Unwritten(h, data.Keys + {a.beta, a.gamma})
    requires a.s != a.beta && a.s != a.gamma && (Written(g, a.s) || x == v(a.s))
    ensures Solves(h, NewMachine(g, m, data, a), w)
    ensures PassesReshaped(g, data, w, a) && ParametersPassed(g, data, w, a) && SameBefore(g, h, v, w, a)
    ensures Written(h, a.s) || w(a.s) == x
  {
    ReplacedProduces(g, h, m, data, a);
    w := Computed(h, NewMachine(g, m, data, a), rank, Disturbed(v, data, a, x));
    Solvable(h, NewMachine(g, m, data, a), rank, Disturbed(v, data, a, x));
    DisturbedContinues(g, h, v, w, data, a, x);
  }

  /** If the source loses its writer, the new graph has a solution with another value there. */
  lemma LostSourceBreaks(g: Graph, m: Machine, v: Valuation, rank: Op -> nat, data: Constants, a: Site) returns (w: Valuation)
    requires Matched(g, rank, data.Keys, a) && g.node[a.p.mean0].inputs == [a.s] && Recorded(g, data, a) && Produces(g, m)
    requires !SourceStays(g, a)
    ensures Continues(g, m, v, w, data, a) && !Kept(After(g, data.Keys, a), v, w, a)
  {
    SourceKeptExactlyWhen(g, rank, data.Keys, a);
    w := Continuation(g, m, v, rank, data, a, Another(v(a.s)));
    StepReplaces(g, rank, data.Keys, a);
    SiteTensors(g, data.Keys, a);
    DisturbedBreaks(g, After(g, data.Keys, a), v, w, data.Keys, a);
  }

  lemma DisturbedBreaks(g: Graph, h: Graph, v: Valuation, w: Valuation, constants: set<Tensor>, a: Site)
    requires Replaced(g, h, constants, a) && w(a.s) != v(a.s) && a.s != a.beta && a.s != a.gamma
    ensures !Kept(h, v, w, a)
  {
    assert a.op in h.ops && a.s in h.node[a.op].inputs;
  }

  /** A fusion step keeps the meaning of the graph, whatever solves the new one, exactly when
      the source keeps its writer. */
  lemma MeaningKeptExactlyWhen(g: Graph, m: Machine, v: Valuation, rank: Op -> nat, data: Constants, a: Site)
    requires Matched(g, rank, data.Keys, a) && Supported(g, m, v, data, a) && AxesAgree(a.shape, a.axes) && Produces(g, m)
    ensures HasNodes(After(g, data.Keys, a))
    ensures (forall w: Valuation | Continues(g, m, v, w, data, a) :: Kept(After(g, data.Keys, a), v, w, a)) <==> SourceStays(g, a)
  {
    StepReplaces(g, rank, data.Keys, a);
    if SourceStays(g, a) {
      forall w: Valuation | Continues(g, m, v, w, data, a) ensures Kept(After(g, data.Keys, a), v, w, a) {
        FusionPreservesMeaning(g, m, v, w, rank, data, a);
      }
    } else {
      var w := LostSourceBreaks(g, m, v, rank, data, a);
    }
  }

  lemma LayerValue(m: Machine, o: Op, axes: seq<nat>, eps: real, x: Data, beta: Data, gamma: Data)
    requires |axes| == 1 && axes[0] < |x.shape|
    ensures OpValue(m.(param := m.param[o := FusedParam(|x.shape|, axes, eps)]), o, FusedKind(axes), [x, beta, gamma])
            == [Normalized(m.k.rsqrt, x, beta, gamma, eps, Reduced(x.shape, {Reversed(|x.shape|, axes[0])}))]
  {
  }

  lemma OnlyResult(m: Machine, w: Valuation, o: Op, kind: int, x: Tensor, y: Tensor, z: Tensor, t: Tensor)
    requires OpHolds(m, w, o, Node(kind, [x, y, z], [t]))
    ensures [w(t)] == OpValue(m, o, kind, [w(x), w(y), w(z)])
  {
    assert All(w, [x, y, z]) == [w(x), w(y), w(z)];
    assert All(w, [t]) == [w(t)];
  }

  /** What the fused layer normalisation computes in any solution of the graph after a step. */
  lemma FusedValue(g: Graph, h: Graph, m: Machine, w: Valuation, data: Constants, a: Site)
    requires Recorded(g, data, a) && Replaced(g, h, data.Keys, a) && |a.axes| == 1 && w(a.s).shape == a.shape
    requires Solves(h, NewMachine(g, m, data, a), w)
    ensures w(Out(g, a.p.add1))
            == Normalized(m.k.rsqrt, w(a.s), w(a.beta), w(a.gamma), Epsilon(g, data, a),
                          Reduced(a.shape, {Reversed(|a.shape|, a.axes[0])}))
  {
    assert OpHolds(NewMachine(g, m, data, a), w, a.op, h.node[a.op]);
    OnlyResult(NewMachine(g, m, data, a), w, a.op, FusedKind(a.axes), a.s, a.beta, a.gamma, Out(g, a.p.add1));
    LayerValue(m, a.op, a.axes, Epsilon(g, data, a), w(a.s), w(a.beta), w(a.gamma));
  }

  // ---- the result, whatever dimension is averaged ----

  ghost predicate LiveInputsWritten(g: Graph, h: Graph, a: Site)
    requires HasNodes(g) && HasNodes(h)
  {
    forall x, t: Tensor | x in h.ops && x != a.op && t in h.node[x].inputs && Written(g, t) :: Written(h, t)
  }

  lemma AllLiveInputsWritten(g: Graph, h: Graph, rank: Op -> nat, constants: set<Tensor>, a: Site)
    requires Matched(g, rank, constants, a) && Replaced(g, h, constants, a)
    ensures LiveInputsWritten(g, h, a)
  {
    forall x, t: Tensor | x in h.ops && x != a.op && t in h.node[x].inputs && Written(g, t) ensures Written(h, t) {
      LiveInputWritten(g, h, rank, constants, a, x, t);
    }
  }

  /** What is computed before Add1's place is computed as before. */
  lemma {:induction false} UpstreamKept(g: Graph, h: Graph, m: Machine, v: Valuation, w: Valuation, rank: Op -> nat,
                                        data: Constants, a: Site, x: Op)
    requires HasNodes(g) && Ordered(g, rank) && Replaced(g, h, data.Keys, a) && Recorded(g, data, a) && NewHandles(g, data.Keys, a)
    requires LiveInputsWritten(g, h, a)
    requires Solves(g, m, v) && Solves(h, NewMachine(g, m, data, a), w) && SameBefore(g, h, v, w, a)
    requires x in h.ops && x != a.op && rank(x) < rank(a.p.add1)
    ensures forall t | t in g.node[x].inputs || t in g.node[x].outputs :: w(t) == v(t)
    decreases rank(x)
  {
    var n := g.node[x];
    forall t | t in n.inputs ensures w(t) == v(t) {
      if Written(h, t) {
        var q := WriterOf(h, t);
        UpstreamWriter(g, h, rank, data.Keys, a, x, q, t);
        UpstreamKept(g, h, m, v, w, rank, data, a, q);
      }
    }
    SameAll(w, v, n.inputs);
    StayingHolds(g, h, m, w, data, a, x);
    assert OpHolds(m, v, x, n);
    SameAll(w, v, n.outputs);
  }

  lemma UpstreamWriter(g: Graph, h: Graph, rank: Op -> nat, constants: set<Tensor>, a: Site, x: Op, q: Op, t: Tensor)
    requires HasNodes(g) && Ordered(g, rank) && Replaced(g, h, constants, a) && x in h.ops && x != a.op && rank(x) <= rank(a.p.add1)
    requires t in g.node[x].inputs && q in h.ops && t in h.node[q].outputs
    ensures q != a.op && q in g.ops && t in g.node[q].outputs && rank(q) < rank(x)
  {
    var q' := if q == a.op then a.p.add1 else q;
    assert q' in g.ops && t in g.node[q'].outputs;
    assert rank(q') < rank(x);
  }

  /** The source keeps its value, if it keeps its writer. */
  lemma SourceValue(g: Graph, m: Machine, v: Valuation, w: Valuation, rank: Op -> nat, data: Constants, a: Site)
    requires Matched(g, rank, data.Keys, a) && g.node[a.p.mean0].inputs == [a.s] && Solves(g, m, v) && SourceStays(g, a)
    requires Continues(g, m, v, w, data, a)
    ensures w(a.s) == v(a.s)
  {
    var h := After(g, data.Keys, a);
    StepReplaces(g, rank, data.Keys, a);
    if Written(g, a.s) {
      SourceKeptExactlyWhen(g, rank, data.Keys, a);
      SourceNotInterior(g, rank, data.Keys, a.p, a.s);
      RanksIncrease(g, data.Keys, rank, a.p);
      SourceWriter(g, h, rank, data.Keys, a);
      AllLiveInputsWritten(g, h, rank, data.Keys, a);
      UpstreamKept(g, h, m, v, w, rank, data, a, WriterOf(h, a.s));
    } else {
      SiteTensors(g, data.Keys, a);
      assert a.op in h.ops && a.s in h.node[a.op].inputs;
    }
  }

  lemma SourceWriter(g: Graph, h: Graph, rank: Op -> nat, constants: set<Tensor>, a: Site)
    requires HasNodes(g) && Ordered(g, rank) && Replaced(g, h, constants, a) && Written(h, a.s) && a.s != Out(g, a.p.add1)
    requires a.p.mean0 in g.ops && a.s in g.node[a.p.mean0].inputs && rank(a.p.mean0) < rank(a.p.add1)
    ensures var q := WriterOf(h, a.s);
            q != a.op && q in g.ops && a.s in g.node[q].outputs && rank(q) < rank(a.p.add1)
  {
  }

  /** The result of a layer normalisation put in place, from x. */
  function LayerResult(g: Graph, m: Machine, data: Constants, a: Site, x: Data, beta: Data, gamma: Data): Data
    requires Recorded(g, data, a) && |a.axes| == 1 && x.shape == a.shape
  {
    Normalized(m.k.rsqrt, x, beta, gamma, Epsilon(g, data, a), Reduced(a.shape, {Reversed(|a.shape|, a.axes[0])}))
  }

  /** The graph after a step, evaluated: from v's value of the source, or from any value if the
      source has lost its writer. */
  lemma LayerContinuation(g: Graph, m: Machine, v: Valuation, rank: Op -> nat, data: Constants, a: Site, x: Data) returns (w: Valuation)
    requires Matched(g, rank, data.Keys, a) && g.node[a.p.mean0].inputs == [a.s] && Recorded(g, data, a) && Produces(g, m)
    requires Solves(g, m, v) && |a.axes| == 1 && x.shape == a.shape && (SourceStays(g, a) ==> x == v(a.s))
    ensures Continues(g, m, v, w, data, a)
    ensures var d := NewDim(|a.shape|, a.axes);
            w(Out(g, a.p.add1)) == LayerResult(g, m, data, a, x, Reshaped(data[a.side.beta], a.shape, d), Reshaped(data[a.side.gamma], a.shape, d))
  {
    w := Continuation(g, m, v, rank, data, a, x);
    StepReplaces(g, rank, data.Keys, a);
    if SourceStays(g, a) {
      SourceValue(g, m, v, w, rank, data, a);
    } else {
      SourceKeptExactlyWhen(g, rank, data.Keys, a);
    }
    FusedValue(g, After(g, data.Keys, a), m, w, data, a);
  }

  /** If the layer normalisation of the source is not the pattern's, some solution of the new
      graph has another result. */
  lemma LayerBreaks(g: Graph, m: Machine, v: Valuation, rank: Op -> nat, data: Constants, a: Site) returns (w: Valuation)
    requires Matched(g, rank, data.Keys, a) && Supported(g, m, v, data, a) && Produces(g, m) && |a.axes| == 1
    requires var d := NewDim(|a.shape|, a.axes);
             LayerResult(g, m, data, a, v(a.s), Reshaped(data[a.side.beta], a.shape, d), Reshaped(data[a.side.gamma], a.shape, d))
             != Normalized(m.k.rsqrt, v(a.s), data[a.side.beta], data[a.side.gamma], Epsilon(g, data, a),
                           Reduced(a.shape, AxisSet(a.axes)))
    ensures Continues(g, m, v, w, data, a) && w(Out(g, a.p.add1)) != v(Out(g, a.p.add1))
  {
    SiteNormalizes(g, m, v, rank, data, a);
    w := LayerContinuation(g, m, v, rank, data, a, v(a.s));
  }

  /** If the source loses its writer and two values for it normalise differently, some solution
      of the new graph has another result. */
  lemma LostSourceChanges(g: Graph, m: Machine, v: Valuation, rank: Op -> nat, data: Constants, a: Site, x: Data, y: Data)
    returns (w: Valuation)
    requires Matched(g, rank, data.Keys, a) && Supported(g, m, v, data, a) && Produces(g, m) && |a.axes| == 1 && !SourceStays(g, a)
    requires x.shape == y.shape == a.shape
    requires var d := NewDim(|a.shape|, a.axes);
             LayerResult(g, m, data, a, x, Reshaped(data[a.side.beta], a.shape, d), Reshaped(data[a.side.gamma], a.shape, d))
             != LayerResult(g, m, data, a, y, Reshaped(data[a.side.beta], a.shape, d), Reshaped(data[a.side.gamma], a.shape, d))
    ensures Continues(g, m, v, w, data, a) && w(Out(g, a.p.add1)) != v(Out(g, a.p.add1))
  {
    var w0 := LayerContinuation(g, m, v, rank, data, a, x);
    var w1 := LayerContinuation(g, m, v, rank, data, a, y);
    w := if w0(Out(g, a.p.add1)) != v(Out(g, a.p.add1)) then w0 else w1;
  }

  /** The result is among what a step keeps. */
  lemma ResultKept(g: Graph, m: Machine, v: Valuation, w: Valuation, rank: Op -> nat, data: Constants, a: Site)
    requires Matched(g, rank, data.Keys, a) && Supported(g, m, v, data, a) && AxesAgree(a.shape, a.axes) && SourceStays(g, a)
    requires Continues(g, m, v, w, data, a)
    ensures w(Out(g, a.p.add1)) == v(Out(g, a.p.add1))
  {
    FusionPreservesMeaning(g, m, v, w, rank, data, a);
    StepReplaces(g, rank, data.Keys, a);
    SiteTensors(g, data.Keys, a);
    ResultBound(g, After(g, data.Keys, a), data.Keys, a);
  }

  lemma ResultBound(g: Graph, h: Graph, constants: set<Tensor>, a: Site)
    requires Replaced(g, h, constants, a)
    ensures a.op in h.ops && Out(g, a.p.add1) in h.node[a.op].outputs
  {
  }

  // ---- a step that connects another tensor ----

  lemma CutOutAnySource(g: Graph, constants: set<Tensor>, a: Site, l: Links, s: Tensor)
    requires CutOut(g, constants, a, l)
    ensures CutOut(g, constants, a.(s := s), l)
  {
  }

  lemma AfterIsFused(g: Graph, constants: set<Tensor>, a: Site, l: Links)
    requires IsOps(g, Places(a.p)) && RemoveAll(g, constants, Places(a.p)) == Done(l)
    ensures a.p.add1 in g.node && g.node[a.p.add1].outputs != [] && After(g, constants, a) == Fused(g, l, a)
  {
    Add1Bound(g, a.p);
  }

  /** The removal does not look at the source, so the same graph results with another tensor
      connected in its place. */
  lemma Reconnected(g: Graph, rank: Op -> nat, constants: set<Tensor>, a: Site, s: Tensor)
    requires Matched(g, rank, constants, a)
    ensures Replaced(g, After(g, constants, a.(s := s)), constants, a.(s := s))
    ensures LiveLinked(After(g, constants, a.(s := s)), constants + {a.beta, a.gamma})
  {
    var l := SiteRemoved(g, rank, constants, a);
    CutOutAnySource(g, constants, a, l, s);
    AfterIsFused(g, constants, a.(s := s), l);
    FusedReplaces(g, constants, a.(s := s), l);
    LinksStay(g, constants, a.(s := s), l);
  }

  /** The graph that results can be evaluated. */
  lemma ReconnectedContinuation(g: Graph, m: Machine, v: Valuation, rank: Op -> nat, data: Constants, a: Site, s: Tensor)
    returns (w: Valuation)
    requires Matched(g, rank, data.Keys, a) && g.node[a.p.mean0].inputs == [s] && Recorded(g, data, a.(s := s)) && Produces(g, m)
    ensures Continues(g, m, v, w, data, a.(s := s))
  {
    var b := a.(s := s);
    Reconnected(g, rank, data.Keys, a, s);
    RanksIncrease(g, data.Keys, rank, a.p);
    SiteTensors(g, data.Keys, a);
    assert a.p.mean0 in g.ops && s in g.node[a.p.mean0].inputs;
    ReplacedOrdered(g, After(g, data.Keys, b), rank, data.Keys, b);
    w := Evaluated(g, After(g, data.Keys, b), m, v, FusedRank(rank, b), data, b, v(s));
  }

  /** What is computed from the tensor connected, if nobody writes it. */
  lemma ReconnectedValue(g: Graph, m: Machine, v: Valuation, w: Valuation, rank: Op -> nat, data: Constants, a: Site, s: Tensor)
    requires Matched(g, rank, data.Keys, a) && !Written(g, s) && s != a.beta && s != a.gamma
    requires |a.axes| == 1 && v(s).shape == a.shape && Continues(g, m, v, w, data, a.(s := s))
    ensures w(s) == v(s)
    ensures Recorded(g, data, a)
    ensures w(Out(g, a.p.add1)) == LayerResult(g, m, data, a, v(s), w(a.beta), w(a.gamma))
  {
    var b := a.(s := s);
    Reconnected(g, rank, data.Keys, a, s);
    var h := After(g, data.Keys, b);
    assert b.op in h.ops && s in h.node[b.op].inputs;
    FusedValue(g, h, m, w, data, b);
  }
}
