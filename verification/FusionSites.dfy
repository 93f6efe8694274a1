/** Several matches in one graph: fusing one leaves the others as they were, so that all of them
    can be fused one after another. */
module FusionSites {
  import opened GraphModel
  import opened FusionMatch
  import opened FusionRemove
  import opened TensorLayout
  import opened NormalizePattern
  import opened NormalizeAxes
  import opened FusionMeaning
  import opened FusionResult
  import opened FusionSound
  import opened FusionRun

  /** Fusing at a takes away no place of b, and creates other handles. */
  ghost predicate Spares(g: Graph, constants: set<Tensor>, a: Site, b: Site)
    requires IsOps(g, Places(a.p))
  {
    && (forall x | x in Places(b.p) :: !Gone(g, constants, Places(a.p), x))
    && b.op != a.op && a.beta != b.beta && a.beta != b.gamma && a.gamma != b.beta && a.gamma != b.gamma
  }

  // ---- the readers of other tensors ----

  /** The lists of readers after a step at a. */
  ghost predicate Relisted(g: Graph, h: Graph, constants: set<Tensor>, a: Site)
    requires IsOps(g, Places(a.p))
  {
    && (forall t: Tensor, x: Op | x in ConsumersOf(h, t) && x != a.op :: x in ConsumersOf(g, t))
    && (forall t: Tensor | a.op in ConsumersOf(h, t) :: t == a.s || t == a.beta || t == a.gamma)
    && (forall t: Tensor, x: Op | x in h.ops && x != a.op && t !in constants ::
          Count(ConsumersOf(h, t), x) == Count(ConsumersOf(g, t), x))
  }

  lemma StepRelists(g: Graph, rank: Op -> nat, constants: set<Tensor>, a: Site)
    requires Matched(g, rank, constants, a)
    ensures Relisted(g, After(g, constants, a), constants, a)
  {
    var l := SiteRemoved(g, rank, constants, a);
    FusedRelists(g, constants, a, l);
  }

  lemma FusedNames(g: Graph, constants: set<Tensor>, a: Site, l: Links, t: Tensor, x: Op)
    requires CutOut(g, constants, a, l) && x in ConsumersOf(Fused(g, l, a), t)
    ensures if x == a.op then t == a.s || t == a.beta || t == a.gamma else x in ConsumersOf(g, t)
  {
    FusedCount(l, g.node, a.op, FusedKind(a.axes), a.s, a.beta, a.gamma, Out(g, a.p.add1), x, t);
    assert a.op !in Readers(l, t);
  }

  lemma FusedRelists(g: Graph, constants: set<Tensor>, a: Site, l: Links)
    requires CutOut(g, constants, a, l)
    ensures Relisted(g, Fused(g, l, a), constants, a)
  {
    var h := Fused(g, l, a);
    forall t: Tensor, x: Op | x in ConsumersOf(h, t)
      ensures if x == a.op then t == a.s || t == a.beta || t == a.gamma else x in ConsumersOf(g, t)
    {
      FusedNames(g, constants, a, l, t, x);
    }
    forall t: Tensor, x: Op | x in h.ops && x != a.op && t !in constants
      ensures Count(ConsumersOf(h, t), x) == Count(ConsumersOf(g, t), x)
    {
      FusedListed(g, constants, a, l, x, t);
    }
  }

  /** A tensor that a step at a does not connect, and that is no constant. */
  ghost predicate Aside(constants: set<Tensor>, a: Site, t: Tensor) {
    t !in constants && t != a.s && t != a.beta && t != a.gamma
  }

  lemma OnlyOne(s: seq<Op>, y: Op)
    requires Count(s, y) == 1 && forall x | x in s :: x == y
    ensures s == [y]
  {
    forall x ensures multiset(s)[x] == multiset{y}[x] {
      assert x in s <==> x in multiset(s);
    }
    assert multiset(s) == multiset{y} && |multiset(s)| == |s|;
    assert s == [s[0]] && s[0] in s;
  }

  lemma FeedsStays(g: Graph, h: Graph, constants: set<Tensor>, a: Site, x: Op, y: Op)
    requires Replaced(g, h, constants, a) && Relisted(g, h, constants, a) && x in g.ops && Feeds(g, x, y)
    requires y in h.ops && y != a.op && Aside(constants, a, Out(g, x))
    ensures Feeds(h, x, y)
  {
    OnlyOne(ConsumersOf(h, Out(g, x)), y);
  }

  lemma FeedsTwoStays(g: Graph, h: Graph, constants: set<Tensor>, a: Site, x: Op, y: Op, z: Op)
    requires Replaced(g, h, constants, a) && Relisted(g, h, constants, a) && x in g.ops && FeedsTwo(g, x, y, z)
    requires y in h.ops && y != a.op && z in h.ops && z != a.op && Aside(constants, a, Out(g, x))
    ensures FeedsTwo(h, x, y, z)
  {
    var t := Out(g, x);
    forall o: Op ensures multiset(ConsumersOf(h, t))[o] == multiset(ConsumersOf(g, t))[o] {
      assert o in ConsumersOf(g, t) ==> o in multiset(ConsumersOf(g, t));
      assert o in ConsumersOf(h, t) ==> o != a.op && o in ConsumersOf(g, t);
      if o == y || o == z {
        assert Count(ConsumersOf(h, t), o) == Count(ConsumersOf(g, t), o);
      }
    }
  }

  // ---- another match stays one ----

  /** b is matched in g and spared by a step at a, which makes h. */
  ghost predicate Bystander(g: Graph, h: Graph, constants: set<Tensor>, a: Site, b: Site) {
    && Replaced(g, h, constants, a) && Relisted(g, h, constants, a) && LiveLinked(g, constants)
    && NewHandles(g, constants, a) && a.p.mean0 in g.ops && a.p.mean0 in Places(a.p) && a.s in g.node[a.p.mean0].inputs
    && Diagram(g, b.p) && IsOps(g, Places(b.p)) && Spares(g, constants, a, b)
  }

  lemma PlaceStays(g: Graph, h: Graph, constants: set<Tensor>, a: Site, b: Site, x: Op)
    requires Bystander(g, h, constants, a, b) && x in Places(b.p)
    ensures x in g.ops && x in h.ops && x != a.op && h.node[x] == g.node[x]
  {
    PlaceCases(b.p, x);
  }

  lemma InteriorNotSource(g: Graph, constants: set<Tensor>, a: Site, b: Site, x: Op)
    requires HasNodes(g) && ReadersAgree(g, constants) && Diagram(g, b.p)
    requires a.p.mean0 in g.ops && a.s in g.node[a.p.mean0].inputs && a.p.mean0 !in Places(b.p)
    requires x in Places(b.p) && x != b.p.add1 && x in g.node && g.node[x].outputs != [] && Out(g, x) !in constants
    ensures Out(g, x) != a.s
  {
    if Out(g, x) == a.s {
      assert a.p.mean0 in ConsumersOf(g, a.s);
      InteriorReaders(g, b.p, x, a.p.mean0);
    }
  }

  /** What a place of b other than Add1 writes is not touched. */
  lemma InteriorAside(g: Graph, h: Graph, constants: set<Tensor>, a: Site, b: Site, x: Op)
    requires Bystander(g, h, constants, a, b) && x in Places(b.p) && x != b.p.add1 && x in g.ops && g.node[x].outputs != []
    ensures Aside(constants, a, Out(g, x))
  {
    assert Out(g, x) in g.node[x].outputs;
    InteriorNotSource(g, constants, a, b, x);
  }

  lemma OtherFeeds(g: Graph, h: Graph, constants: set<Tensor>, a: Site, b: Site, x: Op, y: Op)
    requires Bystander(g, h, constants, a, b) && x in Places(b.p) && x != b.p.add1 && y in Places(b.p) && Feeds(g, x, y)
    requires g.node[x].outputs != []
    ensures Feeds(h, x, y)
  {
    PlaceStays(g, h, constants, a, b, x);
    PlaceStays(g, h, constants, a, b, y);
    InteriorAside(g, h, constants, a, b, x);
    FeedsStays(g, h, constants, a, x, y);
  }

  lemma OtherFeedsTwo(g: Graph, h: Graph, constants: set<Tensor>, a: Site, b: Site, x: Op, y: Op, z: Op)
    requires Bystander(g, h, constants, a, b) && x in Places(b.p) && x != b.p.add1 && y in Places(b.p) && z in Places(b.p)
    requires FeedsTwo(g, x, y, z) && g.node[x].outputs != []
    ensures FeedsTwo(h, x, y, z)
  {
    PlaceStays(g, h, constants, a, b, x);
    PlaceStays(g, h, constants, a, b, y);
    PlaceStays(g, h, constants, a, b, z);
    InteriorAside(g, h, constants, a, b, x);
    FeedsTwoStays(g, h, constants, a, x, y, z);
  }

  lemma OtherListed(g: Graph, h: Graph, constants: set<Tensor>, a: Site, b: Site, x: Op, kind: int)
    requires Bystander(g, h, constants, a, b) && x in Places(b.p) && Listed(g, x, kind)
    ensures Listed(h, x, kind) && Out(h, x) == Out(g, x)
  {
    PlaceStays(g, h, constants, a, b, x);
  }

  lemma OtherKinds(g: Graph, h: Graph, constants: set<Tensor>, a: Site, b: Site)
    requires Bystander(g, h, constants, a, b)
    ensures Kinds(h, b.p)
  {
    var p := b.p;
    PlacesListed(p);
    OtherListed(g, h, constants, a, b, p.mean0, REDUCE); OtherListed(g, h, constants, a, b, p.sub0, SUBTRACT);
    OtherListed(g, h, constants, a, b, p.mul2, MULTIPLY); OtherListed(g, h, constants, a, b, p.pow, POW);
    OtherListed(g, h, constants, a, b, p.mean1, REDUCE); OtherListed(g, h, constants, a, b, p.add0, ADD);
    OtherListed(g, h, constants, a, b, p.rsqrt, RSQRT); OtherListed(g, h, constants, a, b, p.mul0, MULTIPLY);
    OtherListed(g, h, constants, a, b, p.mul1, MULTIPLY); OtherListed(g, h, constants, a, b, p.add1, ADD);
    OtherListed(g, h, constants, a, b, p.sub1, SUBTRACT);
  }

  /** Add1 is told from the other places. */
  ghost predicate Add1Apart(p: Pattern) {
    forall i | 0 <= i < 11 && i != ADD_1 :: Places(p)[i] != p.add1
  }

  lemma OtherSpread(g: Graph, h: Graph, constants: set<Tensor>, a: Site, b: Site)
    requires Bystander(g, h, constants, a, b) && Add1Apart(b.p)
    ensures FeedsTwo(h, b.p.mean0, b.p.sub0, b.p.mul2) && Feeds(h, b.p.sub0, b.p.pow) && Feeds(h, b.p.pow, b.p.mean1)
    ensures Feeds(h, b.p.mean1, b.p.add0) && Feeds(h, b.p.add0, b.p.rsqrt)
  {
    var p, n := b.p, Places(b.p);
    PlacesListed(p);
    assert n[MEAN_0] != p.add1 && n[SUB_0] != p.add1 && n[POW_0] != p.add1 && n[MEAN_1] != p.add1 && n[ADD_0] != p.add1;
    OtherFeedsTwo(g, h, constants, a, b, p.mean0, p.sub0, p.mul2);
    OtherFeeds(g, h, constants, a, b, p.sub0, p.pow);
    OtherFeeds(g, h, constants, a, b, p.pow, p.mean1);
    OtherFeeds(g, h, constants, a, b, p.mean1, p.add0);
    OtherFeeds(g, h, constants, a, b, p.add0, p.rsqrt);
  }

  lemma OtherScale(g: Graph, h: Graph, constants: set<Tensor>, a: Site, b: Site)
    requires Bystander(g, h, constants, a, b) && Add1Apart(b.p)
    ensures Feeds(h, b.p.rsqrt, b.p.mul0) && FeedsTwo(h, b.p.mul0, b.p.mul1, b.p.mul2)
    ensures Feeds(h, b.p.mul1, b.p.add1) && Feeds(h, b.p.mul2, b.p.sub1) && Feeds(h, b.p.sub1, b.p.add1)
  {
    var p, n := b.p, Places(b.p);
    PlacesListed(p);
    assert n[RSQRT_0] != p.add1 && n[MUL_0] != p.add1 && n[MUL_1] != p.add1 && n[MUL_2] != p.add1 && n[SUB_1] != p.add1;
    OtherFeeds(g, h, constants, a, b, p.rsqrt, p.mul0);
    OtherFeedsTwo(g, h, constants, a, b, p.mul0, p.mul1, p.mul2);
    OtherFeeds(g, h, constants, a, b, p.mul1, p.add1);
    OtherFeeds(g, h, constants, a, b, p.mul2, p.sub1);
    OtherFeeds(g, h, constants, a, b, p.sub1, p.add1);
  }

  lemma OtherDiagram(g: Graph, h: Graph, constants: set<Tensor>, a: Site, b: Site)
    requires Bystander(g, h, constants, a, b) && Add1Apart(b.p)
    ensures Diagram(h, b.p)
  {
    OtherKinds(g, h, constants, a, b);
    OtherSpread(g, h, constants, a, b);
    OtherScale(g, h, constants, a, b);
    PlacesListed(b.p);
    PlaceStays(g, h, constants, a, b, b.p.sub0);
    PlaceStays(g, h, constants, a, b, b.p.mul1);
  }

  ghost predicate SameNodes(g: Graph, h: Graph, p: Pattern) {
    forall x | x in Places(p) :: x in g.node && x in h.node && h.node[x] == g.node[x]
  }

  lemma OtherNodes(g: Graph, h: Graph, constants: set<Tensor>, a: Site, b: Site)
    requires Bystander(g, h, constants, a, b)
    ensures SameNodes(g, h, b.p)
  {
    forall x | x in Places(b.p) ensures x in g.node && x in h.node && h.node[x] == g.node[x] { PlaceStays(g, h, constants, a, b, x); }
  }

  ghost predicate SameAt(g: Graph, h: Graph, o: Op) {
    o in g.node && o in h.node && h.node[o] == g.node[o]
  }

  lemma SameEach(g: Graph, h: Graph, p: Pattern)
    requires SameNodes(g, h, p)
    ensures SameAt(g, h, p.mean0) && SameAt(g, h, p.sub0) && SameAt(g, h, p.mul2) && SameAt(g, h, p.pow) && SameAt(g, h, p.mean1)
    ensures SameAt(g, h, p.add0) && SameAt(g, h, p.rsqrt) && SameAt(g, h, p.mul0) && SameAt(g, h, p.mul1) && SameAt(g, h, p.add1)
    ensures SameAt(g, h, p.sub1)
  {
    PlacesListed(p);
  }

  lemma SameOperands(g: Graph, h: Graph, p: Pattern, s: Tensor)
    requires Kinds(g, p) && Kinds(h, p) && SameNodes(g, h, p) && Operands(g, p, s)
    ensures Operands(h, p, s)
  {
    SameEach(g, h, p);
  }

  // ---- its sides ----

  lemma SameInterior(g: Graph, h: Graph, p: Pattern, t: Tensor)
    requires Kinds(g, p) && Kinds(h, p) && SameNodes(g, h, p)
    ensures Interior(h, p, t) <==> Interior(g, p, t)
  {
  }

  /** Whoever reads the tensor after the step read it before, unless the tensor is the source of
      a. */
  lemma ReadersStay(g: Graph, h: Graph, constants: set<Tensor>, a: Site, n: seq<Op>, t: Tensor)
    requires Replaced(g, h, constants, a) && Relisted(g, h, constants, a) && ReadersAgree(g, constants) && t !in constants
    requires a.p.mean0 in g.ops && a.s in g.node[a.p.mean0].inputs && a.p.mean0 !in n && t != a.beta && t != a.gamma
    requires forall x | x in g.ops && x in ConsumersOf(g, t) :: x in n
    ensures forall x | x in h.ops && x in ConsumersOf(h, t) :: x in n
  {
    assert t == a.s ==> a.p.mean0 in ConsumersOf(g, t);
  }

  /** A tensor only b reads is read by b only after the step, and made as before, unless it is
      the result of a, which then the fused operation makes. */
  lemma OtherSide(g: Graph, h: Graph, constants: set<Tensor>, a: Site, b: Site, t: Tensor)
    requires Bystander(g, h, constants, a, b) && SidePrivate(g, Places(b.p), t) && WritersAgree(h)
    requires t !in constants && t != a.beta && t != a.gamma
    ensures SidePrivate(h, Places(b.p), t)
  {
    MeanNotSpared(g, constants, a, b);
    ReadersStay(g, h, constants, a, Places(b.p), t);
    if t in h.producer { MadeAlone(g, h, constants, a, t); }
  }

  lemma MeanNotSpared(g: Graph, constants: set<Tensor>, a: Site, b: Site)
    requires IsOps(g, Places(a.p)) && a.p.mean0 in Places(a.p) && Spares(g, constants, a, b)
    ensures a.p.mean0 !in Places(b.p)
  {
  }

  lemma MadeAlone(g: Graph, h: Graph, constants: set<Tensor>, a: Site, t: Tensor)
    requires Replaced(g, h, constants, a) && WritersAgree(g) && WritersAgree(h) && t in h.producer
    ensures h.producer[t] in h.node
    ensures |h.node[h.producer[t]].outputs| == 1 || (t in g.producer && g.producer[t] == h.producer[t] && h.producer[t] in g.ops
                                                     && h.node[h.producer[t]] == g.node[h.producer[t]])
  {
    var q := h.producer[t];
    assert q in h.ops && t in h.node[q].outputs;
    if q != a.op { WriterIs(g, q, t); }
  }

  lemma OtherSides(g: Graph, h: Graph, constants: set<Tensor>, a: Site, b: Site)
    requires Bystander(g, h, constants, a, b) && SidesPrivate(g, constants, b.p) && WritersAgree(h) && Kinds(h, b.p)
    ensures SidesPrivate(h, constants + {a.beta, a.gamma}, b.p)
  {
    var n := Places(b.p);
    OtherNodes(g, h, constants, a, b);
    forall i: nat, t | Sweeps(i) && n[i] in h.node && t in h.node[n[i]].inputs && !Interior(h, b.p, t)
                       && t !in constants + {a.beta, a.gamma}
      ensures SidePrivate(h, n, t)
    {
      assert n[i] in n;
      SameInterior(g, h, b.p, t);
      OtherSide(g, h, constants, a, b, t);
    }
  }

  lemma StillUnbound(g: Graph, h: Graph, constants: set<Tensor>, a: Site, t: Tensor)
    requires HasNodes(g) && Replaced(g, h, constants, a) && Unbound(g, t) && t != a.s && t != a.beta && t != a.gamma
    ensures Unbound(h, t)
  {
    assert Out(g, a.p.add1) in g.node[a.p.add1].outputs;
  }

  lemma OtherHandles(g: Graph, h: Graph, constants: set<Tensor>, a: Site, b: Site)
    requires Replaced(g, h, constants, a) && a.p.mean0 in g.ops && a.s in g.node[a.p.mean0].inputs && Spares(g, constants, a, b)
    requires NewHandles(g, constants, b) && (forall x | x in h.node :: x in g.node || x == a.op)
    ensures NewHandles(h, constants + {a.beta, a.gamma}, b)
  {
    StillUnbound(g, h, constants, a, b.beta);
    StillUnbound(g, h, constants, a, b.gamma);
  }

  lemma OtherIsOps(g: Graph, h: Graph, constants: set<Tensor>, a: Site, b: Site)
    requires Bystander(g, h, constants, a, b)
    ensures IsOps(h, Places(b.p))
  {
    var n := Places(b.p);
    forall i | 0 <= i < 11 ensures n[i] in h.ops && h.node[n[i]].outputs != [] {
      assert n[i] in n;
      PlaceStays(g, h, constants, a, b, n[i]);
    }
  }

  // ---- the other site stays applicable ----

  lemma FusedNodes(g: Graph, rank: Op -> nat, constants: set<Tensor>, a: Site)
    requires Matched(g, rank, constants, a)
    ensures forall x | x in After(g, constants, a).node :: x in g.node || x == a.op
  {
    var l := SiteRemoved(g, rank, constants, a);
  }

  lemma SitesApart(g: Graph, rank: Op -> nat, constants: set<Tensor>, a: Site, b: Site)
    requires Matched(g, rank, constants, a) && Matched(g, rank, constants, b) && Spares(g, constants, a, b)
    requires a.s in g.node[a.p.mean0].inputs
    ensures Bystander(g, After(g, constants, a), constants, a, b) && Add1Apart(b.p)
  {
    StepReplaces(g, rank, constants, a);
    StepRelists(g, rank, constants, a);
    PlacesListed(a.p);
    Add1Alone(b.p);
  }

  lemma Add1Alone(p: Pattern)
    requires NoDuplicates(Places(p))
    ensures Add1Apart(p)
  {
    assert Places(p)[ADD_1] == p.add1;
  }

  /** The structure of b's match survives a step at a. */
  lemma OtherMatched(g: Graph, rank: Op -> nat, constants: set<Tensor>, a: Site, b: Site)
    requires Matched(g, rank, constants, a) && Matched(g, rank, constants, b) && Spares(g, constants, a, b)
    requires g.node[a.p.mean0].inputs == [a.s]
    ensures Matched(After(g, constants, a), FusedRank(rank, a), constants + {a.beta, a.gamma}, b)
    ensures SameNodes(g, After(g, constants, a), b.p)
  {
    var h := After(g, constants, a);
    SitesApart(g, rank, constants, a, b);
    StepKeepsLinks(g, rank, constants, a);
    AfterOrdered(g, rank, constants, a);
    FusedNodes(g, rank, constants, a);
    BystanderMatched(g, h, FusedRank(rank, a), constants, a, b);
  }

  lemma BystanderMatched(g: Graph, h: Graph, rank: Op -> nat, constants: set<Tensor>, a: Site, b: Site)
    requires Bystander(g, h, constants, a, b) && Add1Apart(b.p) && NoDuplicates(Places(b.p))
    requires Operands(g, b.p, b.s) && SidesPrivate(g, constants, b.p) && |g.node[b.p.add1].outputs| == 1 && NewHandles(g, constants, b)
    requires LiveLinked(h, constants + {a.beta, a.gamma}) && Ordered(h, rank) && forall x | x in h.node :: x in g.node || x == a.op
    ensures Matched(h, rank, constants + {a.beta, a.gamma}, b) && SameNodes(g, h, b.p)
  {
    OtherDiagram(g, h, constants, a, b);
    OtherNodes(g, h, constants, a, b);
    SameOperands(g, h, b.p, b.s);
    OtherSides(g, h, constants, a, b);
    OtherIsOps(g, h, constants, a, b);
    PlacesListed(b.p);
    OtherHandles(g, h, constants, a, b);
  }

  lemma SameSlots(g: Graph, h: Graph, p: Pattern, s: Tensor, side: SideInputs)
    requires Kinds(g, p) && Kinds(h, p) && SameNodes(g, h, p) && Slots(g, p, s, side)
    ensures Slots(h, p, s, side)
  {
    PlacesListed(p);
  }

  lemma SameParameters(m: Machine, o: Op, param: Param, p: Pattern, axes: seq<nat>)
    requires Parameters(m, p, axes) && o !in Places(p)
    ensures Parameters(m.(param := m.param[o := param]), p, axes)
  {
    PlacesListed(p);
  }

  // ---- what it takes for granted ----

  lemma WrittenBefore(g: Graph, h: Graph, constants: set<Tensor>, a: Site, t: Tensor)
    requires HasNodes(g) && Replaced(g, h, constants, a) && Written(h, t)
    ensures Written(g, t)
  {
    var q := WriterOf(h, t);
    var q' := if q == a.op then a.p.add1 else q;
    assert q' in g.ops && t in g.node[q'].outputs;
  }

  lemma OtherSourceStays(g: Graph, h: Graph, constants: set<Tensor>, a: Site, b: Site)
    requires HasNodes(g) && Replaced(g, h, constants, a) && SameNodes(g, h, b.p) && IsOps(h, Places(b.p)) && SourceStays(g, b)
    ensures SourceStays(h, b)
  {
    if Written(h, b.s) && SweepReads(h, Places(b.p), b.s) {
      var i: nat :| Sweeps(i) && b.s in h.node[Places(b.p)[i]].inputs;
      assert Places(b.p)[i] in Places(b.p);
      WrittenBefore(g, h, constants, a, b.s);
      assert SweepReads(g, Places(b.p), b.s);
    }
  }

  predicate SameProducer(g: Graph, h: Graph, t: Tensor) {
    && t in g.producer && t in h.producer && h.producer[t] == g.producer[t]
    && g.producer[t] in g.node && g.producer[t] in h.node && h.node[g.producer[t]] == g.node[g.producer[t]]
  }

  /** A tensor other than the result of a that is still written has the producer it had. */
  lemma ProducerStays(g: Graph, h: Graph, constants: set<Tensor>, a: Site, t: Tensor)
    requires WritersAgree(g) && WritersAgree(h) && Replaced(g, h, constants, a) && Written(h, t) && t != Out(g, a.p.add1)
    ensures SameProducer(g, h, t)
  {
    var q := WriterOf(h, t);
    WriterIs(h, q, t);
    WriterIs(g, q, t);
  }

  /** Epsilon is not read from a's result, whose producer reads no constant. */
  lemma EpsNotResult(g: Graph, constants: set<Tensor>, a: Site, t: Tensor)
    requires WritersAgree(g) && Unwritten(g, constants) && a.p.add1 in g.ops && g.node[a.p.add1].outputs != []
    requires forall u | u in g.node[a.p.add1].inputs :: u !in constants
    requires EpsSource(g, constants, t).Some? && EpsSource(g, constants, t).value in constants
    ensures t != Out(g, a.p.add1)
  {
    if t == Out(g, a.p.add1) {
      assert t in g.node[a.p.add1].outputs;
      WriterIs(g, a.p.add1, t);
    }
  }

  lemma SameEpsSource(g: Graph, h: Graph, constants: set<Tensor>, more: set<Tensor>, t: Tensor)
    requires t !in more && (t in constants || SameProducer(g, h, t))
    ensures EpsSource(h, constants + more, t) == EpsSource(g, constants, t)
  {
  }

  lemma EpsWritten(g: Graph, constants: set<Tensor>, t: Tensor)
    requires WritersAgree(g) && EpsSource(g, constants, t).Some? && t !in constants
    ensures Written(g, t)
  {
    assert g.producer[t] in g.ops && t in g.node[g.producer[t]].outputs;
  }

  lemma ResultReadsInside(g: Graph, constants: set<Tensor>, p: Pattern, s: Tensor)
    requires HasNodes(g) && Kinds(g, p) && Operands(g, p, s) && Unwritten(g, constants)
    ensures p.add1 in g.ops && g.node[p.add1].outputs != []
    ensures forall u | u in g.node[p.add1].inputs :: u !in constants
  {
    assert Out(g, p.mul1) in g.node[p.mul1].outputs && Out(g, p.sub1) in g.node[p.sub1].outputs;
    forall u | u in g.node[p.add1].inputs ensures u !in constants {
      assert u in multiset(g.node[p.add1].inputs);
    }
  }

  /** What b's places read is bound. */
  lemma SlotsBound(g: Graph, p: Pattern, s: Tensor, side: SideInputs, t: Tensor)
    requires HasNodes(g) && Kinds(g, p) && Slots(g, p, s, side) && Unbound(g, t)
    ensures t != s && t != side.exponent && t != side.eps && t != side.beta && t != side.gamma
  {
    assert g.node[p.mean0].inputs[0] == s;
    assert side.eps in multiset(g.node[p.add0].inputs);
  }

  lemma EpsRead(g: Graph, p: Pattern, s: Tensor, side: SideInputs)
    requires HasNodes(g) && Kinds(g, p) && Slots(g, p, s, side)
    ensures p.add0 in g.node && side.eps in g.node[p.add0].inputs
  {
    assert side.eps in multiset(g.node[p.add0].inputs);
  }

  /** New data and values that differ from the old ones at the new parameters only. */
  ghost predicate Extends(data: Constants, v: Valuation, data': Constants, v': Valuation, a: Site) {
    && data'.Keys == data.Keys + {a.beta, a.gamma}
    && (forall t | t in data && t != a.beta && t != a.gamma :: data'[t] == data[t])
    && (forall t: Tensor | t != a.beta && t != a.gamma :: v'(t) == v(t))
  }

  lemma StepExtends(st: Stage, a: Site)
    requires IsOps(st.g, Places(a.p)) && Recorded(st.g, st.data, a) && Holds(st.v, st.data) && a.beta != a.gamma
    ensures Extends(st.data, st.v, Step(st, a).data, Step(st, a).v, a)
  {
    NewValues(st, a);
  }

  lemma OtherRecorded(g: Graph, h: Graph, v: Valuation, v': Valuation, data: Constants, data': Constants, a: Site, b: Site)
    requires Extends(data, v, data', v', a) && Recorded(g, data, b) && a.beta !in data && a.gamma !in data
    requires EpsSource(h, data'.Keys, b.side.eps) == EpsSource(g, data.Keys, b.side.eps)
    ensures Recorded(h, data', b) && Epsilon(h, data', b) == Epsilon(g, data, b)
    ensures data'[b.side.beta] == data[b.side.beta] && data'[b.side.gamma] == data[b.side.gamma]
  {
    var u := EpsSource(g, data.Keys, b.side.eps).value;
    assert u != a.beta && u != a.gamma && data'[u] == data[u];
  }

  lemma SameValuesFit(g: Graph, h: Graph, v: Valuation, v': Valuation, data: Constants, data': Constants, b: Site)
    requires Recorded(g, data, b) && ValuesFit(g, v, data, b) && Recorded(h, data', b) && Epsilon(h, data', b) == Epsilon(g, data, b)
    requires data'[b.side.beta] == data[b.side.beta] && data'[b.side.gamma] == data[b.side.gamma]
    requires v'(b.s) == v(b.s) && v'(b.side.exponent) == v(b.side.exponent) && v'(b.side.eps) == v(b.side.eps)
    ensures ValuesFit(h, v', data', b)
  {
  }

  /** What b takes for granted still holds, given where its epsilon comes from. */
  lemma OtherFoldable(g: Graph, h: Graph, m: Machine, param: Param, v: Valuation, v': Valuation, data: Constants, data': Constants,
                      a: Site, b: Site)
    requires HasNodes(g) && Kinds(g, b.p) && Kinds(h, b.p) && SameNodes(g, h, b.p) && Foldable(g, m, v, data, b)
    requires Extends(data, v, data', v', a) && NewHandles(g, data.Keys, a) && a.op !in Places(b.p)
    requires EpsSource(h, data'.Keys, b.side.eps) == EpsSource(g, data.Keys, b.side.eps)
    ensures Foldable(h, m.(param := m.param[a.op := param]), v', data', b)
  {
    SameSlots(g, h, b.p, b.s, b.side);
    SameParameters(m, a.op, param, b.p, b.axes);
    SlotsBound(g, b.p, b.s, b.side, a.beta);
    SlotsBound(g, b.p, b.s, b.side, a.gamma);
    OtherRecorded(g, h, v, v', data, data', a, b);
    SameValuesFit(g, h, v, v', data, data', b);
  }

  lemma EpsStillWritten(g: Graph, rank: Op -> nat, constants: set<Tensor>, a: Site, b: Site)
    requires Matched(g, rank, constants, a) && a.s in g.node[a.p.mean0].inputs && SourceStays(g, a) && Kinds(g, b.p)
    requires Slots(g, b.p, b.s, b.side) && b.side.eps != a.beta && b.side.eps != a.gamma && HasNodes(After(g, constants, a))
    requires b.p.add0 in After(g, constants, a).ops && After(g, constants, a).node[b.p.add0] == g.node[b.p.add0]
    ensures Written(g, b.side.eps) ==> Written(After(g, constants, a), b.side.eps)
  {
    EpsRead(g, b.p, b.s, b.side);
    if Written(g, b.side.eps) { InputStillWritten(g, rank, constants, a, b.p.add0, b.side.eps); }
  }

  lemma EpsApart(g: Graph, rank: Op -> nat, constants: set<Tensor>, a: Site, t: Tensor)
    requires Matched(g, rank, constants, a) && EpsSource(g, constants, t).Some? && EpsSource(g, constants, t).value in constants
    ensures t != Out(g, a.p.add1)
  {
    ResultReadsInside(g, constants, a.p, a.s);
    EpsNotResult(g, constants, a, t);
  }

  lemma EpsProducerStays(g: Graph, rank: Op -> nat, constants: set<Tensor>, a: Site, t: Tensor)
    requires Matched(g, rank, constants, a) && HasNodes(After(g, constants, a)) && Written(After(g, constants, a), t)
    requires t != Out(g, a.p.add1)
    ensures SameProducer(g, After(g, constants, a), t)
  {
    StepReplaces(g, rank, constants, a);
    StepKeepsLinks(g, rank, constants, a);
    ProducerStays(g, After(g, constants, a), constants, a, t);
  }

  /** b's epsilon comes from where it came. */
  lemma OtherEpsilon(g: Graph, rank: Op -> nat, data: Constants, a: Site, b: Site)
    requires Matched(g, rank, data.Keys, a) && g.node[a.p.mean0].inputs == [a.s] && SourceStays(g, a) && Kinds(g, b.p)
    requires Slots(g, b.p, b.s, b.side) && Recorded(g, data, b) && HasNodes(After(g, data.Keys, a))
    requires b.p.add0 in After(g, data.Keys, a).ops && After(g, data.Keys, a).node[b.p.add0] == g.node[b.p.add0]
    ensures EpsSource(After(g, data.Keys, a), data.Keys + {a.beta, a.gamma}, b.side.eps) == EpsSource(g, data.Keys, b.side.eps)
  {
    SlotsBound(g, b.p, b.s, b.side, a.beta);
    SlotsBound(g, b.p, b.s, b.side, a.gamma);
    if b.side.eps !in data {
      EpsApart(g, rank, data.Keys, a, b.side.eps);
      EpsWritten(g, data.Keys, b.side.eps);
      EpsStillWritten(g, rank, data.Keys, a, b);
      EpsProducerStays(g, rank, data.Keys, a, b.side.eps);
    }
    SameEpsSource(g, After(g, data.Keys, a), data.Keys, {a.beta, a.gamma}, b.side.eps);
  }

  lemma OtherSupported(st: Stage, a: Site, b: Site)
    requires Sound(st) && Applicable(st, a) && Applicable(st, b)
    requires HasNodes(Step(st, a).g) && Kinds(Step(st, a).g, b.p) && SameNodes(st.g, Step(st, a).g, b.p)
    ensures Supported(Step(st, a).g, Step(st, a).m, Step(st, a).v, Step(st, a).data, b)
  {
    StepSound(st, a);
    StepExtends(st, a);
    PlacesListed(b.p);
    OtherEpsilon(st.g, st.rank, st.data, a, b);
    OtherFoldable(st.g, Step(st, a).g, st.m, FusedParam(|a.shape|, a.axes, Epsilon(st.g, st.data, a)), st.v, Step(st, a).v,
                  st.data, Step(st, a).data, a, b);
  }

  lemma OtherKeepsSource(st: Stage, a: Site, b: Site)
    requires Applicable(st, a) && SourceStays(st.g, b) && SameNodes(st.g, Step(st, a).g, b.p) && IsOps(Step(st, a).g, Places(b.p))
    ensures SourceStays(Step(st, a).g, b)
  {
    StepReplaces(st.g, st.rank, st.data.Keys, a);
    OtherSourceStays(st.g, Step(st, a).g, st.data.Keys, a, b);
  }

  /** A step at one site leaves a site it spares applicable. */
  lemma OtherApplicable(st: Stage, a: Site, b: Site)
    requires Sound(st) && Applicable(st, a) && Applicable(st, b) && Spares(st.g, st.data.Keys, a, b)
    ensures Applicable(Step(st, a), b) && SameNodes(st.g, Step(st, a).g, b.p)
  {
    OtherMatched(st.g, st.rank, st.data.Keys, a, b);
    StepExtends(st, a);
    OtherSupported(st, a, b);
    OtherKeepsSource(st, a, b);
  }

  // ---- any number of sites ----

  ghost predicate SparesAt(g: Graph, constants: set<Tensor>, a: Site, b: Site) {
    IsOps(g, Places(a.p)) && IsOps(g, Places(b.p)) && Spares(g, constants, a, b)
  }

  /** What b would take away after a step at a, it would have taken away before. */
  lemma SweptBefore(g: Graph, h: Graph, constants: set<Tensor>, more: set<Tensor>, b: Site, x: Op)
    requires WritersAgree(g) && WritersAgree(h) && IsOps(g, Places(b.p)) && IsOps(h, Places(b.p)) && SameNodes(g, h, b.p)
    requires x in g.ops && x in h.node && h.node[x] == g.node[x] && SweptBy(h, constants + more, Places(b.p), x)
    ensures SweptBy(g, constants, Places(b.p), x)
  {
    var i, t := SweptTensor(h, constants + more, Places(b.p), x);
    assert Places(b.p)[i] in Places(b.p);
    WriterIs(g, x, t);
  }

  lemma SparedNodes(g: Graph, h: Graph, constants: set<Tensor>, a: Site, b: Site)
    requires Replaced(g, h, constants, a) && SparesAt(g, constants, a, b)
    ensures IsOps(h, Places(b.p)) && SameNodes(g, h, b.p)
  {
    var n := Places(b.p);
    forall i | 0 <= i < 11 ensures n[i] in h.ops && h.node[n[i]].outputs != [] {
      assert n[i] in n;
    }
  }

  /** Sparing survives a step elsewhere. */
  lemma SparesStill(g: Graph, h: Graph, constants: set<Tensor>, a: Site, b: Site, c: Site)
    requires Replaced(g, h, constants, a) && WritersAgree(g) && WritersAgree(h)
    requires SparesAt(g, constants, a, b) && SparesAt(g, constants, a, c) && SparesAt(g, constants, b, c)
    ensures SparesAt(h, constants + {a.beta, a.gamma}, b, c)
  {
    SparedNodes(g, h, constants, a, b);
    SparedNodes(g, h, constants, a, c);
    forall x | x in Places(c.p) ensures !Gone(h, constants + {a.beta, a.gamma}, Places(b.p), x) {
      if SweptBy(h, constants + {a.beta, a.gamma}, Places(b.p), x) {
        SweptBefore(g, h, constants, {a.beta, a.gamma}, b, x);
      }
    }
  }

  /** A step at a takes nothing from the other sites. */
  ghost predicate SparesAll(g: Graph, constants: set<Tensor>, a: Site, sites: seq<Site>) {
    forall c | c in sites :: SparesAt(g, constants, a, c)
  }

  /** Every site can be fused in the first graph, and takes nothing from the ones after it. */
  ghost predicate AllApplicable(st: Stage, sites: seq<Site>) {
    && (forall c | c in sites :: Applicable(st, c))
    && AllSpare(st.g, st.data.Keys, sites)
  }

  ghost predicate AllSpare(g: Graph, constants: set<Tensor>, sites: seq<Site>) {
    sites == [] || (SparesAll(g, constants, sites[0], sites[1..]) && AllSpare(g, constants, sites[1..]))
  }

  lemma {:induction false} RestSpares(g: Graph, h: Graph, constants: set<Tensor>, a: Site, sites: seq<Site>)
    requires Replaced(g, h, constants, a) && WritersAgree(g) && WritersAgree(h)
    requires SparesAll(g, constants, a, sites) && AllSpare(g, constants, sites)
    ensures AllSpare(h, constants + {a.beta, a.gamma}, sites)
  {
    if sites != [] {
      forall c | c in sites[1..] ensures SparesAt(h, constants + {a.beta, a.gamma}, sites[0], c) {
        SparesStill(g, h, constants, a, sites[0], c);
      }
      RestSpares(g, h, constants, a, sites[1..]);
    }
  }

  lemma StepRestSpares(st: Stage, a: Site, sites: seq<Site>)
    requires Sound(st) && Applicable(st, a) && SparesAll(st.g, st.data.Keys, a, sites) && AllSpare(st.g, st.data.Keys, sites)
    ensures AllSpare(Step(st, a).g, Step(st, a).data.Keys, sites)
  {
    StepReplaces(st.g, st.rank, st.data.Keys, a);
    StepKeepsLinks(st.g, st.rank, st.data.Keys, a);
    StepExtends(st, a);
    RestSpares(st.g, After(st.g, st.data.Keys, a), st.data.Keys, a, sites);
  }

  lemma RestApplicable(st: Stage, a: Site, sites: seq<Site>)
    requires Sound(st) && Applicable(st, a) && SparesAll(st.g, st.data.Keys, a, sites) && AllApplicable(st, sites)
    ensures AllApplicable(Step(st, a), sites)
  {
    StepRestSpares(st, a, sites);
    forall c | c in sites ensures Applicable(Step(st, a), c) {
      assert SparesAt(st.g, st.data.Keys, a, c);
      OtherApplicable(st, a, c);
    }
  }

  /** Sites that spare one another can all be fused, whatever the steps before did. */
  lemma {:induction false} SitesRun(st: Stage, sites: seq<Site>)
    requires Sound(st) && AllApplicable(st, sites)
    ensures Run(st, sites)
    decreases |sites|
  {
    if sites != [] {
      StepSound(st, sites[0]);
      RestApplicable(st, sites[0], sites[1..]);
      SitesRun(Step(st, sites[0]), sites[1..]);
    }
  }

  /** What is left once all sites are fused. */
  ghost function AllFused(st: Stage, sites: seq<Site>): (end: Stage)
    requires Sound(st) && AllApplicable(st, sites)
    ensures Run(st, sites) && end == End(st, sites) && Sound(end)
  {
    SitesRun(st, sites);
    RunSound(st, sites);
    End(st, sites)
  }

  /** So fusing them all keeps what the first graph computes: the conditions concern the first
      graph alone. */
  lemma SitesPreserveMeaning(st: Stage, sites: seq<Site>, w: Valuation, x: Op, t: Tensor)
    requires Sound(st) && AllApplicable(st, sites)
    requires Solves(AllFused(st, sites).g, AllFused(st, sites).m, w) && Holds(w, AllFused(st, sites).data)
    requires forall u: Tensor | IsRead(st.g, u) && !Written(st.g, u) && u !in st.data :: w(u) == st.v(u)
    requires x in AllFused(st, sites).g.ops
    requires t in AllFused(st, sites).g.node[x].inputs || t in AllFused(st, sites).g.node[x].outputs
    ensures t in AllFused(st, sites).data || w(t) == st.v(t)
  {
    RunPreservesMeaning(st, sites, w, x, t);
  }
}
