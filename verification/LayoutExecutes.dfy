/** Layout inference preserves meaning: the graph it builds can be evaluated, and whatever solves
    it has the source's values in the tensors handed to the caller. */
module LayoutExecutes {
  import opened GraphModel
  import opened Permutations
  import opened TensorLayout
  import opened LayoutWorklist
  import opened LayoutHandlers
  import opened LayoutWrites
  import opened LayoutRun
  import opened LayoutOutputs
  import opened LayoutMeaning
  import opened LayoutPhases
  import opened LayoutStarts
  import opened LayoutSound

  // ---- any handler that carries values ----

  /** The contract a handler has to meet on values.  If everything emitted so far is right and
      whatever has a layout stands in it, the inputs of the operation among them, this is so
      after the operation is handled, for its outputs as well, and the graph outputs it writes
      are written to their own tensors. */
  ghost predicate CarriesValues(x: Setting, given: map<Tensor, Permute>, h: Handler<Emit>, c: Context<Emit>, done: set<Op>, o: Op)
    requires HasNodes(x.net.s.g) && o in x.net.s.g.node
  {
    forall plan | SoundAt(x, given, c, done, plan) && AllReadable(x.(raw := RawOf(x.net, given, done)), WorkOf(c), x.net.s.g.node[o].inputs) ::
      Sound(x, given, Handle(h, c, o).0, done + {o})
  }

  ghost predicate CarriesAt(x: Setting, given: map<Tensor, Permute>, h: Handler<Emit>, c: Context<Emit>, ops: seq<Op>, i: nat)
    requires HasNodes(x.net.s.g) && i < |ops|
  {
    ops[i] in x.net.s.g.node && CarriesValues(x, given, h, Replay(h, c, ops[..i]), Before(ops, i), ops[i])
  }

  /** The contract is met whenever the run handles an operation. */
  ghost predicate CarriesAlong(x: Setting, given: map<Tensor, Permute>, h: Handler<Emit>, c: Context<Emit>, ops: seq<Op>)
    requires HasNodes(x.net.s.g)
  {
    forall i | 0 <= i < |ops| :: CarriesAt(x, given, h, c, ops, i)
  }

  /** Graph outputs that are read before they are written start in the aligned layout. */
  ghost predicate ReadsAligned(net: Network, given: map<Tensor, Permute>, ops: seq<Op>)
    requires HasNodes(net.s.g)
  {
    forall i | 0 <= i < |ops| :: ReadsWell(net, given, Before(ops, i), ops[i])
  }

  /** Graph outputs that are read are written. */
  ghost predicate ReadsWritten(s: Source, ops: seq<Op>)
    requires HasNodes(s.g)
  {
    forall t, o | t in s.outputs && o in ops && o in s.g.node && t in s.g.node[o].inputs :: WrittenBy(s, Before(ops, |ops|), t)
  }

  lemma WithinUsed(x: Setting, ops: seq<Op>, i: nat)
    requires i < |ops| && x.used == UsedBy(x.net.s.g, ops) && Rising(x.net.s.g, x.tier, ops)
    requires ops[i] in x.net.s.g.node && Apart(x.net.s.g.node[ops[i]])
    ensures Within(x, x.net.s.g.node[ops[i]])
  {
    var n := x.net.s.g.node[ops[i]];
    forall t | t in n.inputs || t in n.outputs ensures t in x.used { assert t in TensorsOf(x.net.s.g, ops[i]); }
  }

  lemma CarriedOn(x: Setting, given: map<Tensor, Permute>, h: Handler<Emit>, c: Context<Emit>, ops: seq<Op>, i: nat)
    requires Usable(x.net) && Played(x.net.s, h, c, ops) && CarriesAlong(x, given, h, c, ops) && ReadsAligned(x.net, given, ops)
    requires x.used == UsedBy(x.net.s.g, ops) && Rising(x.net.s.g, x.tier, ops) && i < |ops|
    requires Sound(x, given, Replay(h, c, ops[..i]), Before(ops, i))
    ensures Sound(x, given, Replay(h, c, ops[..i + 1]), Before(ops, i + 1))
  {
    var d, o := Replay(h, c, ops[..i]), ops[i];
    assert PlayedAt(x.net.s, h, c, ops, i) && CarriesAt(x, given, h, c, ops, i);
    WithinUsed(x, ops, i);
    InputsReadable(x, given, d, Before(ops, i), o);
    BeforeMore(ops, i + 1);
    assert ops[..i + 1][..i] == ops[..i];
    var plan :| SoundAt(x, given, d, Before(ops, i), plan);
  }

  lemma {:induction false} CarriedAll(x: Setting, given: map<Tensor, Permute>, h: Handler<Emit>, c: Context<Emit>, ops: seq<Op>, i: nat)
    requires Usable(x.net) && Played(x.net.s, h, c, ops) && CarriesAlong(x, given, h, c, ops) && ReadsAligned(x.net, given, ops)
    requires x.used == UsedBy(x.net.s.g, ops) && Rising(x.net.s.g, x.tier, ops) && i <= |ops| && Sound(x, given, c, {})
    ensures Sound(x, given, Replay(h, c, ops[..i]), Before(ops, i))
  {
    if i == 0 {
      assert Before(ops, 0) == {} && ops[..0] == [];
    } else {
      CarriedAll(x, given, h, c, ops, i - 1);
      CarriedOn(x, given, h, c, ops, i - 1);
    }
  }

  /** The caller feeds every input of the new graph with the source's value in the layout
      asked for. */
  ghost predicate InputsFed(net: Network, v: Values, w: NewValues, given: map<Tensor, Permute>, c: Context<Emit>) {
    forall t | t in c.inputMap :: w(c.inputMap[t]) == Laid(v(t), InitialLayout(net, given, t))
  }

  lemma FedMeans(x: Setting, given: map<Tensor, Permute>, c: Context<Emit>, w: NewValues)
    requires Ends(x.net, x.v, given, c, x.start)
    ensures InputsFed(x.net, x.v, w, given, c) <==> FedAsMeant(x, c, w)
    ensures forall m | m in c.inputMap.Values :: m in x.start
  {
    forall t | t in c.inputMap ensures c.inputMap[t] in c.inputMap.Values { }
  }

  lemma UsedWritten(x: Setting, given: map<Tensor, Permute>, c: Context<Emit>, ops: seq<Op>, plan: Plan, t: Tensor)
    requires HasNodes(x.net.s.g) && SoundAt(x, given, c, Before(ops, |ops|), plan) && ReadsWritten(x.net.s, ops)
    requires x.used == UsedBy(x.net.s.g, ops) && t in x.own && t in x.used && t in x.net.s.outputs && forall o | o in ops :: o in x.net.s.g.ops
    ensures OwnWritten(c, t)
  {
    var o :| o in ops && t in TensorsOf(x.net.s.g, o);
    assert ops[..|ops|] == ops && o in Before(ops, |ops|);
  }

  /** The pass with any handler. */
  function Outcome(net: Network, given: map<Tensor, Permute>, h: Handler<Emit>): Context<Emit>
    requires WellLinked(net.s)
  {
    SetUpStarts(net, given);
    Drain(net.s, h, SetUp(net, given), QueueOf(net.s))
  }

  /** The handler meets its contract along the run, whatever the plan it starts with; graph outputs
      that are read before they are written start aligned, and are written; and tiers rise. */
  ghost predicate Carried(net: Network, sem: Semantics, v: Values, given: map<Tensor, Permute>, tier: Tensor -> nat, h: Handler<Emit>)
    requires WellLinked(net.s)
  {
    var c, ops := SetUp(net, given), Outcome(net, given, h).order;
    && (forall start: Plan :: CarriesAlong(SettingOf(net, sem, v, tier, c, ops, start), given, h, c, ops))
    && ReadsAligned(net, given, ops) && ReadsWritten(net.s, ops) && Rising(net.s.g, tier, ops)
  }

  lemma OutcomePlayed(net: Network, given: map<Tensor, Permute>, h: Handler<Emit>)
    requires WellLinked(net.s)
    ensures var c, c0 := Outcome(net, given, h), SetUp(net, given);
            && c == Replay(h, c0, c.order) && Played(net.s, h, c0, c.order)
            && c.inputMap == c0.inputMap && c.outputMap == c0.outputMap && forall o | o in c.order :: o in net.s.g.ops
  {
    SetUpStarts(net, given);
    RunReplays(net.s, h, SetUp(net, given), QueueOf(net.s));
    var ops := Outcome(net, given, h).order;
    ReplayFrame(h, SetUp(net, given), ops);
    forall o | o in ops ensures o in net.s.g.ops {
      var i :| 0 <= i < |ops| && ops[i] == o;
      assert PlayedAt(net.s, h, SetUp(net, given), ops, i);
    }
  }

  lemma ConcludedSound(net: Network, sem: Semantics, v: Values, given: map<Tensor, Permute>, tier: Tensor -> nat, h: Handler<Emit>, start: Plan)
    requires Usable(net) && Carried(net, sem, v, given, tier, h)
    requires Sound(SettingOf(net, sem, v, tier, SetUp(net, given), Outcome(net, given, h).order, start), given, SetUp(net, given), {})
    ensures var c := Outcome(net, given, h);
            Sound(SettingOf(net, sem, v, tier, SetUp(net, given), c.order, start), given, c, Before(c.order, |c.order|))
  {
    var c := Outcome(net, given, h);
    OutcomePlayed(net, given, h);
    CarriedAll(SettingOf(net, sem, v, tier, SetUp(net, given), c.order, start), given, h, SetUp(net, given), c.order, |c.order|);
    assert c.order[..|c.order|] == c.order;
  }

  /** In the end the plan accounts for the new graph, and what operations use is written. */
  lemma Concluded(net: Network, sem: Semantics, v: Values, given: map<Tensor, Permute>, tier: Tensor -> nat, h: Handler<Emit>)
    returns (x: Setting, plan: Plan)
    requires Regular(net) && Layouts(net, v, given) && Carried(net, sem, v, given, tier, h)
    ensures var c := Outcome(net, given, h);
            && x.net == net && x.sem == sem && x.v == v && x.tier == tier && Settled(x, c, plan) && Ends(net, v, given, c, x.start)
            && SoundAt(x, given, c, Before(c.order, |c.order|), plan)
  {
    var c0, c := SetUp(net, given), Outcome(net, given, h);
    var start := SetUpSound(net, sem, v, given, tier, c.order);
    x := SettingOf(net, sem, v, tier, c0, c.order, start);
    OutcomePlayed(net, given, h);
    ConcludedSound(net, sem, v, given, tier, h, start);
    plan :| SoundAt(x, given, c, Before(c.order, |c.order|), plan);
    SetUpOrderly(net, given);
    ConcludedSettled(x, given, c, plan);
  }

  lemma ConcludedSettled(x: Setting, given: map<Tensor, Permute>, c: Context<Emit>, plan: Plan)
    requires HasNodes(x.net.s.g) && SoundAt(x, given, c, Before(c.order, |c.order|), plan) && ReadsWritten(x.net.s, c.order)
    requires x.used == UsedBy(x.net.s.g, c.order) && x.loose == c.inputMap.Values + c.outputMap.Values
    requires Owners(x.net, x.own) && (forall o | o in c.order :: o in x.net.s.g.ops)
    ensures Settled(x, c, plan)
  {
    PlannedRaw(x.(raw := RawOf(x.net, given, Before(c.order, |c.order|))), WorkOf(c), plan, x.raw);
    forall t | t in x.own && t in x.used ensures OwnWritten(c, t) { UsedWritten(x, given, c, c.order, plan, t); }
  }

  /** Meaning is preserved whatever the handler, as long as it carries values: in every solution of
      the new graph fed with the source's inputs, the tensor returned for a graph output that some
      operation handled writes has exactly the source's value. */
  lemma AnyHandlerPreserves(net: Network, sem: Semantics, v: Values, w: NewValues, given: map<Tensor, Permute>, tier: Tensor -> nat, h: Handler<Emit>)
    requires Regular(net) && Layouts(net, v, given) && Carried(net, sem, v, given, tier, h)
    requires Satisfies(sem, w, Outcome(net, given, h).infer.emitted) && InputsFed(net, v, w, given, Outcome(net, given, h))
    ensures var c := Outcome(net, given, h);
            forall t | t in net.s.outputs && WrittenBy(net.s, Before(c.order, |c.order|), t) :: t in IoMap(c) && w(IoMap(c)[t]) == v(t)
  {
    var c := Outcome(net, given, h);
    var x, plan := Concluded(net, sem, v, given, tier, h);
    FedMeans(x, given, c, w);
    forall t | t in net.s.outputs && WrittenBy(net.s, Before(c.order, |c.order|), t) ensures t in IoMap(c) && w(IoMap(c)[t]) == v(t) {
      assert OwnWritten(c, t) && Owned(x, plan, t);
      Determined(x, c, plan, w, c.outputMap[t]);
      TransposeIdentity(v(t));
    }
  }

  /** And the new graph can be evaluated from the inputs. */
  lemma AnyHandlerSolvable(net: Network, sem: Semantics, v: Values, given: map<Tensor, Permute>, tier: Tensor -> nat, h: Handler<Emit>)
    returns (w: NewValues, level: Mapped -> nat)
    requires Regular(net) && Layouts(net, v, given) && Carried(net, sem, v, given, tier, h)
    ensures Satisfies(sem, w, Outcome(net, given, h).infer.emitted) && InputsFed(net, v, w, given, Outcome(net, given, h))
    ensures Acyclic(Outcome(net, given, h), level)
  {
    var c := Outcome(net, given, h);
    var x, plan := Concluded(net, sem, v, given, tier, h);
    w := Intended(v, plan);
    FedMeans(x, given, c, w);
    IntendedSatisfies(x, c, plan);
    level := SettledAcyclic(x, c, plan);
  }

  // ---- the five families ----

  /** Every graph output an operation writes is kept by it, those read before they are written
      start in the aligned layout, and those read are written. */
  ghost predicate Faithful(net: Network, given: map<Tensor, Permute>)
    requires WellLinked(net.s)
  {
    && AllKept(net, PassTrace(net, given), Order(net, given)) && ReadsAligned(net, given, Order(net, given))
    && ReadsWritten(net.s, Order(net, given))
  }

  lemma FamilyCarries(x: Setting, given: map<Tensor, Permute>, c: Context<Emit>, c': Context<Emit>, ops: seq<Op>, i: nat)
    requires Regular(x.net) && Solved(x) && i < |ops| && Running(x.net, c) && Step(x.net, c, ops[i], c') && KeepsAll(x.net, c, ops[i])
    requires x.used == UsedBy(x.net.s.g, ops) && Rising(x.net.s.g, x.tier, ops)
    ensures CarriesValues(x, given, HandlerFor(x.net), c, Before(ops, i), ops[i])
  {
    var o, done := ops[i], Before(ops, i);
    WithinUsed(x, ops, i);
    forall plan | SoundAt(x, given, c, done, plan) && AllReadable(x.(raw := RawOf(x.net, given, done)), WorkOf(c), x.net.s.g.node[o].inputs)
      ensures Sound(x, given, c', done + {o})
    {
      HandleSound(x, given, c, done, o, c', plan);
    }
  }

  lemma FamiliesCarry(x: Setting, given: map<Tensor, Permute>)
    requires Regular(x.net) && Solved(x) && AllKept(x.net, PassTrace(x.net, given), Order(x.net, given))
    requires x.used == UsedBy(x.net.s.g, Order(x.net, given)) && Rising(x.net.s.g, x.tier, Order(x.net, given))
    ensures CarriesAlong(x, given, HandlerFor(x.net), SetUp(x.net, given), Order(x.net, given))
  {
    var net, trace, ops := x.net, PassTrace(x.net, given), Order(x.net, given);
    PassRuns(net, given);
    SetUpRunning(net, given);
    forall i | 0 <= i < |ops| ensures CarriesAt(x, given, HandlerFor(net), SetUp(net, given), ops, i) {
      RunRunning(net, trace, ops, i);
      assert Step(net, trace[i], ops[i], trace[i + 1]) && KeepsAll(net, trace[i], ops[i]);
      FamilyCarries(x, given, trace[i], trace[i + 1], ops, i);
    }
  }

  /** A graph whose equations the source's values solve is regular. */
  lemma SolvedRegular(net: Network, sem: Semantics, v: Values)
    requires Usable(net) && Solves(net, sem, v) && forall t | t in net.plainOutputs :: t in net.s.outputs
    ensures Regular(net)
  {
    forall o | o in net.s.g.ops ensures RegularAt(net, o, net.s.g.node[o]) { assert OpMeans(net, sem, v, o, net.s.g.node[o]); }
  }

  /** What the theorems start from: a usable graph with its values and the caller's layouts, and
      tiers that rise along the operations handled. */
  ghost predicate Given(net: Network, sem: Semantics, v: Values, given: map<Tensor, Permute>, tier: Tensor -> nat) {
    && Usable(net) && Solves(net, sem, v) && LayoutsGiven(net, v, given) && (forall t | t in net.plainOutputs :: t in net.s.outputs)
    && Rising(net.s.g, tier, Order(net, given))
  }

  lemma FaithfulCarried(net: Network, sem: Semantics, v: Values, given: map<Tensor, Permute>, tier: Tensor -> nat)
    requires Given(net, sem, v, given, tier) && Faithful(net, given)
    ensures Regular(net) && Layouts(net, v, given) && Carried(net, sem, v, given, tier, HandlerFor(net))
    ensures Outcome(net, given, HandlerFor(net)) == InferLayout(net, given)
  {
    SolvedRegular(net, sem, v);
    var c, ops := SetUp(net, given), Order(net, given);
    forall start: Plan ensures CarriesAlong(SettingOf(net, sem, v, tier, c, ops, start), given, HandlerFor(net), c, ops) {
      FamiliesCarry(SettingOf(net, sem, v, tier, c, ops, start), given);
    }
  }

  /** Meaning is preserved: for every solution v of the source graph and every solution w of the new
      graph fed with the same inputs, each graph output that some handled operation writes has, in
      the new graph, exactly its value in the source graph. */
  lemma MeaningPreserved(net: Network, sem: Semantics, v: Values, w: NewValues, given: map<Tensor, Permute>, tier: Tensor -> nat)
    requires Given(net, sem, v, given, tier) && Faithful(net, given)
    requires Satisfies(sem, w, InferLayout(net, given).infer.emitted) && InputsFed(net, v, w, given, InferLayout(net, given))
    ensures var c := InferLayout(net, given);
            forall t | t in net.s.outputs && WrittenBy(net.s, HandledOps(net.s, c), t) :: t in IoMap(c) && w(IoMap(c)[t]) == v(t)
  {
    FaithfulCarried(net, sem, v, given, tier);
    AnyHandlerPreserves(net, sem, v, w, given, tier, HandlerFor(net));
    PassRuns(net, given);
    RunFrame(net, PassTrace(net, given), Order(net, given), |Order(net, given)|);
  }

  /** The new graph can be evaluated: no tensor is written twice, what is read is fed or written, in
      an order without cycles, and there are values that satisfy every operation with the inputs
      fed in their layouts. */
  lemma NewGraphSolvable(net: Network, sem: Semantics, v: Values, given: map<Tensor, Permute>, tier: Tensor -> nat)
    returns (w: NewValues, level: Mapped -> nat)
    requires Given(net, sem, v, given, tier) && Faithful(net, given)
    ensures Satisfies(sem, w, InferLayout(net, given).infer.emitted) && InputsFed(net, v, w, given, InferLayout(net, given))
    ensures Acyclic(InferLayout(net, given), level)
    ensures SingleWriter(net.s.g) ==> NoDuplicates(Dsts(InferLayout(net, given).infer.emitted))
  {
    FaithfulCarried(net, sem, v, given, tier);
    w, level := AnyHandlerSolvable(net, sem, v, given, tier, HandlerFor(net));
    if SingleWriter(net.s.g) { WrittenOnce(net, given); }
  }

  // ---- complete graphs ----

  /** On an acyclic graph all of whose operations can be handled. */
  ghost predicate Complete(net: Network, rank: Op -> nat)
    requires HasNodes(net.s.g)
  {
    && Ordered(net.s.g, rank) && SingleWriter(net.s.g) && (forall o | o in net.s.g.ops :: net.s.g.node[o].kind != -1 && Fed(net.s, o))
    && forall o, t | o in net.s.g.ops && t in net.s.g.node[o].inputs && Relevant(net.s, t) ::
         t in net.s.inputs || exists p :: p in net.s.g.ops && t in net.s.g.node[p].outputs
  }

  lemma CompleteHandled(net: Network, given: map<Tensor, Permute>, rank: Op -> nat, o: Op)
    requires WellLinked(net.s) && Complete(net, rank) && o in net.s.g.ops
    ensures o in Before(Order(net, given), |Order(net, given)|) && o in HandledOps(net.s, InferLayout(net, given))
  {
    SetUpStarts(net, given);
    HandlersMeetContract(net);
    EverythingHandled(net.s, HandlerFor(net), SetUp(net, given), QueueOf(net.s), rank);
    PassRuns(net, given);
    RunFrame(net, PassTrace(net, given), Order(net, given), |Order(net, given)|);
  }

  lemma CompleteWrites(net: Network, given: map<Tensor, Permute>, rank: Op -> nat, o: Op, t: Tensor)
    requires WellLinked(net.s) && Complete(net, rank) && o in net.s.g.ops && t in net.s.g.node[o].outputs
    ensures WrittenBy(net.s, HandledOps(net.s, InferLayout(net, given)), t)
    ensures WrittenBy(net.s, Before(Order(net, given), |Order(net, given)|), t)
  {
    CompleteHandled(net, given, rank, o);
  }

  /** One above the rank of the writer. */
  ghost function TierOf(g: Graph, rank: Op -> nat, t: Tensor): nat
    requires HasNodes(g)
  {
    if o :| o in g.ops && t in g.node[o].outputs then rank(o) + 1 else 0
  }

  lemma TiersRise(g: Graph, rank: Op -> nat, ops: seq<Op>) returns (tier: Tensor -> nat)
    requires HasNodes(g) && Ordered(g, rank) && SingleWriter(g) && forall o | o in ops :: o in g.ops
    ensures Rising(g, tier, ops)
  {
    tier := (t: Tensor) => TierOf(g, rank, t);
  }

  lemma CompleteGiven(net: Network, sem: Semantics, v: Values, given: map<Tensor, Permute>, rank: Op -> nat) returns (tier: Tensor -> nat)
    requires Usable(net) && Solves(net, sem, v) && LayoutsGiven(net, v, given) && Complete(net, rank)
    requires forall t | t in net.plainOutputs :: t in net.s.outputs
    ensures Given(net, sem, v, given, tier)
  {
    OutcomePlayed(net, given, HandlerFor(net));
    assert Outcome(net, given, HandlerFor(net)) == InferLayout(net, given);
    tier := TiersRise(net.s.g, rank, Order(net, given));
  }

  /** On a complete graph no graph output is forgotten. */
  lemma EveryOutputPreserved(net: Network, sem: Semantics, v: Values, w: NewValues, given: map<Tensor, Permute>, rank: Op -> nat)
    requires Usable(net) && Solves(net, sem, v) && LayoutsGiven(net, v, given) && Complete(net, rank) && Faithful(net, given)
    requires forall t | t in net.plainOutputs :: t in net.s.outputs
    requires Satisfies(sem, w, InferLayout(net, given).infer.emitted) && InputsFed(net, v, w, given, InferLayout(net, given))
    ensures var c := InferLayout(net, given);
            forall t, o | t in net.s.outputs && o in net.s.g.ops && t in net.s.g.node[o].outputs :: t in IoMap(c) && w(IoMap(c)[t]) == v(t)
  {
    var c := InferLayout(net, given);
    var tier := CompleteGiven(net, sem, v, given, rank);
    MeaningPreserved(net, sem, v, w, given, tier);
    forall t, o | t in net.s.outputs && o in net.s.g.ops && t in net.s.g.node[o].outputs ensures WrittenBy(net.s, HandledOps(net.s, c), t) {
      CompleteWrites(net, given, rank, o, t);
    }
  }

  /** Layout inference builds a graph that can be evaluated and then has, in the tensor the io map
      names for it, every graph output as the source computes it. */
  lemma NewGraphComputes(net: Network, sem: Semantics, v: Values, given: map<Tensor, Permute>, rank: Op -> nat)
    returns (w: NewValues, level: Mapped -> nat)
    requires Usable(net) && Solves(net, sem, v) && LayoutsGiven(net, v, given) && Complete(net, rank) && Faithful(net, given)
    requires forall t | t in net.plainOutputs :: t in net.s.outputs
    ensures Satisfies(sem, w, InferLayout(net, given).infer.emitted) && InputsFed(net, v, w, given, InferLayout(net, given))
    ensures Acyclic(InferLayout(net, given), level) && NoDuplicates(Dsts(InferLayout(net, given).infer.emitted))
    ensures var c := InferLayout(net, given);
            forall t, o | t in net.s.outputs && o in net.s.g.ops && t in net.s.g.node[o].outputs :: t in IoMap(c) && w(IoMap(c)[t]) == v(t)
  {
    var tier := CompleteGiven(net, sem, v, given, rank);
    w, level := NewGraphSolvable(net, sem, v, given, tier);
    EveryOutputPreserved(net, sem, v, w, given, rank);
  }

  // ---- when the condition holds ----

  lemma WrittenStays(s: Source, ops: seq<Op>, i: nat, t: Tensor)
    requires HasNodes(s.g) && i <= |ops| && WrittenBy(s, Before(ops, i), t)
    ensures WrittenBy(s, Before(ops, |ops|), t)
  {
    var o :| o in Before(ops, i) && o in s.g.ops && t in s.g.node[o].outputs;
    assert o in ops[..i] && ops[..|ops|] == ops;
  }

  /** If graph outputs are written before they are read, all is well. */
  lemma InOrderFaithful(net: Network, given: map<Tensor, Permute>)
    requires Regular(net) && WritesFirst(net.s, Order(net, given))
    ensures Faithful(net, given)
  {
    var ops := Order(net, given);
    WritesFirstKeeps(net, given);
    forall i, t | 0 <= i < |ops| && t in net.s.outputs && ops[i] in net.s.g.node && t in net.s.g.node[ops[i]].inputs
      ensures WrittenBy(net.s, Before(ops, i), t)
    {
      WrittenFirst(net, given, i, t);
    }
    forall t, o | t in net.s.outputs && o in ops && o in net.s.g.node && t in net.s.g.node[o].inputs ensures WrittenBy(net.s, Before(ops, |ops|), t) {
      var i :| 0 <= i < |ops| && ops[i] == o;
      WrittenStays(net.s, ops, i, t);
    }
  }

  lemma WrittenFirst(net: Network, given: map<Tensor, Permute>, i: nat, t: Tensor)
    requires WellLinked(net.s) && WritesFirst(net.s, Order(net, given)) && i < |Order(net, given)|
    requires t in net.s.outputs && Order(net, given)[i] in net.s.g.node && t in net.s.g.node[Order(net, given)[i]].inputs
    ensures WrittenBy(net.s, Before(Order(net, given), i), t) && Order(net, given)[i] in net.s.g.ops
  {
    OutcomePlayed(net, given, HandlerFor(net));
    assert Outcome(net, given, HandlerFor(net)) == InferLayout(net, given);
    InOrderAt(net.s, Order(net, given), i);
    assert Order(net, given)[i] in ConsumersOf(net.s.g, t);
  }

  /** In a graph whose outputs are unread, or whose read outputs are reached through their
      writers only, they are written before they are read. */
  lemma InferredInOrder(net: Network, given: map<Tensor, Permute>)
    requires WellLinked(net.s) && SingleWriter(net.s.g)
    requires forall t | t in net.s.outputs && ConsumersOf(net.s.g, t) != [] :: ReachedThroughWriter(net.s, t)
    ensures WritesFirst(net.s, Order(net, given))
  {
    SetUpStarts(net, given);
    HandlersMeetContract(net);
    ReachedWritesFirst(net.s, HandlerFor(net), SetUp(net, given), QueueOf(net.s));
  }

  lemma AlignedStarts(net: Network, v: Values, given: map<Tensor, Permute>, t: Tensor)
    requires Layouts(net, v, given) && OnlyAligned(net, given)
    ensures StartsAligned(net, given, t)
  {
    if t in given { assert Fits(given[t], v(t).shape); }
  }

  /** Where no layout but the aligned one is given or asked for, graph outputs may be read before
      they are written. */
  lemma AlignedFaithful(net: Network, v: Values, given: map<Tensor, Permute>, rank: Op -> nat)
    requires Regular(net) && Layouts(net, v, given) && OnlyAligned(net, given) && Complete(net, rank)
    requires forall t | t in net.s.outputs :: t !in net.s.constants && t !in net.s.inputs
    ensures Faithful(net, given)
  {
    var ops := Order(net, given);
    AlignedKeeps(net, given);
    OutcomePlayed(net, given, HandlerFor(net));
    assert Outcome(net, given, HandlerFor(net)) == InferLayout(net, given);
    forall t ensures StartsAligned(net, given, t) { AlignedStarts(net, v, given, t); }
    forall t, o | t in net.s.outputs && o in ops && o in net.s.g.node && t in net.s.g.node[o].inputs ensures WrittenBy(net.s, Before(ops, |ops|), t) {
      var p :| p in net.s.g.ops && t in net.s.g.node[p].outputs;
      CompleteWrites(net, given, rank, p, t);
    }
  }

  /** So without other layouts no order matters: on every complete graph whose outputs are neither
      inputs nor constants, every graph output has its value in the new graph. */
  lemma AlignedComputes(net: Network, sem: Semantics, v: Values, given: map<Tensor, Permute>, rank: Op -> nat)
    returns (w: NewValues, level: Mapped -> nat)
    requires Usable(net) && Solves(net, sem, v) && LayoutsGiven(net, v, given) && Complete(net, rank) && OnlyAligned(net, given)
    requires (forall t | t in net.plainOutputs :: t in net.s.outputs) && forall t | t in net.s.outputs :: t !in net.s.constants && t !in net.s.inputs
    ensures Faithful(net, given)
    ensures Satisfies(sem, w, InferLayout(net, given).infer.emitted) && InputsFed(net, v, w, given, InferLayout(net, given))
    ensures Acyclic(InferLayout(net, given), level) && NoDuplicates(Dsts(InferLayout(net, given).infer.emitted))
    ensures var c := InferLayout(net, given);
            forall t, o | t in net.s.outputs && o in net.s.g.ops && t in net.s.g.node[o].outputs :: t in IoMap(c) && w(IoMap(c)[t]) == v(t)
  {
    SolvedRegular(net, sem, v);
    AlignedFaithful(net, v, given, rank);
    w, level := NewGraphComputes(net, sem, v, given, rank);
  }
}
