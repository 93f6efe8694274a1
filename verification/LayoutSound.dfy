/** A plan of what the new tensors stand for accounts for a context of layout inference.  Handling
    an operation keeps it so, and in the end the values intended, and no others, solve the new
    graph. */
module LayoutSound {
  import opened GraphModel
  import opened Permutations
  import opened TensorLayout
  import opened LayoutWorklist
  import opened LayoutHandlers
  import opened LayoutWrites
  import opened LayoutRun
  import opened LayoutOutputs
  import opened LayoutMeaning
  import opened LayoutPhases
  import opened LayoutStarts

  // ---- sound contexts ----

  function TensorsOf(g: Graph, o: Op): (ts: seq<Tensor>)
    ensures forall t :: t in ts <==> o in g.node && (t in g.node[o].inputs || t in g.node[o].outputs)
  {
    if o in g.node then g.node[o].inputs + g.node[o].outputs else []
  }

  /** The tensors that the operations read or write. */
  function UsedBy(g: Graph, ops: seq<Op>): (used: set<Tensor>)
    ensures forall t :: t in used <==> exists o :: o in ops && t in TensorsOf(g, o)
  {
    set o, t | o in ops && t in TensorsOf(g, o) :: t
  }

  predicate StartsAligned(net: Network, given: map<Tensor, Permute>, t: Tensor) {
    InitialLayout(net, given, t) == DefaultLayout(RankOf(net, t))
  }

  /** Graph outputs nobody reads, and those not written yet whose layout from the start is not the
      one their tensor is going to be written in. */
  ghost function RawOf(net: Network, given: map<Tensor, Permute>, done: set<Op>): (raw: set<Tensor>)
    requires HasNodes(net.s.g)
    ensures forall t :: t in raw <==>
              t in net.s.outputs && (ConsumersOf(net.s.g, t) == [] || (!WrittenBy(net.s, done, t) && !StartsAligned(net, given, t)))
  {
    set t | t in net.s.outputs && (ConsumersOf(net.s.g, t) == [] || (!WrittenBy(net.s, done, t) && !StartsAligned(net, given, t)))
  }

  /** Along the operations tiers rise. */
  ghost predicate Rising(g: Graph, tier: Tensor -> nat, ops: seq<Op>) {
    forall o, t, u | o in ops && o in g.node && t in g.node[o].inputs && u in g.node[o].outputs :: tier(t) < tier(u)
  }

  /** The operations in done are handled, and the plan accounts for the context. */
  ghost predicate SoundAt(x: Setting, given: map<Tensor, Permute>, c: Context<Emit>, done: set<Op>, plan: Plan)
    requires HasNodes(x.net.s.g)
  {
    && Sane(x.(raw := RawOf(x.net, given, done)), WorkOf(c), plan) && c.outputMap == x.own
    && forall t | t in x.net.s.outputs && WrittenBy(x.net.s, done, t) :: OwnWritten(c, t)
  }

  ghost predicate Sound(x: Setting, given: map<Tensor, Permute>, c: Context<Emit>, done: set<Op>)
    requires HasNodes(x.net.s.g)
  {
    exists plan :: SoundAt(x, given, c, done, plan)
  }

  // ---- handling one operation ----

  /** A graph output the operation reads is written, or its tensor will be written in the layout it
      has from the start. */
  ghost predicate ReadsWell(net: Network, given: map<Tensor, Permute>, done: set<Op>, o: Op)
    requires HasNodes(net.s.g)
  {
    o in net.s.g.node && forall t | t in net.s.outputs && t in net.s.g.node[o].inputs ::
      WrittenBy(net.s, done, t) || StartsAligned(net, given, t)
  }

  lemma InputsReadable(x: Setting, given: map<Tensor, Permute>, c: Context<Emit>, done: set<Op>, o: Op)
    requires WellLinked(x.net.s) && x.net.s.placeholders == {} && o in x.net.s.g.ops && IsReady(x.net.s, c, o)
    requires ReadsWell(x.net, given, done, o) && Within(x, x.net.s.g.node[o])
    ensures AllReadable(x.(raw := RawOf(x.net, given, done)), WorkOf(c), x.net.s.g.node[o].inputs)
  {
    forall t | t in x.net.s.g.node[o].inputs
      ensures t !in RawOf(x.net, given, done) && (t in c.pv || t in x.net.s.constants)
    {
      assert o in ConsumersOf(x.net.s.g, t);
      assert !Relevant(x.net.s, t) || t in c.pv;
    }
  }

  lemma OutputsTaken(x: Setting, c: Context<Emit>, o: Op)
    requires o in x.net.s.g.node && KeepsAll(x.net, c, o) && Owners(x.net, c.outputMap) && c.outputMap == x.own
    ensures AllTakeOwn(x, WorkOf(c), OnInputs(x.net, WorkOf(c), o, x.net.s.g.node[o]), x.net.s.g.node[o])
  {
    var k, n := WorkOf(c), x.net.s.g.node[o];
    forall t | t in n.outputs ensures TakesOwn(x, k, t, PvOf(OnInputs(x.net, k, o, n), t)) {
      assert t in x.net.s.outputs ==> Keeps(x.net, c, o, t);
    }
  }

  lemma RawNext(x: Setting, given: map<Tensor, Permute>, done: set<Op>, o: Op)
    requires HasNodes(x.net.s.g) && o in x.net.s.g.ops
    ensures RawAfter(x.(raw := RawOf(x.net, given, done)), RawOf(x.net, given, done + {o}), x.net.s.g.node[o])
  {
    forall t | t in RawOf(x.net, given, done) && t !in x.net.s.g.node[o].outputs ensures t in RawOf(x.net, given, done + {o}) {
      HandleWrites(x.net.s, done, o, t);
    }
  }

  /** What is known of the source. */
  ghost predicate Solved(x: Setting) {
    HasNodes(x.net.s.g) && Solves(x.net, x.sem, x.v)
  }

  lemma StepPrepared(x: Setting, given: map<Tensor, Permute>, c: Context<Emit>, done: set<Op>, o: Op, plan: Plan)
    requires Regular(x.net) && Solved(x) && Running(x.net, c) && SoundAt(x, given, c, done, plan) && o in x.net.s.g.node
    requires AllReadable(x.(raw := RawOf(x.net, given, done)), WorkOf(c), x.net.s.g.node[o].inputs) && Within(x, x.net.s.g.node[o])
    ensures Prepared(x.(raw := RawOf(x.net, given, done)), WorkOf(c), plan, x.net.s.g.node[o])
  {
    OrderlyPlain(x.net, c.outputMap, WorkOf(c));
  }

  /** Handling an operation that keeps the outputs it writes keeps a plan that accounts for the
      context. */
  lemma HandleSound(x: Setting, given: map<Tensor, Permute>, c: Context<Emit>, done: set<Op>, o: Op, c': Context<Emit>, plan: Plan)
    requires Regular(x.net) && Solved(x) && Running(x.net, c) && Step(x.net, c, o, c') && SoundAt(x, given, c, done, plan)
    requires AllReadable(x.(raw := RawOf(x.net, given, done)), WorkOf(c), x.net.s.g.node[o].inputs) && Within(x, x.net.s.g.node[o])
    requires KeepsAll(x.net, c, o)
    ensures Sound(x, given, c', done + {o})
  {
    StepPrepared(x, given, c, done, o, plan);
    var plan' := StepHandled(x, given, c, done, o, c', plan);
    StepWork(x.net, c, o);
    StepFrame(x.net, c, o, c');
    forall t | t in x.net.s.outputs && WrittenBy(x.net.s, done + {o}, t) ensures OwnWritten(c', t) {
      HandleWrites(x.net.s, done, o, t);
      if WrittenBy(x.net.s, done, t) { StepWritesOwn(x.net, c, o, c', t); }
    }
    assert SoundAt(x, given, c', done + {o}, plan');
  }

  lemma StepHandled(x: Setting, given: map<Tensor, Permute>, c: Context<Emit>, done: set<Op>, o: Op, c': Context<Emit>, plan: Plan)
    returns (plan': Plan)
    requires Regular(x.net) && Solved(x) && Running(x.net, c) && Step(x.net, c, o, c') && c.outputMap == x.own
    requires Prepared(x.(raw := RawOf(x.net, given, done)), WorkOf(c), plan, x.net.s.g.node[o]) && KeepsAll(x.net, c, o)
    ensures Sane(x.(raw := RawOf(x.net, given, done + {o})), WorkOf(c'), plan')
    ensures forall t | t in x.net.s.g.node[o].outputs && t in x.net.s.outputs :: OwnWritten(c', t)
  {
    var n, y := x.net.s.g.node[o], x.(raw := RawOf(x.net, given, done));
    assert OpMeans(x.net, x.sem, x.v, o, n) && RegularAt(x.net, o, n);
    OutputsTaken(y, c, o);
    RawNext(x, given, done, o);
    if |n.inputs| == 1 { SoleInputLaidOut(x.net, c, o); }
    StepWork(x.net, c, o);
    StepFrame(x.net, c, o, c');
    plan' := HandledOk(y, WorkOf(c), plan, o, n, RawOf(x.net, given, done + {o}));
  }

  // ---- the set-up loops ----

  /** What a run refers to: the plan it starts with and the tensors its operations use. */
  function SettingOf(net: Network, sem: Semantics, v: Values, tier: Tensor -> nat, c: Context<Emit>, ops: seq<Op>, start: Plan): Setting {
    Setting(net, sem, v, tier, c.outputMap, UsedBy(net.s.g, ops), c.inputMap.Values + c.outputMap.Values, start, {})
  }

  lemma SourceRight(x: Setting, given: map<Tensor, Permute>, c: Context<Emit>, plan: Plan, e: Emit)
    requires Layouts(x.net, x.v, given) && Starting(x.net, x.v, given, c, plan) && e in c.infer.emitted
    ensures Right(x, plan, e)
  {
    assert IsSource(x.v, plan, e) && Comes(x.net, x.v, given, c, e.dst, plan[e.dst]);
    TransposeIdentity(x.v(plan[e.dst].t));
  }

  lemma MeantPlaced(x: Setting, given: map<Tensor, Permute>, c: Context<Emit>, plan: Plan, m: Mapped)
    requires Starting(x.net, x.v, given, c, plan) && m in plan && x.loose == c.inputMap.Values + c.outputMap.Values
    ensures m in x.loose || m in Dsts(c.infer.emitted)
  {
    assert Comes(x.net, x.v, given, c, m, plan[m]);
    DstsOf(c.infer.emitted, m);
    if plan[m].step >= 2 { assert m in Dst(Constant(x.v(plan[m].t), m)); }
  }

  lemma StartHolds(x: Setting, given: map<Tensor, Permute>, c: Context<Emit>, plan: Plan, t: Tensor)
    requires Layouts(x.net, x.v, given) && Starting(x.net, x.v, given, c, plan) && t in c.pv && c.outputMap == x.own
    requires t in x.own ==> c.pv[t] == DefaultLayout(RankOf(x.net, t))
    ensures Holds(x, WorkOf(c), plan, t)
  {
    assert StartsAt(x.net, x.v, c, plan, t);
    assert x.net.shape(t) == x.v(t).shape && 1 <= |x.v(t).shape|;
  }

  lemma SetUpGood(x: Setting, given: map<Tensor, Permute>, plan: Plan)
    requires Regular(x.net) && Layouts(x.net, x.v, given) && Starting(x.net, x.v, given, SetUp(x.net, given), plan)
    requires x.own == SetUp(x.net, given).outputMap && x.raw == RawOf(x.net, given, {})
    ensures Good(x, WorkOf(SetUp(x.net, given)), plan)
  {
    var c := SetUp(x.net, given);
    SetUpOrderly(x.net, given);
    forall t | t in c.pv && t !in x.raw ensures Holds(x, WorkOf(c), plan, t) {
      if t in x.own { StartLayoutIs(x.net, given, t); }
      StartHolds(x, given, c, plan, t);
    }
  }

  lemma SetUpPlanned(x: Setting, given: map<Tensor, Permute>, c: Context<Emit>, plan: Plan)
    requires Layouts(x.net, x.v, given) && Starting(x.net, x.v, given, c, plan)
    requires x.own == c.outputMap && x.loose == c.inputMap.Values + c.outputMap.Values && x.start == plan
    ensures Planned(x, WorkOf(c), plan)
  {
    forall e | e in c.infer.emitted ensures Right(x, plan, e) { SourceRight(x, given, c, plan, e); }
    forall m | m in plan ensures m in x.loose || m in Dsts(c.infer.emitted) { MeantPlaced(x, given, c, plan, m); }
    forall m | m in plan ensures MeantOk(x.v, c.infer.next, m, plan[m]) { }
  }

  /** Before any operation is handled, the plan to start with accounts for what has been set up. */
  lemma SetUpSound(net: Network, sem: Semantics, v: Values, given: map<Tensor, Permute>, tier: Tensor -> nat, ops: seq<Op>) returns (plan: Plan)
    requires Regular(net) && Layouts(net, v, given)
    ensures Ends(net, v, given, SetUp(net, given), plan)
    ensures Sound(SettingOf(net, sem, v, tier, SetUp(net, given), ops, plan), given, SetUp(net, given), {})
  {
    var c := SetUp(net, given);
    plan := SetUpStarting(net, v, given);
    var x := SettingOf(net, sem, v, tier, c, ops, plan);
    SetUpPlanned(x.(raw := RawOf(net, given, {})), given, c, plan);
    SetUpGood(x.(raw := RawOf(net, given, {})), given, plan);
    assert SoundAt(x, given, c, {}, plan);
  }

  // ---- what a sound context determines ----

  /** Fed by the caller, or written by an operation of the new graph. */
  predicate Grounded(c: Context<Emit>, m: Mapped) {
    m in c.inputMap.Values || m in Dsts(c.infer.emitted)
  }

  /** The plan accounts for the context, and the graph outputs used are written. */
  ghost predicate Settled(x: Setting, c: Context<Emit>, plan: Plan) {
    && Planned(x, WorkOf(c), plan) && c.outputMap == x.own && x.loose == c.inputMap.Values + c.outputMap.Values
    && forall t | t in x.own && t in x.used :: OwnWritten(c, t)
  }

  lemma SrcGrounded(x: Setting, c: Context<Emit>, plan: Plan, e: Emit, m: Mapped)
    requires Settled(x, c, plan) && e in c.infer.emitted && m in Src(e)
    ensures m in plan && Grounded(c, m)
  {
    assert Right(x, plan, e);
    if m in c.outputMap.Values {
      var t :| t in c.outputMap && c.outputMap[t] == m;
      assert Owned(x, plan, t);
    }
  }

  /** An equation that leaves no choice fixes what is written by what is read. */
  lemma ResultFixed(sem: Semantics, u: NewValues, w: NewValues, e: Emit, m: Mapped)
    requires EmitHolds(sem, u, e) && EmitHolds(sem, w, e) && Firm(u, e) && m in Dst(e) && forall n | n in Src(e) :: w(n) == u(n)
    ensures w(m) == u(m)
  {
    SameAll(u, w, Src(e));
    if e.Rebuilt? {
      var i :| 0 <= i < |e.dsts| && e.dsts[i] == m;
      assert All(w, e.dsts)[i] == w(m) && All(u, e.dsts)[i] == u(m);
    } else if !e.Constant? {
      assert e.src in Src(e);
    }
  }

  /** The inputs have the values intended for them. */
  ghost predicate FedAsMeant(x: Setting, c: Context<Emit>, w: NewValues) {
    forall m | m in c.inputMap.Values :: m in x.start && w(m) == ValueOf(x.v, x.start, m)
  }

  lemma WrittenBySome(es: seq<Emit>, m: Mapped) returns (e: Emit)
    requires m in Dsts(es)
    ensures e in es && m in Dst(e)
  {
    DstsOf(es, m);
    e :| e in es && m in Dst(e);
  }

  /** Whatever solves the new graph with the inputs fed has the values intended. */
  lemma {:induction false} Determined(x: Setting, c: Context<Emit>, plan: Plan, w: NewValues, m: Mapped)
    requires Settled(x, c, plan) && Satisfies(x.sem, w, c.infer.emitted) && FedAsMeant(x, c, w) && m in plan && Grounded(c, m)
    ensures w(m) == ValueOf(x.v, plan, m)
    decreases x.tier(plan[m].t), plan[m].step
  {
    if m !in c.inputMap.Values {
      var e := WrittenBySome(c.infer.emitted, m);
      assert Right(x, plan, e);
      forall n | n in Src(e) ensures w(n) == Intended(x.v, plan)(n) {
        SrcGrounded(x, c, plan, e, n);
        Determined(x, c, plan, w, n);
      }
      ResultFixed(x.sem, Intended(x.v, plan), w, e, m);
    }
  }

  lemma IntendedSatisfies(x: Setting, c: Context<Emit>, plan: Plan)
    requires Settled(x, c, plan) && forall m | m in c.inputMap.Values :: m in x.start
    ensures Satisfies(x.sem, Intended(x.v, plan), c.infer.emitted) && FedAsMeant(x, c, Intended(x.v, plan))
  {
    forall e | e in c.infer.emitted ensures EmitHolds(x.sem, Intended(x.v, plan), e) { assert Right(x, plan, e); }
  }

  // ---- the new graph can be evaluated ----

  /** The operations can be carried out in some order from the inputs: level rises from what an
      operation reads to what it writes, and what is read is fed or written. */
  ghost predicate Acyclic(c: Context<Emit>, level: Mapped -> nat) {
    && (forall e, m | e in c.infer.emitted && m in Src(e) :: Grounded(c, m))
    && forall e, m, n | e in c.infer.emitted && m in Src(e) && n in Dst(e) :: level(m) < level(n)
  }

  function LevelOf(x: Setting, plan: Plan, bound: nat, m: Mapped): nat {
    if m in plan then x.tier(plan[m].t) * bound + plan[m].step else 0
  }

  lemma LexLess(a: nat, i: nat, b: nat, j: nat, bound: nat)
    requires a < b || (a == b && i < j)
    requires i < bound
    ensures a * bound + i < b * bound + j
  {
    if a < b { assert a * bound + bound == (a + 1) * bound <= b * bound; }
  }

  lemma LevelsRise(x: Setting, c: Context<Emit>, plan: Plan, e: Emit, m: Mapped, n: Mapped)
    requires Planned(x, WorkOf(c), plan) && e in c.infer.emitted && m in Src(e) && n in Dst(e)
    ensures LevelOf(x, plan, c.infer.next + 3, m) < LevelOf(x, plan, c.infer.next + 3, n)
  {
    assert Right(x, plan, e) && Below(x.tier, plan[m], plan[n]) && MeantOk(x.v, c.infer.next, m, plan[m]);
    LexLess(x.tier(plan[m].t), plan[m].step, x.tier(plan[n].t), plan[n].step, c.infer.next + 3);
  }

  lemma SettledAcyclic(x: Setting, c: Context<Emit>, plan: Plan) returns (level: Mapped -> nat)
    requires Settled(x, c, plan)
    ensures Acyclic(c, level)
  {
    level := (m: Mapped) => LevelOf(x, plan, c.infer.next + 3, m);
    forall e, m | e in c.infer.emitted && m in Src(e) ensures Grounded(c, m) { SrcGrounded(x, c, plan, e, m); }
    forall e, m, n | e in c.infer.emitted && m in Src(e) && n in Dst(e) ensures level(m) < level(n) { LevelsRise(x, c, plan, e, m, n); }
  }
}
