/** What the tensors stand for that layout inference starts with: the new graph's inputs, the
    constants it enqueues, and the tensors handed out for graph outputs. */
module LayoutStarts {
  import opened GraphModel
  import opened Permutations
  import opened TensorLayout
  import opened LayoutWorklist
  import opened LayoutHandlers
  import opened LayoutWrites
  import opened LayoutRun
  import opened LayoutMeaning

  /** The caller's layouts: permutations of the right rank, of those that constants can follow
      if some have to, and none for a constant. */
  ghost predicate LayoutsGiven(net: Network, v: Values, given: map<Tensor, Permute>) {
    forall t | t in given :: t !in net.s.constants && Standard(net, given[t]) && Fits(given[t], v(t).shape)
  }

  /** What the layouts have to do with the values. */
  ghost predicate Layouts(net: Network, v: Values, given: map<Tensor, Permute>) {
    && LayoutsGiven(net, v, given) && ConstantsKnown(net, v)
    && (forall t: Tensor :: 1 <= |v(t).shape|) && (forall t: Tensor :: net.shape(t) == v(t).shape)
  }

  /** Inputs stand for themselves in their initial layouts, outputs and constants aligned. */
  function InputMeant(net: Network, given: map<Tensor, Permute>, t: Tensor): Meant {
    Meant(t, InitialLayout(net, given, t), 0)
  }

  function AlignedMeant(v: Values, t: Tensor, step: nat): Meant {
    Meant(t, Identity(|v(t).shape|), step)
  }

  /** Where something meant comes from. */
  predicate Comes(net: Network, v: Values, given: map<Tensor, Permute>, c: Context<Emit>, m: Mapped, y: Meant) {
    if y.step == 0 then y.t in c.inputMap && c.inputMap[y.t] == m && y == InputMeant(net, given, y.t)
    else if y.step == 1 then y.t in c.outputMap && c.outputMap[y.t] == m && y == AlignedMeant(v, y.t, 1)
    else y.step == 2 && Constant(v(y.t), m) in c.infer.emitted && y == AlignedMeant(v, y.t, 2)
  }

  predicate IsSource(v: Values, plan: Plan, e: Emit) {
    e.Constant? && e.dst in plan && plan[e.dst].step == 2 && e.data == v(plan[e.dst].t)
  }

  /** The tensor for t stands for t, in t's layout unless t is a graph output. */
  ghost predicate StartsAt(net: Network, v: Values, c: Context<Emit>, plan: Plan, t: Tensor) {
    && t in c.pv && t in c.tensorMap && Fits(c.pv[t], v(t).shape) && Standard(net, c.pv[t])
    && if t in c.outputMap then c.tensorMap[t] == c.outputMap[t]
       else c.tensorMap[t] in plan && plan[c.tensorMap[t]].t == t && plan[c.tensorMap[t]].p == c.pv[t]
  }

  ghost predicate Meanings(net: Network, v: Values, given: map<Tensor, Permute>, c: Context<Emit>, plan: Plan) {
    forall m | m in plan :: MeantOk(v, c.infer.next, m, plan[m]) && Comes(net, v, given, c, m, plan[m])
  }

  ghost predicate Sources(v: Values, c: Context<Emit>, plan: Plan) {
    forall e | e in c.infer.emitted :: IsSource(v, plan, e)
  }

  ghost predicate Ends(net: Network, v: Values, given: map<Tensor, Permute>, c: Context<Emit>, plan: Plan) {
    && (forall t | t in c.inputMap :: c.inputMap[t] in plan && plan[c.inputMap[t]] == InputMeant(net, given, t))
    && (forall t | t in c.outputMap :: c.outputMap[t] in plan && plan[c.outputMap[t]] == AlignedMeant(v, t, 1))
  }

  ghost predicate Starts(net: Network, v: Values, c: Context<Emit>, plan: Plan) {
    forall t | t in c.pv :: StartsAt(net, v, c, plan, t)
  }

  ghost predicate Starting(net: Network, v: Values, given: map<Tensor, Permute>, c: Context<Emit>, plan: Plan) {
    Meanings(net, v, given, c, plan) && Sources(v, c, plan) && Ends(net, v, given, c, plan) && Starts(net, v, c, plan)
  }

  lemma InitialFits(net: Network, v: Values, given: map<Tensor, Permute>, t: Tensor)
    requires Layouts(net, v, given)
    ensures Fits(InitialLayout(net, given, t), v(t).shape) && Standard(net, InitialLayout(net, given, t))
    ensures Fits(Identity(|v(t).shape|), v(t).shape)
    ensures t in net.s.constants ==> InitialLayout(net, given, t) == Identity(|v(t).shape|)
  {
    StandardAligned(net, |v(t).shape|);
    assert 1 <= |v(t).shape| && net.shape(t) == v(t).shape;
    assert Fits(Identity(|v(t).shape|), v(t).shape);
  }

  /** A new handle d means y and takes the place of what meant the same tensor at the same step. */
  ghost predicate Replaced(plan: Plan, plan': Plan, d: Mapped, y: Meant) {
    && d in plan' && plan'[d] == y
    && (forall m | m in plan && !(plan[m].t == y.t && plan[m].step == y.step && y.step < 2) :: m in plan' && plan'[m] == plan[m])
    && (forall m | m in plan' && m != d :: m in plan && plan'[m] == plan[m] && !(plan[m].t == y.t && plan[m].step == y.step && y.step < 2))
  }

  function Replacing(plan: Plan, d: Mapped, y: Meant): Plan {
    (map m | m in plan && !(plan[m].t == y.t && plan[m].step == y.step && y.step < 2) :: plan[m])[d := y]
  }

  lemma ReplacingReplaces(plan: Plan, d: Mapped, y: Meant)
    requires forall m | m in plan :: m < d
    ensures Replaced(plan, Replacing(plan, d, y), d, y)
  {
  }

  /** One tensor is mapped to a fresh handle. */
  ghost predicate Advances(c: Context<Emit>, c': Context<Emit>, t: Tensor, p: Permute, more: seq<Emit>) {
    && c'.tensorMap == c.tensorMap[t := c.infer.next] && c'.pv == c.pv[t := p] && c'.infer.next == c.infer.next + 1
    && c'.infer.emitted == c.infer.emitted + more
  }

  lemma StartsStay(net: Network, v: Values, c: Context<Emit>, c': Context<Emit>, plan: Plan, plan': Plan, t: Tensor, p: Permute, more: seq<Emit>, y: Meant)
    requires Starts(net, v, c, plan) && Advances(c, c', t, p, more) && Replaced(plan, plan', c.infer.next, y) && y.t == t
    requires forall u | u != t :: (u in c'.outputMap <==> u in c.outputMap) && (u in c.outputMap ==> c'.outputMap[u] == c.outputMap[u])
    requires StartsAt(net, v, c', plan', t)
    ensures Starts(net, v, c', plan')
  {
    forall u | u in c'.pv ensures StartsAt(net, v, c', plan', u) {
      if u != t { assert StartsAt(net, v, c, plan, u); }
    }
  }

  lemma MeaningsBelow(net: Network, v: Values, given: map<Tensor, Permute>, c: Context<Emit>, plan: Plan)
    requires Meanings(net, v, given, c, plan)
    ensures forall m | m in plan :: m < c.infer.next
  {
    forall m | m in plan ensures m < c.infer.next { assert MeantOk(v, c.infer.next, m, plan[m]); }
  }

  lemma SourcesStay(v: Values, c: Context<Emit>, plan: Plan, plan': Plan, d: Mapped, y: Meant, e: Emit)
    requires Sources(v, c, plan) && Replaced(plan, plan', d, y) && e in c.infer.emitted
    ensures IsSource(v, plan', e)
  {
    assert IsSource(v, plan, e);
  }

  lemma AddInputStarting(net: Network, v: Values, given: map<Tensor, Permute>, c: Context<Emit>, plan: Plan, t: Tensor) returns (plan': Plan)
    requires Layouts(net, v, given) && Starting(net, v, given, c, plan) && c.outputMap == map[]
    ensures Starting(net, v, given, AddInput(net, given, c, t), plan')
  {
    var d, c', y := c.infer.next, AddInput(net, given, c, t), InputMeant(net, given, t);
    InitialFits(net, v, given, t);
    plan' := Replacing(plan, d, y);
    MeaningsBelow(net, v, given, c, plan);
    ReplacingReplaces(plan, d, y);
    InputMeanings(net, v, given, c, plan, plan', t);
    forall e | e in c'.infer.emitted ensures IsSource(v, plan', e) { SourcesStay(v, c, plan, plan', d, y, e); }
    StartsStay(net, v, c, c', plan, plan', t, y.p, [], y);
    InputEnds(net, v, given, c, plan, plan', t);
  }

  lemma InputMeanings(net: Network, v: Values, given: map<Tensor, Permute>, c: Context<Emit>, plan: Plan, plan': Plan, t: Tensor)
    requires Meanings(net, v, given, c, plan) && Replaced(plan, plan', c.infer.next, InputMeant(net, given, t))
    requires Fits(InitialLayout(net, given, t), v(t).shape)
    ensures Meanings(net, v, given, AddInput(net, given, c, t), plan')
  {
    var c' := AddInput(net, given, c, t);
    forall m | m in plan' ensures MeantOk(v, c'.infer.next, m, plan'[m]) && Comes(net, v, given, c', m, plan'[m]) {
      if m != c.infer.next { assert MeantOk(v, c.infer.next, m, plan[m]) && Comes(net, v, given, c, m, plan[m]); }
    }
  }

  lemma InputEnds(net: Network, v: Values, given: map<Tensor, Permute>, c: Context<Emit>, plan: Plan, plan': Plan, t: Tensor)
    requires Ends(net, v, given, c, plan) && Replaced(plan, plan', c.infer.next, InputMeant(net, given, t)) && c.outputMap == map[]
    ensures Ends(net, v, given, AddInput(net, given, c, t), plan')
  {
  }

  lemma SourceMeanings(net: Network, v: Values, given: map<Tensor, Permute>, c: Context<Emit>, plan: Plan, plan': Plan, t: Tensor)
    requires Meanings(net, v, given, c, plan) && Replaced(plan, plan', c.infer.next, AlignedMeant(v, t, 2))
    requires DataOf(net, t) == v(t) && Fits(Identity(|v(t).shape|), v(t).shape)
    ensures Meanings(net, v, given, AddSource(net, given, c, t), plan')
  {
    var c' := AddSource(net, given, c, t);
    forall m | m in plan' ensures MeantOk(v, c'.infer.next, m, plan'[m]) && Comes(net, v, given, c', m, plan'[m]) {
      if m != c.infer.next { assert MeantOk(v, c.infer.next, m, plan[m]) && Comes(net, v, given, c, m, plan[m]); }
    }
  }

  lemma AddSourceStarting(net: Network, v: Values, given: map<Tensor, Permute>, c: Context<Emit>, plan: Plan, t: Tensor) returns (plan': Plan)
    requires Layouts(net, v, given) && Starting(net, v, given, c, plan) && c.outputMap == map[] && t in net.s.constants
    ensures Starting(net, v, given, AddSource(net, given, c, t), plan')
  {
    var d, c', y := c.infer.next, AddSource(net, given, c, t), AlignedMeant(v, t, 2);
    InitialFits(net, v, given, t);
    plan' := Replacing(plan, d, y);
    MeaningsBelow(net, v, given, c, plan);
    ReplacingReplaces(plan, d, y);
    SourceMeanings(net, v, given, c, plan, plan', t);
    forall e | e in c'.infer.emitted ensures IsSource(v, plan', e) {
      if e in c.infer.emitted { SourcesStay(v, c, plan, plan', d, y, e); }
    }
    StartsStay(net, v, c, c', plan, plan', t, y.p, [Constant(DataOf(net, t), d)], y);
  }

  lemma OutputMeanings(net: Network, v: Values, given: map<Tensor, Permute>, c: Context<Emit>, plan: Plan, plan': Plan, t: Tensor)
    requires Meanings(net, v, given, c, plan) && Replaced(plan, plan', c.infer.next, AlignedMeant(v, t, 1))
    requires Fits(Identity(|v(t).shape|), v(t).shape)
    ensures Meanings(net, v, given, AddOutput(net, given, c, t), plan')
  {
    var c' := AddOutput(net, given, c, t);
    forall m | m in plan' ensures MeantOk(v, c'.infer.next, m, plan'[m]) && Comes(net, v, given, c', m, plan'[m]) {
      if m != c.infer.next { assert MeantOk(v, c.infer.next, m, plan[m]) && Comes(net, v, given, c, m, plan[m]); }
    }
  }

  lemma OutputEnds(net: Network, v: Values, given: map<Tensor, Permute>, c: Context<Emit>, plan: Plan, plan': Plan, t: Tensor)
    requires Ends(net, v, given, c, plan) && Replaced(plan, plan', c.infer.next, AlignedMeant(v, t, 1))
    ensures Ends(net, v, given, AddOutput(net, given, c, t), plan')
  {
  }

  lemma OutputStartsAt(net: Network, v: Values, given: map<Tensor, Permute>, c: Context<Emit>, plan: Plan, t: Tensor)
    requires Layouts(net, v, given)
    ensures StartsAt(net, v, AddOutput(net, given, c, t), plan, t)
    ensures Advances(c, AddOutput(net, given, c, t), t, InitialLayout(net, given, t), [])
  {
    InitialFits(net, v, given, t);
  }

  lemma AddOutputStarting(net: Network, v: Values, given: map<Tensor, Permute>, c: Context<Emit>, plan: Plan, t: Tensor) returns (plan': Plan)
    requires Layouts(net, v, given) && Starting(net, v, given, c, plan)
    ensures Starting(net, v, given, AddOutput(net, given, c, t), plan')
  {
    var d, c', y := c.infer.next, AddOutput(net, given, c, t), AlignedMeant(v, t, 1);
    InitialFits(net, v, given, t);
    plan' := Replacing(plan, d, y);
    MeaningsBelow(net, v, given, c, plan);
    ReplacingReplaces(plan, d, y);
    OutputMeanings(net, v, given, c, plan, plan', t);
    forall e | e in c'.infer.emitted ensures IsSource(v, plan', e) { SourcesStay(v, c, plan, plan', d, y, e); }
    OutputStartsAt(net, v, given, c, plan', t);
    StartsStay(net, v, c, c', plan, plan', t, InitialLayout(net, given, t), [], y);
    OutputEnds(net, v, given, c, plan, plan', t);
  }

  lemma {:induction false} AddInputsStarting(net: Network, v: Values, given: map<Tensor, Permute>, c: Context<Emit>, plan: Plan, ts: seq<Tensor>)
    returns (plan': Plan)
    requires Layouts(net, v, given) && Starting(net, v, given, c, plan) && c.outputMap == map[]
    ensures Starting(net, v, given, AddInputs(net, given, c, ts), plan') && AddInputs(net, given, c, ts).outputMap == map[]
    decreases |ts|
  {
    plan' := plan;
    if ts != [] {
      var plan1 := AddInputStarting(net, v, given, c, plan, ts[0]);
      plan' := AddInputsStarting(net, v, given, AddInput(net, given, c, ts[0]), plan1, ts[1..]);
    }
  }

  lemma {:induction false} AddSourcesStarting(net: Network, v: Values, given: map<Tensor, Permute>, c: Context<Emit>, plan: Plan, ts: seq<Tensor>)
    returns (plan': Plan)
    requires Layouts(net, v, given) && Starting(net, v, given, c, plan) && c.outputMap == map[] && forall t | t in ts :: t in net.s.constants
    ensures Starting(net, v, given, AddSources(net, given, c, ts), plan')
    decreases |ts|
  {
    plan' := plan;
    if ts != [] {
      assert ts == [ts[0]] + ts[1..];
      var plan1 := AddSourceStarting(net, v, given, c, plan, ts[0]);
      plan' := AddSourcesStarting(net, v, given, AddSource(net, given, c, ts[0]), plan1, ts[1..]);
    }
  }

  lemma {:induction false} AddOutputsStarting(net: Network, v: Values, given: map<Tensor, Permute>, c: Context<Emit>, plan: Plan, ts: seq<Tensor>)
    returns (plan': Plan)
    requires Layouts(net, v, given) && Starting(net, v, given, c, plan)
    ensures Starting(net, v, given, AddOutputs(net, given, c, ts), plan')
    decreases |ts|
  {
    plan' := plan;
    if ts != [] {
      var plan1 := AddOutputStarting(net, v, given, c, plan, ts[0]);
      plan' := AddOutputsStarting(net, v, given, AddOutput(net, given, c, ts[0]), plan1, ts[1..]);
    }
  }

  /** After the set-up loops everything enqueued stands for itself. */
  lemma SetUpStarting(net: Network, v: Values, given: map<Tensor, Permute>) returns (plan: Plan)
    requires HasNodes(net.s.g) && Layouts(net, v, given)
    ensures Starting(net, v, given, SetUp(net, given), plan)
  {
    var c0, consts := FreshContext(net.s), ConstantInputs(net.s, net.s.g.ops);
    var c1 := AddInputs(net, given, c0, net.s.inputs);
    plan := AddInputsStarting(net, v, given, c0, map[], net.s.inputs);
    plan := AddSourcesStarting(net, v, given, c1, plan, consts);
    plan := AddOutputsStarting(net, v, given, AddSources(net, given, c1, consts), plan, net.s.outputs);
  }
}
