/** What the tensors of the new graph stand for.  Each stands for a tensor of the source in a
    layout, and every operation emitted is right about what it reads and writes: it holds for
    the values intended and lets nothing else be computed from them. */
module LayoutMeaning {
  import opened GraphModel
  import opened Permutations
  import opened TensorLayout
  import opened LayoutWorklist
  import opened LayoutHandlers
  import opened LayoutWrites
  import opened LayoutRun

  /** What operations compute: op for the operation as bound in the source, kernel for
      pooling in WHCN order. */
  datatype Semantics = Semantics(op: (Op, seq<Data>) -> seq<Data>, kernel: (Op, Data) -> Data)

  type Values = Tensor -> Data
  type NewValues = Mapped -> Data

  function All<T>(f: nat -> T, ts: seq<nat>): (r: seq<T>)
    ensures |r| == |ts| && forall i | 0 <= i < |ts| :: r[i] == f(ts[i])
  {
    seq(|ts|, i requires 0 <= i < |ts| => f(ts[i]))
  }

  function TransposeAll(xs: seq<Data>, p: Permute): (r: seq<Data>)
    requires forall i | 0 <= i < |xs| :: Fits(p, xs[i].shape)
    ensures |r| == |xs| && forall i | 0 <= i < |xs| :: r[i] == Transpose(xs[i], p)
  {
    seq(|xs|, i requires 0 <= i < |xs| => Transpose(xs[i], p))
  }

  // ---- the new graph's equations ----

  ghost predicate EmitHolds(sem: Semantics, w: NewValues, e: Emit) {
    match e
    case Permuted(src, perm, dst) =>
      Fits(perm, w(src).shape) ==> w(dst) == Transpose(w(src), perm)
    case Reshaped(src, shape, dst) => w(dst).shape == shape && w(dst).flat == w(src).flat
    case Rebuilt(op, srcs, dsts) => sem.op(op, All(w, srcs)) == All(w, dsts)
    case RebuiltWhcn(op, src, dst) => w(dst) == sem.kernel(op, w(src))
    case Constant(data, dst) => w(dst) == data
  }

  ghost predicate Satisfies(sem: Semantics, w: NewValues, es: seq<Emit>) {
    forall e | e in es :: EmitHolds(sem, w, e)
  }

  // ---- the source graph's equations ----

  /** The operation's outputs have the values the operation computes, and the family it was
      given is one its meaning supports. */
  ghost predicate OpMeans(net: Network, sem: Semantics, v: Values, o: Op, n: Node) {
    match if o in net.family then net.family[o] else Default
    case Default => NoDuplicates(n.outputs) && sem.op(o, All(v, n.inputs)) == All(v, n.outputs)
    case Simple => SingleIO(n) && CommutesWithLayout(sem, v, o, n)
    case Transposing(perm) =>
      SingleIO(n) && Fits(perm, v(n.inputs[0]).shape) && v(n.outputs[0]) == Transpose(v(n.inputs[0]), perm)
    case Elementwise =>
      && |n.inputs| >= 1 && |n.outputs| == 1
      && (exists t :: t in n.inputs && t !in net.s.constants)
      && CommutesWithLayout(sem, v, o, n)
    case Pooling(channelFirst) =>
      && SingleIO(n) && |v(n.inputs[0]).shape| == 4 && |v(n.outputs[0]).shape| == 4
      && (if channelFirst
          then forall y: Data | ChannelsMoved(v(n.inputs[0]), y) :: ChannelsMoved(v(n.outputs[0]), sem.kernel(o, y))
          else sem.kernel(o, v(n.inputs[0])) == v(n.outputs[0]))
  }

  /** y has at (w, h, c, n) what x, whose channels come first, has at (c, w, h, n). */
  ghost predicate ChannelsMoved(x: Data, y: Data) {
    && |x.shape| == 4 && y.shape == [x.shape[1], x.shape[2], x.shape[0], x.shape[3]]
    && forall c: nat, w: nat, h: nat, n: nat | ValidIndex([c, w, h, n], x.shape) :: At(y, [w, h, c, n]) == At(x, [c, w, h, n])
  }

  /** Permuting all operands permutes the result; at the aligned vector this is the
      operation's own equation. */
  ghost predicate CommutesWithLayout(sem: Semantics, v: Values, o: Op, n: Node)
    requires |n.outputs| == 1
  {
    var rank := |v(n.outputs[0]).shape|;
    && (forall t | t in n.inputs :: |v(t).shape| == rank)
    && forall p: Permute | IsPerm(p) && |p| == rank ::
         sem.op(o, TransposeAll(All(v, n.inputs), p)) == [Transpose(v(n.outputs[0]), p)]
  }

  /** v assigns a value to every source tensor, with the recorded shapes and constants, and
      solves the equations of every operation. */
  ghost predicate Solves(net: Network, sem: Semantics, v: Values)
    requires HasNodes(net.s.g)
  {
    && (forall t: Tensor :: 1 <= |v(t).shape|)
    && (forall t: Tensor :: net.shape(t) == v(t).shape)
    && ConstantsKnown(net, v)
    && (forall o | o in net.s.g.ops :: OpMeans(net, sem, v, o, net.s.g.node[o]))
  }

  predicate ConstantsKnown(net: Network, v: Values) {
    forall t | t in net.s.constants :: t in net.data && net.data[t] == v(t)
  }

  /** The vectors the looked-up permutation is right for. */
  predicate MovesConstants(p: Permute) {
    Aligned(p) || Mirror(LookedUp(p)) == p
  }

  /** An element-wise operation reads a constant, which then is re-laid at build time. */
  ghost predicate ConstantOperand(net: Network) {
    exists o, t :: o in net.s.g.node && o in net.family && net.family[o] == Elementwise
                   && t in net.s.g.node[o].inputs && t in net.s.constants
  }

  /** The layouts the handlers carry rightly: any, unless constants have to follow them. */
  ghost predicate Standard(net: Network, p: Permute) {
    IsPerm(p) && (MovesConstants(p) || !ConstantOperand(net))
  }

  lemma PoolLayoutIsPerm(channelFirst: bool)
    ensures IsPerm(PoolLayout(channelFirst))
  {
    IdentityIsPerm(4);
  }

  /** Channels first to channels behind width and height. */
  lemma PoolLayoutGathers(c: nat, w: nat, h: nat, n: nat)
    ensures Gather([c, w, h, n], PoolLayout(true)) == [w, h, c, n] && Gather([c, w, h, n], PoolLayout(false)) == [c, w, h, n]
  {
  }

  /** The layout pooling runs in moves the channels, and nothing else does. */
  lemma PoolLayoutMoves(x: Data, y: Data)
    requires |x.shape| == 4
    ensures Fits(PoolLayout(true), x.shape) && (ChannelsMoved(x, y) <==> y == Transpose(x, PoolLayout(true)))
  {
    var p := PoolLayout(true);
    PoolLayoutIsPerm(true);
    PoolLayoutGathers(x.shape[0], x.shape[1], x.shape[2], x.shape[3]);
    assert x.shape == [x.shape[0], x.shape[1], x.shape[2], x.shape[3]];
    var z := Transpose(x, p);
    forall c: nat, w: nat, h: nat, n: nat | ValidIndex([c, w, h, n], x.shape) ensures At(z, [w, h, c, n]) == At(x, [c, w, h, n]) {
      PoolLayoutGathers(c, w, h, n);
      TransposeAt(x, p, [c, w, h, n]);
    }
    if ChannelsMoved(x, y) { SameWhenMoved(x, y, z); }
  }

  lemma SameWhenMoved(x: Data, y: Data, z: Data)
    requires ChannelsMoved(x, y) && ChannelsMoved(x, z)
    ensures y == z
  {
    forall idx: seq<nat> | ValidIndex(idx, y.shape) ensures At(y, idx) == At(z, idx) {
      assert idx == [idx[0], idx[1], idx[2], idx[3]];
      assert ValidIndex([idx[2], idx[0], idx[1], idx[3]], x.shape);
    }
    SameElements(y, z);
  }

  lemma PoolLayoutMirrored()
    ensures Mirror(LookedUp(CWHN_TO_WHCN)) == CWHN_TO_WHCN
  {
    assert LookedUp(CWHN_TO_WHCN) == [0, 3, 1, 2];
  }

  lemma StandardPool(net: Network, channelFirst: bool)
    ensures Standard(net, PoolLayout(channelFirst))
  {
    PoolLayoutIsPerm(channelFirst);
    if channelFirst { PoolLayoutMirrored(); } else { StandardAligned(net, 4); }
  }

  lemma StandardAligned(net: Network, rank: nat)
    ensures Standard(net, Identity(rank)) && Standard(net, DefaultLayout(rank))
  {
    IdentityIsPerm(rank);
    IdentityIsPerm(1);
  }

  // ---- what new tensors stand for ----

  /** A tensor of the source in a layout; the step orders what stands for the same tensor. */
  datatype Meant = Meant(t: Tensor, p: Permute, step: nat)

  type Plan = map<Mapped, Meant>

  /** x in layout p, when p fits. */
  function Laid(x: Data, p: Permute): Data {
    if Fits(p, x.shape) then Transpose(x, p) else x
  }

  /** The value intended for each new tensor. */
  function ValueOf(v: Values, plan: Plan, m: Mapped): Data {
    if m in plan then Laid(v(plan[m].t), plan[m].p) else Dense([0], [])
  }

  function Intended(v: Values, plan: Plan): NewValues {
    (m: Mapped) => ValueOf(v, plan, m)
  }

  /** What the relation between the graphs refers to: the source with its meaning and values, a
      tier for each tensor that rises along the operations, the tensors owned by graph outputs,
      the source tensors used, the new ones that need not be written, what was meant from the start,
      and the graph outputs whose layout is not to be relied on. */
  datatype Setting = Setting(
    net: Network,
    sem: Semantics,
    v: Values,
    tier: Tensor -> nat,
    own: map<Tensor, Mapped>,
    used: set<Tensor>,
    loose: set<Mapped>,
    start: Plan,
    raw: set<Tensor>)

  /** a is computed before b. */
  predicate Below(tier: Tensor -> nat, a: Meant, b: Meant) {
    tier(a.t) < tier(b.t) || (a.t == b.t && a.step < b.step)
  }

  /** The equation leaves no choice for what is written. */
  predicate Firm(w: NewValues, e: Emit) {
    e.Permuted? ==> Fits(e.perm, w(e.src).shape)
  }

  /** The operation reads and writes tensors that stand for something, in order, and holds for the
      values intended. */
  ghost predicate Right(x: Setting, plan: Plan, e: Emit) {
    && (forall m | m in Src(e) :: m in plan && plan[m].t in x.used)
    && (forall m | m in Dst(e) :: m in plan)
    && (forall m, n | m in Src(e) && n in Dst(e) :: Below(x.tier, plan[m], plan[n]))
    && EmitHolds(x.sem, Intended(x.v, plan), e) && Firm(Intended(x.v, plan), e)
  }

  predicate Grows(plan: Plan, plan': Plan) {
    forall m | m in plan :: m in plan' && plan'[m] == plan[m]
  }

  /** The tensor exists, and the layout fits. */
  predicate MeantOk(v: Values, next: Mapped, m: Mapped, y: Meant) {
    m < next && y.step <= m + 2 && Fits(y.p, v(y.t).shape)
  }

  predicate Owned(x: Setting, plan: Plan, t: Tensor) {
    t in x.own && x.own[t] in plan && plan[x.own[t]] == Meant(t, Identity(|x.v(t).shape|), 1)
  }

  /** The plan accounts for everything emitted. */
  ghost predicate Planned(x: Setting, k: Work, plan: Plan) {
    && (forall m | m in plan :: MeantOk(x.v, k.infer.next, m, plan[m]))
    && (forall e | e in k.infer.emitted :: Right(x, plan, e))
    && (forall m | m in plan :: m in x.loose || m in Dsts(k.infer.emitted))
    && (forall t | t in x.own :: Owned(x, plan, t)) && Grows(x.start, plan)
  }

  /** The new tensor for t stands for t in t's layout. */
  ghost predicate Holds(x: Setting, k: Work, plan: Plan, t: Tensor) {
    && t in k.pv && t in k.tensorMap && k.tensorMap[t] in plan
    && plan[k.tensorMap[t]].t == t && plan[k.tensorMap[t]].p == k.pv[t]
    && Fits(k.pv[t], x.v(t).shape) && Standard(x.net, k.pv[t])
  }

  ghost predicate Good(x: Setting, k: Work, plan: Plan) {
    forall t | t in k.pv && t !in x.raw :: Holds(x, k, plan, t)
  }

  ghost predicate Sane(x: Setting, k: Work, plan: Plan) {
    Planned(x, k, plan) && Good(x, k, plan)
  }

  lemma SameAll(w: NewValues, w': NewValues, ms: seq<Mapped>)
    requires forall m | m in ms :: w'(m) == w(m)
    ensures All(w', ms) == All(w, ms)
  {
  }

  /** Whether an equation holds depends on what it mentions only. */
  lemma HoldsElsewhere(sem: Semantics, w: NewValues, w': NewValues, e: Emit)
    requires EmitHolds(sem, w, e) && forall m | m in Src(e) || m in Dst(e) :: w'(m) == w(m)
    ensures EmitHolds(sem, w', e)
  {
    SameAll(w, w', Src(e));
    SameAll(w, w', Dst(e));
    if e.Rebuilt? {
    } else if e.Constant? {
      assert e.dst in Dst(e);
    } else {
      assert e.src in Src(e) && e.dst in Dst(e);
    }
  }

  /** What is right stays right in a larger plan. */
  lemma RightStays(x: Setting, x': Setting, plan: Plan, plan': Plan, e: Emit)
    requires Right(x, plan, e) && Grows(plan, plan') && x.used <= x'.used
    requires x'.sem == x.sem && x'.v == x.v && x'.tier == x.tier
    ensures Right(x', plan', e)
  {
    HoldsElsewhere(x.sem, Intended(x.v, plan), Intended(x.v, plan'), e);
    if e.Permuted? { assert e.src in Src(e); }
  }

  /** One more operation, which writes all that is new in the plan. */
  lemma Emitting(x: Setting, k: Work, k1: Work, plan: Plan, plan': Plan, e: Emit)
    requires Planned(x, k, plan) && Grows(plan, plan') && Right(x, plan', e)
    requires k1.infer.emitted == k.infer.emitted && forall m | m in plan' :: MeantOk(x.v, k1.infer.next, m, plan'[m])
    requires forall m | m in plan' && m !in plan :: m in Dst(e)
    ensures Planned(x, Append(k1, e), plan')
  {
    DstsMore(k.infer.emitted, e);
    forall f | f in Append(k1, e).infer.emitted ensures Right(x, plan', f) {
      if f != e { RightStays(x, x, plan, plan', f); }
    }
    forall t | t in x.own ensures Owned(x, plan', t) { assert Owned(x, plan, t); }
  }

  lemma HoldsStays(x: Setting, k: Work, r: Work, plan: Plan, plan': Plan, t: Tensor)
    requires Holds(x, k, plan, t) && Grows(plan, plan') && Untouched(k, r, t) && SameLayout(k, r, t)
    ensures Holds(x, r, plan', t)
  {
  }

  /** Whether the plan accounts for what is emitted does not depend on the maps. */
  lemma PlannedSame(x: Setting, k: Work, r: Work, plan: Plan)
    requires Planned(x, k, plan) && r.infer == k.infer
    ensures Planned(x, r, plan)
  {
  }

  // ---- aligning inputs ----

  /** A fresh tensor made by one operation. */
  lemma FreshPlanned(x: Setting, k: Work, plan: Plan, e: Emit, y: Meant) returns (plan': Plan)
    requires Planned(x, k, plan) && Dst(e) == [k.infer.next] && y.step <= k.infer.next + 2 && Fits(y.p, x.v(y.t).shape)
    requires forall m | m in Src(e) :: m in plan && plan[m].t in x.used && Below(x.tier, plan[m], y)
    requires EmitHolds(x.sem, Intended(x.v, plan[k.infer.next := y]), e) && Firm(Intended(x.v, plan[k.infer.next := y]), e)
    ensures plan' == plan[k.infer.next := y] && Grows(plan, plan') && Planned(x, Append(Fresh(k).1, e), plan')
  {
    plan' := plan[k.infer.next := y];
    forall m | m in plan ensures m != k.infer.next { assert MeantOk(x.v, k.infer.next, m, plan[m]); }
    Emitting(x, k, Fresh(k).1, plan, plan', e);
  }

  /** A copy of a tensor in another layout. */
  lemma CopyPlanned(x: Setting, k: Work, plan: Plan, src: Mapped, q: Permute) returns (plan': Plan)
    requires Planned(x, k, plan) && src in plan && plan[src].t in x.used && Fits(q, x.v(plan[src].t).shape)
    ensures plan' == plan[k.infer.next := Meant(plan[src].t, q, k.infer.next + 2)] && Grows(plan, plan')
    ensures Planned(x, InsertPermute(k, src, Realigned(plan[src].p, q)).1, plan')
  {
    var d, y := k.infer.next, Meant(plan[src].t, q, k.infer.next + 2);
    var e := Permuted(src, Realigned(plan[src].p, q), d);
    assert MeantOk(x.v, d, src, plan[src]);
    Realign(x.v(y.t), plan[src].p, q);
    plan' := FreshPlanned(x, k, plan, e, y);
  }

  /** Realigning: whatever the current and the required layout, the input ends up standing in the
      required one. */
  lemma AlignVariableOk(x: Setting, k: Work, plan: Plan, t: Tensor, required: Permute) returns (plan': Plan)
    requires Planned(x, k, plan) && Holds(x, k, plan, t) && t in x.used && Fits(required, x.v(t).shape) && Standard(x.net, required)
    ensures Planned(x, AlignVariable(k, t, required), plan') && Grows(plan, plan') && Holds(x, AlignVariable(k, t, required), plan', t)
    ensures AlignVariable(k, t, required).pv == k.pv[t := required]
  {
    var final := Realigned(k.pv[t], required);
    RealignVector(k.pv[t], required);
    if Aligned(final) {
      plan' := plan;
      PlannedSame(x, k, AlignVariable(k, t, required), plan);
    } else {
      plan' := CopyPlanned(x, k, plan, k.tensorMap[t], required);
      PlannedSame(x, InsertPermute(k, k.tensorMap[t], final).1, AlignVariable(k, t, required), plan');
    }
  }

  lemma AddConstantOk(x: Setting, k: Work, plan: Plan, t: Tensor, data: Data, p: Permute) returns (plan': Plan)
    requires Planned(x, k, plan) && Fits(p, x.v(t).shape) && Standard(x.net, p) && data == Transpose(x.v(t), p)
    ensures Planned(x, AddConstant(k, t, data, p), plan') && Grows(plan, plan') && Holds(x, AddConstant(k, t, data, p), plan', t)
    ensures AddConstant(k, t, data, p).pv == k.pv[t := p]
  {
    var d := k.infer.next;
    plan' := FreshPlanned(x, k, plan, Constant(data, d), Meant(t, p, d + 2));
    PlannedSame(x, Append(Fresh(k).1, Constant(data, d)), AddConstant(k, t, data, p), plan');
  }

  /** Every looked-up permutation agrees with its layout where the utility is defined. */
  lemma ConstantAligned(x: Data, required: Permute)
    requires Fits(required, x.shape) && MovesConstants(required)
    ensures (if Aligned(required) then x else PermutedConstant(x, required)) == Transpose(x, required)
  {
    if Aligned(required) {
      TransposeIdentity(x);
    } else {
      MirrorIsPerm(LookedUp(required));
    }
  }

  /** A tensor the handler may read: it is used, and stands for itself or is a constant. */
  ghost predicate Readable(x: Setting, k: Work, t: Tensor) {
    t in x.used && t !in x.raw && (t in k.pv || t in x.net.s.constants)
  }

  /** Bringing one tensor into a layout leaves the others. */
  lemma OthersStay(x: Setting, k: Work, r: Work, plan: Plan, plan': Plan, t: Tensor, p: Permute, more: seq<Mapped>)
    requires Good(x, k, plan) && Grows(plan, plan') && Moves(k, r, t, more) && r.pv == k.pv[t := p] && Holds(x, r, plan', t)
    ensures Good(x, r, plan') && forall u | u in k.pv && u !in x.raw :: u in r.pv
    ensures forall u | u != t && Holds(x, k, plan, u) :: Holds(x, r, plan', u) && r.pv[u] == k.pv[u]
  {
    forall u | u != t && Holds(x, k, plan, u) ensures Holds(x, r, plan', u) && r.pv[u] == k.pv[u] {
      HoldsStays(x, k, r, plan, plan', u);
    }
  }

  lemma AlignOneOk(x: Setting, k: Work, plan: Plan, t: Tensor, required: Permute) returns (plan': Plan)
    requires Sane(x, k, plan) && ConstantsKnown(x.net, x.v) && Readable(x, k, t)
    requires Fits(required, x.v(t).shape) && Standard(x.net, required) && (t in x.net.s.constants ==> MovesConstants(required))
    ensures Planned(x, AlignOne(x.net, k, t, required), plan') && Grows(plan, plan') && Holds(x, AlignOne(x.net, k, t, required), plan', t)
    ensures AlignOne(x.net, k, t, required).pv == k.pv[t := required]
  {
    if t in x.net.s.constants {
      ConstantAligned(x.v(t), required);
      plan' := AddConstantOk(x, k, plan, t, if Aligned(required) then x.net.data[t] else PermutedConstant(x.net.data[t], required), required);
    } else {
      plan' := AlignVariableOk(x, k, plan, t, required);
    }
  }

  /** Undoing a layout is realigning to the aligned vector. */
  lemma ReverseIsAlign(net: Network, k: Work, t: Tensor)
    requires t !in net.s.placeholders && t !in net.s.constants
    requires IsPerm(PvOf(k, t)) && 1 <= |PvOf(k, t)|
    ensures ReverseOne(net, k, t) == AlignVariable(k, t, Identity(|PvOf(k, t)|))
  {
    var p := PvOf(k, t);
    GroupLaws(p, p, p);
    RealignVector(p, Identity(|p|));
    GroupLaws(Reverse(p), p, p);
    assert Realigned(p, Identity(|p|)) == Reverse(p);
    assert Aligned(Reverse(p)) <==> p == Identity(|p|);
  }

  lemma ReverseOneOk(x: Setting, k: Work, plan: Plan, t: Tensor) returns (plan': Plan)
    requires Sane(x, k, plan) && ConstantsKnown(x.net, x.v) && Readable(x, k, t) && x.net.s.placeholders == {} && 1 <= |x.v(t).shape|
    ensures Planned(x, ReverseOne(x.net, k, t), plan') && Grows(plan, plan') && Holds(x, ReverseOne(x.net, k, t), plan', t)
    ensures ReverseOne(x.net, k, t).pv == k.pv[t := Identity(|x.v(t).shape|)]
  {
    TransposeIdentity(x.v(t));
    StandardAligned(x.net, |x.v(t).shape|);
    if t in x.net.s.constants {
      plan' := AddConstantOk(x, k, plan, t, x.net.data[t], Identity(|x.v(t).shape|));
    } else {
      ReverseIsAlign(x.net, k, t);
      plan' := AlignVariableOk(x, k, plan, t, Identity(|x.v(t).shape|));
    }
  }

  /** The tensors of the list stand for themselves, in the layouts wanted. */
  ghost predicate AllHold(x: Setting, k: Work, plan: Plan, ts: seq<Tensor>, want: Tensor -> Permute) {
    forall t | t in ts :: Holds(x, k, plan, t) && k.pv[t] == want(t)
  }

  /** The head of a list stays as it was brought, unless it is brought again. */
  lemma HeadHolds(x: Setting, k1: Work, r: Work, plan: Plan, plan': Plan, ts: seq<Tensor>, want: Tensor -> Permute, more: seq<Mapped>)
    requires ts != [] && Holds(x, k1, plan, ts[0]) && k1.pv[ts[0]] == want(ts[0]) && AllHold(x, r, plan', ts[1..], want)
    requires Grows(plan, plan') && MovesAll(k1, r, ts[1..], more) && (ts[0] !in ts[1..] ==> SameLayout(k1, r, ts[0]))
    ensures AllHold(x, r, plan', ts, want)
  {
    assert ts == [ts[0]] + ts[1..];
    if ts[0] !in ts[1..] { HoldsStays(x, k1, r, plan, plan', ts[0]); }
  }

  /** Everything in the list can be brought into a layout. */
  ghost predicate AllReadable(x: Setting, k: Work, ts: seq<Tensor>) {
    forall t | t in ts :: Readable(x, k, t)
  }

  lemma ReadableMovable(x: Setting, k: Work, plan: Plan, ts: seq<Tensor>)
    requires AllReadable(x, k, ts) && Good(x, k, plan) && ConstantsKnown(x.net, x.v)
    ensures forall t | t in ts :: Movable(x.net, k, t)
  {
    forall t | t in ts ensures Movable(x.net, k, t) { assert Readable(x, k, t); }
  }

  lemma RestReadable(x: Setting, k: Work, r: Work, ts: seq<Tensor>, p: Permute)
    requires ts != [] && AllReadable(x, k, ts) && r.pv == k.pv[ts[0] := p]
    ensures AllReadable(x, r, ts[1..])
  {
    forall t | t in ts[1..] ensures Readable(x, r, t) { assert t in ts && Readable(x, k, t); }
  }

  lemma AlignOnePv(net: Network, k: Work, t: Tensor, required: Permute)
    ensures AlignOne(net, k, t, required).pv == k.pv[t := required]
  {
  }

  lemma {:induction false} AlignAllLayout(net: Network, k: Work, ts: seq<Tensor>, required: Permute, u: Tensor)
    requires u !in ts
    ensures SameLayout(k, AlignAll(net, k, ts, required), u)
    decreases |ts|
  {
    if ts != [] {
      AlignOnePv(net, k, ts[0], required);
      assert ts == [ts[0]] + ts[1..];
      AlignAllLayout(net, AlignOne(net, k, ts[0], required), ts[1..], required, u);
    }
  }

  /** The layout fits the listed tensors, and constants can follow it. */
  ghost predicate Alignable(x: Setting, ts: seq<Tensor>, required: Permute) {
    Standard(x.net, required)
    && forall t | t in ts :: Fits(required, x.v(t).shape) && (t in x.net.s.constants ==> MovesConstants(required))
  }

  lemma RestAlignable(x: Setting, ts: seq<Tensor>, required: Permute)
    requires ts != [] && Alignable(x, ts, required)
    ensures Alignable(x, ts[1..], required) && Alignable(x, [ts[0]], required)
  {
  }

  lemma AlignStepOk(x: Setting, k: Work, plan: Plan, ts: seq<Tensor>, required: Permute) returns (plan': Plan)
    requires ts != [] && Sane(x, k, plan) && ConstantsKnown(x.net, x.v) && AllReadable(x, k, ts) && Alignable(x, ts, required)
    ensures var k1 := AlignOne(x.net, k, ts[0], required);
            && Sane(x, k1, plan') && Grows(plan, plan') && Holds(x, k1, plan', ts[0]) && k1.pv[ts[0]] == required
            && AllReadable(x, k1, ts[1..]) && Alignable(x, ts[1..], required)
  {
    var t := ts[0];
    assert Readable(x, k, t);
    ReadableMovable(x, k, plan, ts);
    RestAlignable(x, ts, required);
    plan' := AlignOneOk(x, k, plan, t, required);
    var more := AlignOneWrites(x.net, k, t, required);
    OthersStay(x, k, AlignOne(x.net, k, t, required), plan, plan', t, required, more);
    RestReadable(x, k, AlignOne(x.net, k, t, required), ts, required);
  }

  lemma {:induction false} AlignAllOk(x: Setting, k: Work, plan: Plan, ts: seq<Tensor>, required: Permute) returns (plan': Plan)
    requires Sane(x, k, plan) && ConstantsKnown(x.net, x.v) && AllReadable(x, k, ts) && Alignable(x, ts, required)
    ensures Sane(x, AlignAll(x.net, k, ts, required), plan') && Grows(plan, plan')
    ensures AllHold(x, AlignAll(x.net, k, ts, required), plan', ts, u => required)
    decreases |ts|
  {
    if ts == [] {
      plan' := plan;
    } else {
      var k1 := AlignOne(x.net, k, ts[0], required);
      var plan1 := AlignStepOk(x, k, plan, ts, required);
      plan' := AlignAllOk(x, k1, plan1, ts[1..], required);
      var r := AlignAll(x.net, k1, ts[1..], required);
      ReadableMovable(x, k1, plan1, ts[1..]);
      var more := AlignAllWrites(x.net, k1, ts[1..], required);
      if ts[0] !in ts[1..] { AlignAllLayout(x.net, k1, ts[1..], required, ts[0]); }
      HeadHolds(x, k1, r, plan1, plan', ts, u => required, more);
    }
  }

  lemma {:induction false} ReverseAllLayout(net: Network, k: Work, ts: seq<Tensor>, u: Tensor)
    requires u !in ts
    ensures SameLayout(k, ReverseAll(net, k, ts), u)
    decreases |ts|
  {
    if ts != [] {
      assert ts == [ts[0]] + ts[1..];
      ReverseAllLayout(net, ReverseOne(net, k, ts[0]), ts[1..], u);
    }
  }

  lemma ReverseStepOk(x: Setting, k: Work, plan: Plan, ts: seq<Tensor>) returns (plan': Plan)
    requires ts != [] && Sane(x, k, plan) && ConstantsKnown(x.net, x.v) && AllReadable(x, k, ts) && x.net.s.placeholders == {}
    requires forall t: Tensor :: 1 <= |x.v(t).shape|
    ensures var k1 := ReverseOne(x.net, k, ts[0]);
            && Sane(x, k1, plan') && Grows(plan, plan') && Holds(x, k1, plan', ts[0]) && k1.pv[ts[0]] == Identity(|x.v(ts[0]).shape|)
            && AllReadable(x, k1, ts[1..])
  {
    var t := ts[0];
    assert Readable(x, k, t);
    ReadableMovable(x, k, plan, ts);
    plan' := ReverseOneOk(x, k, plan, t);
    var more := ReverseOneWrites(x.net, k, t);
    OthersStay(x, k, ReverseOne(x.net, k, t), plan, plan', t, Identity(|x.v(t).shape|), more);
    RestReadable(x, k, ReverseOne(x.net, k, t), ts, Identity(|x.v(t).shape|));
  }

  lemma {:induction false} ReverseAllOk(x: Setting, k: Work, plan: Plan, ts: seq<Tensor>) returns (plan': Plan)
    requires Sane(x, k, plan) && ConstantsKnown(x.net, x.v) && AllReadable(x, k, ts) && x.net.s.placeholders == {}
    requires forall t: Tensor :: 1 <= |x.v(t).shape|
    ensures Sane(x, ReverseAll(x.net, k, ts), plan') && Grows(plan, plan')
    ensures AllHold(x, ReverseAll(x.net, k, ts), plan', ts, u => Identity(|x.v(u).shape|))
    decreases |ts|
  {
    if ts == [] {
      plan' := plan;
    } else {
      var k1 := ReverseOne(x.net, k, ts[0]);
      var plan1 := ReverseStepOk(x, k, plan, ts);
      plan' := ReverseAllOk(x, k1, plan1, ts[1..]);
      var r := ReverseAll(x.net, k1, ts[1..]);
      ReadableMovable(x, k1, plan1, ts[1..]);
      var more := ReverseAllWrites(x.net, k1, ts[1..]);
      if ts[0] !in ts[1..] { ReverseAllLayout(x.net, k1, ts[1..], ts[0]); }
      HeadHolds(x, k1, r, plan1, plan', ts, u => Identity(|x.v(u).shape|), more);
    }
  }

  // ---- outputs ----

  /** The output may be written: in its layout it fits, and if it takes the tensor it is mapped to,
      that is its own. */
  ghost predicate Creatable(x: Setting, k: Work, out: Tensor, p: Permute) {
    && Fits(p, x.v(out).shape) && Standard(x.net, p)
    && (TakesMapped(x.net, out, p) ==> out in x.own && out in k.tensorMap && k.tensorMap[out] == x.own[out])
  }

  /** What the tensor an output is written to stands for. */
  predicate StandsFor(x: Setting, plan: Plan, out: Tensor, p: Permute, d: Mapped) {
    && d in plan && plan[d].t == out && plan[d].p == p
    && if TakesMapped(x.net, out, p) then out in x.own && d == x.own[out] && plan[d].step == 1 else plan[d].step == 0
  }

  lemma CreateOneOk(x: Setting, k: Work, plan: Plan, out: Tensor, p: Permute) returns (plan': Plan)
    requires (forall m | m in plan :: MeantOk(x.v, k.infer.next, m, plan[m])) && (forall t | t in x.own :: Owned(x, plan, t))
    requires Creatable(x, k, out, p)
    ensures var (d, r) := CreateOutput(x.net, k, out, p);
            && Grows(plan, plan') && StandsFor(x, plan', out, p, d) && (forall m | m in plan' && m !in plan :: m == d)
            && (forall m | m in plan' :: MeantOk(x.v, r.infer.next, m, plan'[m])) && (forall t | t in x.own :: Owned(x, plan', t))
  {
    if TakesMapped(x.net, out, p) {
      plan' := plan;
      assert Owned(x, plan, out);
    } else {
      plan' := plan[k.infer.next := Meant(out, p, 0)];
      forall t | t in x.own ensures Owned(x, plan', t) { assert Owned(x, plan, t) && MeantOk(x.v, k.infer.next, x.own[t], plan[x.own[t]]); }
      forall m | m in plan' ensures MeantOk(x.v, k.infer.next + 1, m, plan'[m]) { assert m in plan ==> MeantOk(x.v, k.infer.next, m, plan[m]); }
    }
  }

  ghost predicate AllCreatable(x: Setting, k: Work, outs: seq<Tensor>, pvs: seq<Permute>)
    requires |pvs| == |outs|
  {
    forall i | 0 <= i < |outs| :: Creatable(x, k, outs[i], pvs[i])
  }

  ghost predicate AllStand(x: Setting, plan: Plan, outs: seq<Tensor>, pvs: seq<Permute>, ds: seq<Mapped>) {
    |pvs| == |outs| == |ds| && forall i | 0 <= i < |outs| :: StandsFor(x, plan, outs[i], pvs[i], ds[i])
  }

  lemma RestCreatable(x: Setting, k: Work, outs: seq<Tensor>, pvs: seq<Permute>)
    requires outs != [] && |pvs| == |outs| && NoDuplicates(outs) && AllCreatable(x, k, outs, pvs)
    ensures AllCreatable(x, CreateOutput(x.net, k, outs[0], pvs[0]).1, outs[1..], pvs[1..])
  {
    NoDuplicatesTail(outs);
    forall i | 0 <= i < |outs[1..]| ensures Creatable(x, CreateOutput(x.net, k, outs[0], pvs[0]).1, outs[1..][i], pvs[1..][i]) {
      assert Creatable(x, k, outs[i + 1], pvs[i + 1]) && outs[1..][i] in outs[1..];
    }
  }

  lemma {:induction false} CreateOk(x: Setting, k: Work, plan: Plan, outs: seq<Tensor>, pvs: seq<Permute>) returns (plan': Plan)
    requires (forall m | m in plan :: MeantOk(x.v, k.infer.next, m, plan[m])) && (forall t | t in x.own :: Owned(x, plan, t))
    requires |pvs| == |outs| && NoDuplicates(outs) && AllCreatable(x, k, outs, pvs)
    ensures var (ds, r) := CreateOutputs(x.net, k, outs, pvs);
            && Grows(plan, plan') && AllStand(x, plan', outs, pvs, ds) && (forall m | m in plan' && m !in plan :: m in ds)
            && (forall m | m in plan' :: MeantOk(x.v, r.infer.next, m, plan'[m])) && (forall t | t in x.own :: Owned(x, plan', t))
    decreases |outs|
  {
    if outs == [] {
      plan' := plan;
    } else {
      var (d, k1) := CreateOutput(x.net, k, outs[0], pvs[0]);
      var plan1 := CreateOneOk(x, k, plan, outs[0], pvs[0]);
      NoDuplicatesTail(outs);
      RestCreatable(x, k, outs, pvs);
      plan' := CreateOk(x, k1, plan1, outs[1..], pvs[1..]);
      var ds := CreateOutputs(x.net, k1, outs[1..], pvs[1..]).0;
      forall i | 0 <= i < |outs| ensures StandsFor(x, plan', outs[i], pvs[i], ([d] + ds)[i]) {
        if i > 0 { assert StandsFor(x, plan', outs[1..][i - 1], pvs[1..][i - 1], ds[i - 1]); }
      }
    }
  }
}
