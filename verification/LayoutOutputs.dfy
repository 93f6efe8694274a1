/** When graph outputs are kept, told from the graph and the layouts given, and a family of graphs
    in which one is lost. */
module LayoutOutputs {
  import opened GraphModel
  import opened Permutations
  import opened TensorLayout
  import opened LayoutWorklist
  import opened LayoutHandlers
  import opened LayoutWrites
  import opened LayoutRun

  // ---- everything aligned ----

  predicate AllAligned(k: Work) {
    forall t | t in k.pv :: Aligned(k.pv[t])
  }

  /** No layout but the aligned one is given, and none is asked for. */
  ghost predicate OnlyAligned(net: Network, given: map<Tensor, Permute>) {
    && (forall t | t in given :: Aligned(given[t])) && (forall o | o in net.family :: net.family[o] != Pooling(true))
  }

  /** The variable tensors stay mapped where they are. */
  ghost predicate Unmoved(net: Network, k: Work, r: Work) {
    forall t | t in k.tensorMap && t !in net.s.constants :: t in r.tensorMap && r.tensorMap[t] == k.tensorMap[t]
  }

  lemma AlignedRealigned(p: Permute, r: Permute)
    requires Aligned(p) && Aligned(r)
    ensures Aligned(Realigned(p, r))
  {
    if IsPerm(p) && IsPerm(r) && |p| == |r| { RealignVector(p, r); }
  }

  lemma AlignedPv(k: Work, t: Tensor)
    requires AllAligned(k)
    ensures Aligned(PvOf(k, t))
  {
  }

  lemma AlignOneAligned(net: Network, k: Work, t: Tensor, required: Permute)
    requires AllAligned(k) && Aligned(required) && Movable(net, k, t)
    ensures AllAligned(AlignOne(net, k, t, required)) && Unmoved(net, k, AlignOne(net, k, t, required))
  {
    AlignedPv(k, t);
    AlignedRealigned(PvOf(k, t), required);
  }

  lemma ReverseOneAligned(net: Network, k: Work, t: Tensor)
    requires AllAligned(k) && Movable(net, k, t) && net.s.placeholders == {}
    ensures AllAligned(ReverseOne(net, k, t)) && Unmoved(net, k, ReverseOne(net, k, t))
  {
    AlignedPv(k, t);
  }

  lemma {:induction false} AlignAllAligned(net: Network, k: Work, ts: seq<Tensor>, required: Permute)
    requires AllAligned(k) && Aligned(required) && forall t | t in ts :: Movable(net, k, t)
    ensures AllAligned(AlignAll(net, k, ts, required)) && Unmoved(net, k, AlignAll(net, k, ts, required))
    decreases |ts|
  {
    if ts != [] {
      var more := AlignOneWrites(net, k, ts[0], required);
      StillMovable(net, k, AlignOne(net, k, ts[0], required), ts, more);
      AlignOneAligned(net, k, ts[0], required);
      AlignAllAligned(net, AlignOne(net, k, ts[0], required), ts[1..], required);
    }
  }

  lemma {:induction false} ReverseAllAligned(net: Network, k: Work, ts: seq<Tensor>)
    requires AllAligned(k) && net.s.placeholders == {} && forall t | t in ts :: Movable(net, k, t)
    ensures AllAligned(ReverseAll(net, k, ts)) && Unmoved(net, k, ReverseAll(net, k, ts))
    decreases |ts|
  {
    if ts != [] {
      var more := ReverseOneWrites(net, k, ts[0]);
      StillMovable(net, k, ReverseOne(net, k, ts[0]), ts, more);
      ReverseOneAligned(net, k, ts[0]);
      ReverseAllAligned(net, ReverseOne(net, k, ts[0]), ts[1..]);
    }
  }

  lemma {:induction false} ReferenceAligned(net: Network, k: Work, ts: seq<Tensor>, best: Permute, rank: nat)
    requires AllAligned(k) && Aligned(best)
    ensures Aligned(ReferenceLayout(net, k, ts, best, rank))
    decreases |ts|
  {
    if ts != [] {
      AlignedPv(k, ts[0]);
      ReferenceAligned(net, k, ts[1..], PvOf(k, ts[0]), RankOf(net, ts[0]));
      ReferenceAligned(net, k, ts[1..], best, rank);
    }
  }

  /** Creating outputs leaves what is no output, and setting layouts lays out outputs only. */
  lemma RebuildAligned(net: Network, k: Work, o: Op, ins: seq<Tensor>, outs: seq<Tensor>, pvs: seq<Permute>)
    requires AllAligned(k) && |pvs| == |outs| && NoDuplicates(outs) && PlainMapped(net, k) && forall i | 0 <= i < |pvs| :: Aligned(pvs[i])
    ensures AllAligned(Rebuild(net, k, o, ins, outs, pvs))
    ensures forall t | t in k.tensorMap && (t in net.plainOutputs || t !in outs) ::
              t in Rebuild(net, k, o, ins, outs, pvs).tensorMap && Rebuild(net, k, o, ins, outs, pvs).tensorMap[t] == k.tensorMap[t]
  {
    var (ds, k1) := CreateOutputs(net, k, outs, pvs);
    var k2 := Append(k1, Rebuilt(o, MappedAll(k1, ins), ds));
    var r := SetLayouts(k2, outs, pvs);
    CreateWrites(net, k, outs, pvs);
    CreateKeepsLayouts(net, k, outs, pvs);
    SetLays(k2, outs, pvs);
    forall t | t in r.pv ensures Aligned(r.pv[t]) {
      if t in outs {
        var i :| 0 <= i < |outs| && outs[i] == t;
        SetLayoutsAt(k2, outs, pvs, i);
      } else {
        SetLayoutsOther(k2, outs, pvs, t);
      }
    }
    forall t | t in k.tensorMap && (t in net.plainOutputs || t !in outs) ensures t in r.tensorMap && r.tensorMap[t] == k.tensorMap[t] {
      if t in outs {
        var i :| 0 <= i < |outs| && outs[i] == t;
        assert CreatedFor(net, k, k1, outs[i], pvs[i], ds[i]);
      } else {
        assert Untouched(k, k1, t);
      }
    }
  }

  /** The plain graph outputs stay where they are. */
  ghost predicate OutputsStay(net: Network, k: Work, r: Work) {
    forall t | t in net.plainOutputs && t in k.tensorMap :: t in r.tensorMap && r.tensorMap[t] == k.tensorMap[t]
  }

  ghost predicate OutputsVary(net: Network) {
    forall t | t in net.plainOutputs :: t !in net.s.constants
  }

  lemma DefaultAligned(net: Network, k: Work, o: Op, n: Node)
    requires AllAligned(k) && Handleable(net, k, o, n) && OutputsVary(net)
    ensures AllAligned(OnDefault(net, k, o, n)) && OutputsStay(net, k, OnDefault(net, k, o, n))
  {
    ReverseAllAligned(net, k, n.inputs);
    var more := ReverseAllWrites(net, k, n.inputs);
    MovedPlain(net, k, ReverseAll(net, k, n.inputs), n.inputs, more);
    RebuildAligned(net, ReverseAll(net, k, n.inputs), o, n.inputs, n.outputs, DefaultLayouts(net, n.outputs));
  }

  lemma ElementwiseAligned(net: Network, k: Work, o: Op, n: Node)
    requires AllAligned(k) && Handleable(net, k, o, n) && OutputsVary(net) && OneOutput(n)
    ensures AllAligned(OnSingle(net, k, o, n, Elementwise)) && OutputsStay(net, k, OnSingle(net, k, o, n, Elementwise))
  {
    var required := ReferenceLayout(net, k, n.inputs, [], 0);
    ReferenceAligned(net, k, n.inputs, [], 0);
    AlignAllAligned(net, k, n.inputs, required);
    var more := AlignAllWrites(net, k, n.inputs, required);
    MovedPlain(net, k, AlignAll(net, k, n.inputs, required), n.inputs, more);
    RebuildAligned(net, AlignAll(net, k, n.inputs, required), o, n.inputs, [n.outputs[0]], [required]);
  }

  lemma SimpleAligned(net: Network, k: Work, o: Op, n: Node)
    requires AllAligned(k) && PlainMapped(net, k) && OneOutput(n)
    ensures AllAligned(OnSingle(net, k, o, n, Simple)) && OutputsStay(net, k, OnSingle(net, k, o, n, Simple))
  {
    AlignedPv(k, n.inputs[0]);
    RebuildAligned(net, k, o, [n.inputs[0]], [n.outputs[0]], [PvOf(k, n.inputs[0])]);
  }

  lemma TransposeAligned(net: Network, k: Work, o: Op, n: Node, perm: Permute)
    requires AllAligned(k) && PlainMapped(net, k) && OneOutput(n)
    ensures AllAligned(OnSingle(net, k, o, n, Transposing(perm))) && OutputsStay(net, k, OnSingle(net, k, o, n, Transposing(perm)))
  {
  }

  lemma PoolAlignedAligned(net: Network, k: Work, o: Op, n: Node)
    requires AllAligned(k) && PlainMapped(net, k) && OneOutput(n) && n.inputs[0] in k.tensorMap
    ensures AllAligned(OnSingle(net, k, o, n, Pooling(false))) && OutputsStay(net, k, OnSingle(net, k, o, n, Pooling(false)))
  {
    AlignedPv(k, n.inputs[0]);
    AlignedRealigned(PvOf(k, n.inputs[0]), Identity(4));
  }

  lemma InputsAligned(net: Network, k: Work, o: Op, n: Node)
    requires AllAligned(k) && Handleable(net, k, o, n) && OutputsVary(net) && (o in net.family ==> net.family[o] != Pooling(true))
    ensures AllAligned(OnInputs(net, k, o, n)) && OutputsStay(net, k, OnInputs(net, k, o, n))
  {
    if o in net.family && OneOutput(n) {
      match net.family[o]
      case Default => DefaultAligned(net, k, o, n);
      case Simple => SimpleAligned(net, k, o, n);
      case Transposing(perm) => TransposeAligned(net, k, o, n, perm);
      case Elementwise => ElementwiseAligned(net, k, o, n);
      case Pooling(channelFirst) => PoolAlignedAligned(net, k, o, n);
    } else {
      DefaultAligned(net, k, o, n);
    }
  }

  lemma {:induction false} FinishAligned(net: Network, own: map<Tensor, Mapped>, k: Work, outs: seq<Tensor>)
    requires AllAligned(k)
    ensures AllAligned(FinishOutputs(net, own, k, outs)) && FinishOutputs(net, own, k, outs).tensorMap == k.tensorMap
    decreases |outs|
  {
    if outs != [] {
      AlignedPv(k, outs[0]);
      FinishAligned(net, own, FinishOutput(net, own, k, outs[0]), outs[1..]);
    }
  }

  /** The output is mapped to its own tensor. */
  predicate PlacedAt(c: Context<Emit>, t: Tensor) {
    t in c.outputMap && t in c.tensorMap && c.tensorMap[t] == c.outputMap[t]
  }

  predicate Placed(c: Context<Emit>) {
    forall t | t in c.outputMap :: PlacedAt(c, t)
  }

  /** All layouts are aligned, and every output is mapped to its own tensor. */
  predicate AlignedContext(c: Context<Emit>) {
    AllAligned(WorkOf(c)) && Placed(c)
  }

  lemma StepAligned(net: Network, c: Context<Emit>, o: Op, c': Context<Emit>)
    requires Regular(net) && OutputsVary(net) && Running(net, c) && Step(net, c, o, c') && AlignedContext(c)
    requires o in net.family ==> net.family[o] != Pooling(true)
    ensures AlignedContext(c')
  {
    var k, n := WorkOf(c), net.s.g.node[o];
    StepWork(net, c, o);
    ReadyHandleable(net, c, o);
    InputsAligned(net, k, o, n);
    FinishAligned(net, c.outputMap, OnInputs(net, k, o, n), n.outputs);
    forall t | t in c'.outputMap ensures PlacedAt(c', t) { assert PlacedAt(c, t) && t in net.plainOutputs; }
  }

  ghost predicate AlignedRunning(net: Network, c: Context<Emit>)
    requires HasNodes(net.s.g)
  {
    Running(net, c) && AlignedContext(c)
  }

  /** The graphs in which no operation asks for another layout. */
  ghost predicate AlignedNetwork(net: Network) {
    Regular(net) && OutputsVary(net) && forall o | o in net.family :: net.family[o] != Pooling(true)
  }

  lemma StepAlignedRunning(net: Network, c: Context<Emit>, o: Op, c': Context<Emit>)
    requires AlignedNetwork(net) && AlignedRunning(net, c) && Step(net, c, o, c')
    ensures AlignedRunning(net, c')
  {
    StepRunning(net, c, o, c');
    StepAligned(net, c, o, c');
  }

  lemma RunAligned(net: Network, trace: Trace, ops: seq<Op>, i: nat)
    requires AlignedNetwork(net) && Run(net, trace, ops) && AlignedRunning(net, trace[0]) && i <= |ops|
    ensures AlignedRunning(net, trace[i])
  {
    var keep := (j: nat) => j <= |ops| && AlignedRunning(net, trace[j]);
    forall j: nat | j < |ops| && keep(j) ensures keep(j + 1) {
      StepAlignedRunning(net, trace[j], ops[j], trace[j + 1]);
    }
    Along(keep, |ops|, i);
  }

  lemma {:induction false} AddInputsAligned(net: Network, given: map<Tensor, Permute>, c: Context<Emit>, ts: seq<Tensor>)
    requires AllAligned(WorkOf(c)) && forall t | t in given :: Aligned(given[t])
    ensures AllAligned(WorkOf(AddInputs(net, given, c, ts)))
    decreases |ts|
  {
    if ts != [] { AddInputsAligned(net, given, AddInput(net, given, c, ts[0]), ts[1..]); }
  }

  lemma {:induction false} AddSourcesAligned(net: Network, given: map<Tensor, Permute>, c: Context<Emit>, ts: seq<Tensor>)
    requires AllAligned(WorkOf(c)) && forall t | t in given :: Aligned(given[t])
    ensures AllAligned(WorkOf(AddSources(net, given, c, ts)))
    decreases |ts|
  {
    if ts != [] { AddSourcesAligned(net, given, AddSource(net, given, c, ts[0]), ts[1..]); }
  }

  lemma {:induction false} AddOutputsPlaced(net: Network, given: map<Tensor, Permute>, c: Context<Emit>, ts: seq<Tensor>)
    requires Placed(c)
    ensures Placed(AddOutputs(net, given, c, ts))
    decreases |ts|
  {
    if ts != [] {
      var c1 := AddOutput(net, given, c, ts[0]);
      forall t | t in c1.outputMap ensures PlacedAt(c1, t) { assert t != ts[0] ==> PlacedAt(c, t); }
      AddOutputsPlaced(net, given, c1, ts[1..]);
    }
  }

  lemma {:induction false} AddOutputsAligned(net: Network, given: map<Tensor, Permute>, c: Context<Emit>, ts: seq<Tensor>)
    requires AllAligned(WorkOf(c)) && forall t | t in given :: Aligned(given[t])
    ensures AllAligned(WorkOf(AddOutputs(net, given, c, ts)))
    decreases |ts|
  {
    if ts != [] { AddOutputsAligned(net, given, AddOutput(net, given, c, ts[0]), ts[1..]); }
  }

  lemma SetUpPlaced(net: Network, given: map<Tensor, Permute>)
    requires HasNodes(net.s.g)
    ensures Placed(SetUp(net, given))
  {
    var c1 := AddInputs(net, given, FreshContext(net.s), net.s.inputs);
    var c2 := AddSources(net, given, c1, ConstantInputs(net.s, net.s.g.ops));
    AddInputsFrame(net, given, FreshContext(net.s), net.s.inputs);
    AddSourcesFrame(net, given, c1, ConstantInputs(net.s, net.s.g.ops));
    AddOutputsPlaced(net, given, c2, net.s.outputs);
  }

  lemma SetUpAligned(net: Network, given: map<Tensor, Permute>)
    requires HasNodes(net.s.g) && forall t | t in given :: Aligned(given[t])
    ensures AlignedContext(SetUp(net, given))
  {
    var c1 := AddInputs(net, given, FreshContext(net.s), net.s.inputs);
    var c2 := AddSources(net, given, c1, ConstantInputs(net.s, net.s.g.ops));
    AddInputsAligned(net, given, FreshContext(net.s), net.s.inputs);
    AddSourcesAligned(net, given, c1, ConstantInputs(net.s, net.s.g.ops));
    AddOutputsAligned(net, given, c2, net.s.outputs);
    SetUpPlaced(net, given);
  }

  lemma AlignedKeepsAll(net: Network, c: Context<Emit>, o: Op)
    requires Owners(net, c.outputMap) && AlignedContext(c) && o in net.s.g.node
    ensures KeepsAll(net, c, o)
  {
    forall t | t in net.s.outputs && t in net.s.g.node[o].outputs ensures Keeps(net, c, o, t) {
      assert t in c.outputMap && PlacedAt(c, t);
    }
  }

  /** With no layout but the aligned one given or asked for, every graph output is kept, whatever
      the order in which operations are handled. */
  lemma AlignedKeeps(net: Network, given: map<Tensor, Permute>)
    requires Regular(net) && OutputsVary(net) && OnlyAligned(net, given)
    ensures AllKept(net, PassTrace(net, given), Order(net, given))
  {
    var trace, ops := PassTrace(net, given), Order(net, given);
    PassRuns(net, given);
    SetUpRunning(net, given);
    SetUpAligned(net, given);
    forall i | 0 <= i < |ops| ensures KeepsAll(net, trace[i], ops[i]) {
      RunAligned(net, trace, ops, i);
      assert Step(net, trace[i], ops[i], trace[i + 1]);
      AlignedKeepsAll(net, trace[i], ops[i]);
    }
  }

  // ---- outputs written before they are read ----

  /** An output that nobody has read nor, unless nobody reads it at all, written so far. */
  ghost predicate Waiting(net: Network, done: set<Op>, t: Tensor)
    requires HasNodes(net.s.g)
  {
    t in net.s.outputs && (ConsumersOf(net.s.g, t) == [] || !WrittenBy(net.s, done, t))
  }

  ghost predicate WaitingPlaced(net: Network, c: Context<Emit>, done: set<Op>)
    requires HasNodes(net.s.g)
  {
    forall t | Waiting(net, done, t) :: PlacedAt(c, t)
  }

  lemma StepWaitingAt(net: Network, c: Context<Emit>, o: Op, c': Context<Emit>, done: set<Op>, t: Tensor)
    requires Regular(net) && Running(net, c) && Step(net, c, o, c') && OutputsInOrder(net.s, done, o)
    requires WaitingPlaced(net, c, done) && Waiting(net, done + {o}, t)
    ensures PlacedAt(c', t)
  {
    StepWork(net, c, o);
    ReadyHandleable(net, c, o);
    StepOutputAt(net, c.outputMap, WorkOf(c), o, net.s.g.node[o], t);
    HandleWrites(net.s, done, o, t);
    assert t in net.s.g.node[o].inputs ==> o in ConsumersOf(net.s.g, t);
    assert Waiting(net, done, t) && PlacedAt(c, t);
  }

  lemma StepWaiting(net: Network, c: Context<Emit>, o: Op, c': Context<Emit>, done: set<Op>)
    requires Regular(net) && Running(net, c) && Step(net, c, o, c') && OutputsInOrder(net.s, done, o) && WaitingPlaced(net, c, done)
    ensures WaitingPlaced(net, c', done + {o})
  {
    forall t | Waiting(net, done + {o}, t) ensures PlacedAt(c', t) {
      StepWaitingAt(net, c, o, c', done, t);
    }
  }

  lemma InOrderAt(s: Source, ops: seq<Op>, i: nat)
    requires HasNodes(s.g) && WritesFirst(s, ops) && i < |ops|
    ensures ops[i] in s.g.node && OutputsInOrder(s, Before(ops, i), ops[i])
  {
  }

  ghost predicate WaitingRunning(net: Network, c: Context<Emit>, done: set<Op>)
    requires HasNodes(net.s.g)
  {
    Running(net, c) && WaitingPlaced(net, c, done)
  }

  lemma StepWaitingRunning(net: Network, c: Context<Emit>, o: Op, c': Context<Emit>, done: set<Op>)
    requires Regular(net) && WaitingRunning(net, c, done) && Step(net, c, o, c') && OutputsInOrder(net.s, done, o)
    ensures WaitingRunning(net, c', done + {o})
  {
    StepRunning(net, c, o, c');
    StepWaiting(net, c, o, c', done);
  }

  lemma NextWaiting(net: Network, c: Context<Emit>, o: Op, c': Context<Emit>, ops: seq<Op>, i: nat)
    requires Regular(net) && WritesFirst(net.s, ops) && i < |ops| && ops[i] == o && Step(net, c, o, c')
    requires WaitingRunning(net, c, Before(ops, i))
    ensures WaitingRunning(net, c', Before(ops, i + 1))
  {
    BeforeMore(ops, i + 1);
    InOrderAt(net.s, ops, i);
    StepWaitingRunning(net, c, o, c', Before(ops, i));
  }

  lemma RunWaiting(net: Network, trace: Trace, ops: seq<Op>, i: nat)
    requires Regular(net) && Run(net, trace, ops) && i <= |ops| && WritesFirst(net.s, ops)
    requires WaitingRunning(net, trace[0], Before(ops, 0))
    ensures WaitingRunning(net, trace[i], Before(ops, i))
  {
    var keep := (j: nat) => j <= |ops| && WaitingRunning(net, trace[j], Before(ops, j));
    forall j: nat | j < |ops| && keep(j) ensures keep(j + 1) {
      NextWaiting(net, trace[j], ops[j], trace[j + 1], ops, j);
    }
    Along(keep, |ops|, i);
  }

  lemma WaitingKeepsAll(net: Network, c: Context<Emit>, done: set<Op>, o: Op)
    requires WellLinked(net.s) && o in net.s.g.ops && WaitingPlaced(net, c, done) && OutputsInOrder(net.s, done, o)
    ensures KeepsAll(net, c, o)
  {
    forall t | t in net.s.outputs && t in net.s.g.node[o].outputs ensures Keeps(net, c, o, t) {
      assert Waiting(net, done, t) && PlacedAt(c, t);
    }
  }

  /** Outputs that are written before they are read are kept. */
  lemma WritesFirstKeeps(net: Network, given: map<Tensor, Permute>)
    requires Regular(net) && WritesFirst(net.s, Order(net, given))
    ensures AllKept(net, PassTrace(net, given), Order(net, given))
  {
    var trace, ops := PassTrace(net, given), Order(net, given);
    PassRuns(net, given);
    SetUpRunning(net, given);
    SetUpPlaced(net, given);
    forall t | Waiting(net, Before(ops, 0), t) ensures PlacedAt(trace[0], t) { assert t in trace[0].outputMap; }
    forall i | 0 <= i < |ops| ensures KeepsAll(net, trace[i], ops[i]) {
      RunWaiting(net, trace, ops, i);
      assert Step(net, trace[i], ops[i], trace[i + 1]);
      WaitingKeepsAll(net, trace[i], Before(ops, i), ops[i]);
    }
  }

  // ---- an early reader that wants another layout ----

  /** Whatever the context, the operation wants its outputs aligned. */
  predicate WantsAligned(net: Network, o: Op, n: Node) {
    o !in net.family || !OneOutput(n) || net.family[o] == Default || net.family[o].Transposing? || net.family[o] == Pooling(false)
  }

  lemma DefaultWanted(net: Network, k: Work, o: Op, n: Node, t: Tensor)
    requires NoDuplicates(n.outputs) && t in n.outputs
    ensures Aligned(PvOf(OnDefault(net, k, o, n), t))
  {
    var k1, pvs := ReverseAll(net, k, n.inputs), DefaultLayouts(net, n.outputs);
    var (ds, k2) := CreateOutputs(net, k1, n.outputs, pvs);
    var i :| 0 <= i < |n.outputs| && n.outputs[i] == t;
    SetLayoutsAt(Append(k2, Rebuilt(o, MappedAll(k2, n.inputs), ds)), n.outputs, pvs, i);
  }

  lemma AlignedWanted(net: Network, k: Work, o: Op, n: Node, t: Tensor)
    requires NoDuplicates(n.outputs) && t in n.outputs && WantsAligned(net, o, n)
    ensures Aligned(PvOf(OnInputs(net, k, o, n), t))
  {
    DefaultWanted(net, k, o, n, t);
    if o in net.family && OneOutput(n) {
      assert n.outputs == [n.outputs[0]] && t == n.outputs[0];
    }
  }

  /** All writers of the output want it aligned. */
  predicate WrittenAligned(net: Network, t: Tensor) {
    forall o | o in net.s.g.node && t in net.s.g.node[o].outputs :: WantsAligned(net, o, net.s.g.node[o])
  }

  /** The output is no longer mapped to its own tensor. */
  predicate Displaced(c: Context<Emit>, t: Tensor) {
    t in c.outputMap && t in c.tensorMap && c.tensorMap[t] != c.outputMap[t]
  }

  lemma DisplacedStays(net: Network, c: Context<Emit>, o: Op, c': Context<Emit>, t: Tensor)
    requires Regular(net) && Running(net, c) && Step(net, c, o, c') && WrittenAligned(net, t) && Displaced(c, t)
    ensures Displaced(c', t) && !WritesKept(net, c, o, t)
  {
    var n := net.s.g.node[o];
    StepWork(net, c, o);
    ReadyHandleable(net, c, o);
    StepOutputAt(net, c.outputMap, WorkOf(c), o, n, t);
    if t in n.outputs { AlignedWanted(net, WorkOf(c), o, n, t); }
  }

  lemma DisplacedOn(net: Network, trace: Trace, ops: seq<Op>, j: nat, t: Tensor)
    requires Regular(net) && Run(net, trace, ops) && Running(net, trace[0]) && j < |ops|
    requires WrittenAligned(net, t) && Displaced(trace[j], t)
    ensures Displaced(trace[j + 1], t) && !WritesKept(net, trace[j], ops[j], t)
  {
    RunRunning(net, trace, ops, j);
    assert Step(net, trace[j], ops[j], trace[j + 1]);
    DisplacedStays(net, trace[j], ops[j], trace[j + 1], t);
  }

  lemma {:induction false} RunDisplaced(net: Network, trace: Trace, ops: seq<Op>, i: nat, j: nat, t: Tensor)
    requires Regular(net) && Run(net, trace, ops) && Running(net, trace[0]) && i <= j <= |ops|
    requires WrittenAligned(net, t) && Displaced(trace[i], t)
    ensures Displaced(trace[j], t) && (SomeKept(net, trace, ops, j, t) ==> SomeKept(net, trace, ops, i, t))
    decreases j
  {
    if i < j {
      RunDisplaced(net, trace, ops, i, j - 1, t);
      DisplacedOn(net, trace, ops, j - 1, t);
    }
  }

  lemma {:induction false} KeptIsWritten(net: Network, trace: Trace, ops: seq<Op>, i: nat, t: Tensor)
    requires Run(net, trace, ops) && i <= |ops| && SomeKept(net, trace, ops, i, t)
    ensures WrittenBy(net.s, Before(ops, i), t)
  {
    BeforeMore(ops, i);
    assert Step(net, trace[i - 1], ops[i - 1], trace[i]);
    if SomeKept(net, trace, ops, i - 1, t) { KeptIsWritten(net, trace, ops, i - 1, t); }
  }

  /** Once an output that nobody has written is displaced, and its writers want it aligned, the
      tensor handed to the caller for it is never written. */
  lemma DisplacedIsLost(net: Network, given: map<Tensor, Permute>, i: nat, t: Tensor)
    requires Regular(net) && t in net.s.outputs && WrittenAligned(net, t) && i <= |Order(net, given)|
    requires Displaced(PassTrace(net, given)[i], t) && !WrittenBy(net.s, Before(Order(net, given), i), t)
    ensures var c := InferLayout(net, given); t in IoMap(c) && IoMap(c)[t] !in Dsts(c.infer.emitted)
  {
    var trace, ops := PassTrace(net, given), Order(net, given);
    PassRuns(net, given);
    SetUpRunning(net, given);
    OutputOwned(net, given, trace[0], t);
    RunFrame(net, trace, ops, |ops|);
    OutputOwned(net, given, trace[|ops|], t);
    WrittenBefore(net, trace, ops, |ops|, t);
    RunDisplaced(net, trace, ops, i, |ops|, t);
    if SomeKept(net, trace, ops, i, t) { KeptIsWritten(net, trace, ops, i, t); }
  }

  lemma AlignOneDisplaces(net: Network, k: Work, required: Permute, t: Tensor)
    requires t in k.tensorMap && t !in net.s.constants && !Aligned(Realigned(PvOf(k, t), required))
    ensures t in AlignOne(net, k, t, required).tensorMap && AlignOne(net, k, t, required).tensorMap[t] == k.infer.next
  {
  }

  lemma AlignOneElsewhere(net: Network, k: Work, u: Tensor, required: Permute, t: Tensor)
    requires t != u
    ensures PvOf(AlignOne(net, k, u, required), t) == PvOf(k, t)
  {
  }

  lemma AlignFirst(net: Network, k: Work, ts: seq<Tensor>, required: Permute) returns (k1: Work, more: seq<Mapped>)
    requires ts != [] && forall u | u in ts :: Movable(net, k, u)
    ensures AlignAll(net, k, ts, required) == AlignAll(net, k1, ts[1..], required) && k1 == AlignOne(net, k, ts[0], required)
    ensures Moves(k, k1, ts[0], more) && forall u | u in ts[1..] :: Movable(net, k1, u)
  {
    k1 := AlignOne(net, k, ts[0], required);
    more := AlignOneWrites(net, k, ts[0], required);
    StillMovable(net, k, k1, ts, more);
  }

  lemma HeadDisplaces(net: Network, k: Work, ts: seq<Tensor>, required: Permute)
    requires (forall u | u in ts :: Movable(net, k, u)) && ts != [] && ts[0] in k.tensorMap && ts[0] !in net.s.constants
    requires !Aligned(Realigned(PvOf(k, ts[0]), required))
    ensures ts[0] in AlignAll(net, k, ts, required).tensorMap && AlignAll(net, k, ts, required).tensorMap[ts[0]] >= k.infer.next
  {
    var k1, more := AlignFirst(net, k, ts, required);
    AlignOneDisplaces(net, k, required, ts[0]);
    var rest := AlignAllWrites(net, k1, ts[1..], required);
    StaysAbove(k.infer.next, k1, AlignAll(net, k1, ts[1..], required), ts[1..], rest, ts[0]);
  }

  /** A tensor that is brought into another layout is mapped to a new tensor. */
  lemma {:induction false} AlignAllDisplaces(net: Network, k: Work, ts: seq<Tensor>, required: Permute, t: Tensor)
    requires (forall u | u in ts :: Movable(net, k, u)) && t in ts && t in k.tensorMap && t !in net.s.constants
    requires !Aligned(Realigned(PvOf(k, t), required))
    ensures t in AlignAll(net, k, ts, required).tensorMap && AlignAll(net, k, ts, required).tensorMap[t] >= k.infer.next
    decreases |ts|
  {
    if ts[0] == t {
      HeadDisplaces(net, k, ts, required);
    } else {
      var k1, more := AlignFirst(net, k, ts, required);
      assert ts == [ts[0]] + ts[1..] && Untouched(k, k1, t);
      AlignOneElsewhere(net, k, ts[0], required, t);
      AlignAllDisplaces(net, k1, ts[1..], required, t);
    }
  }

  lemma StaysAbove(m: Mapped, k: Work, r: Work, ts: seq<Tensor>, more: seq<Mapped>, t: Tensor)
    requires MovesAll(k, r, ts, more) && t in k.tensorMap && k.tensorMap[t] >= m && k.infer.next >= m
    ensures t in r.tensorMap && r.tensorMap[t] >= m
  {
    assert t in ts || Untouched(k, r, t);
  }

  /** r is element-wise, ready at the start with a graph input, and wants the graph output t it
      reads in another layout than the one t has then. */
  ghost predicate RelaysAtStart(net: Network, given: map<Tensor, Permute>, r: Op, t: Tensor)
    requires WellLinked(net.s)
  {
    && r in net.s.g.ops && r in net.family && net.family[r] == Elementwise && OneOutput(net.s.g.node[r])
    && ReadyAtStart(net.s, r) && t in net.s.g.node[r].inputs && t in net.s.outputs && t !in net.s.constants
    && !Aligned(Realigned(StartLayout(net, given, t), StartReference(net, given, net.s.g.node[r].inputs)))
  }

  /** The layouts before anything is handled, and what an element-wise reader makes of them. */
  function StartLayout(net: Network, given: map<Tensor, Permute>, t: Tensor): Permute
    requires HasNodes(net.s.g)
  {
    PvOf(WorkOf(SetUp(net, given)), t)
  }

  function StartReference(net: Network, given: map<Tensor, Permute>, ts: seq<Tensor>): Permute
    requires HasNodes(net.s.g)
  {
    ReferenceLayout(net, WorkOf(SetUp(net, given)), ts, [], 0)
  }

  lemma ReaderDisplaces(net: Network, c: Context<Emit>, r: Op, c': Context<Emit>, t: Tensor)
    requires Regular(net) && Running(net, c) && Step(net, c, r, c') && t in net.s.outputs && t !in net.s.constants
    requires r in net.family && net.family[r] == Elementwise && OneOutput(net.s.g.node[r]) && t in net.s.g.node[r].inputs
    requires !Aligned(Realigned(PvOf(WorkOf(c), t), ReferenceLayout(net, WorkOf(c), net.s.g.node[r].inputs, [], 0)))
    ensures Displaced(c', t)
  {
    var n, k := net.s.g.node[r], WorkOf(c);
    var required := ReferenceLayout(net, k, n.inputs, [], 0);
    var k1 := AlignAll(net, k, n.inputs, required);
    StepWork(net, c, r);
    ReadyHandleable(net, c, r);
    AlignAllDisplaces(net, k, n.inputs, required, t);
    RebuiltElsewhere(net, k1, r, n.inputs, n.outputs[0], required, t);
    assert OnInputs(net, k, r, n) == Rebuild(net, k1, r, n.inputs, [n.outputs[0]], [required]);
    FinishPlaces(net, c.outputMap, OnInputs(net, k, r, n), n.outputs, t);
  }

  lemma RebuiltElsewhere(net: Network, k: Work, o: Op, ins: seq<Tensor>, out: Tensor, p: Permute, t: Tensor)
    requires t != out
    ensures Untouched(k, Rebuild(net, k, o, ins, [out], [p]), t)
  {
    OneCreated(net, k, out, p);
    var (ds, k1) := CreateOutputs(net, k, [out], [p]);
    SetLays(Append(k1, Rebuilt(o, MappedAll(k1, ins), ds)), [out], [p]);
  }

  // ---- other orders of the same graph ----

  lemma RegularSame(net: Network, z: Source)
    requires Regular(net) && WellLinked(z) && SameUpToOrder(net.s, z)
    ensures Regular(net.(s := z))
  {
  }

  lemma {:induction false} AddInputsLayout(net: Network, given: map<Tensor, Permute>, c: Context<Emit>, ts: seq<Tensor>, t: Tensor)
    requires t in c.pv ==> c.pv[t] == InitialLayout(net, given, t)
    ensures var r := AddInputs(net, given, c, ts); t in r.pv ==> r.pv[t] == InitialLayout(net, given, t)
    decreases |ts|
  {
    if ts != [] { AddInputsLayout(net, given, AddInput(net, given, c, ts[0]), ts[1..], t); }
  }

  lemma {:induction false} AddSourcesLayout(net: Network, given: map<Tensor, Permute>, c: Context<Emit>, ts: seq<Tensor>, t: Tensor)
    requires t in c.pv ==> c.pv[t] == InitialLayout(net, given, t)
    ensures var r := AddSources(net, given, c, ts); t in r.pv ==> r.pv[t] == InitialLayout(net, given, t)
    decreases |ts|
  {
    if ts != [] { AddSourcesLayout(net, given, AddSource(net, given, c, ts[0]), ts[1..], t); }
  }

  lemma {:induction false} AddOutputsLayout(net: Network, given: map<Tensor, Permute>, c: Context<Emit>, ts: seq<Tensor>, t: Tensor)
    requires t in c.pv ==> c.pv[t] == InitialLayout(net, given, t)
    ensures var r := AddOutputs(net, given, c, ts); t in r.pv ==> r.pv[t] == InitialLayout(net, given, t)
    decreases |ts|
  {
    if ts != [] { AddOutputsLayout(net, given, AddOutput(net, given, c, ts[0]), ts[1..], t); }
  }

  /** Seeds and graph outputs start in the layout given or the default one, other tensors in none. */
  lemma StartLayoutIs(net: Network, given: map<Tensor, Permute>, t: Tensor)
    requires HasNodes(net.s.g)
    ensures StartLayout(net, given, t) == if Seed(net.s, t) || t in net.s.outputs then InitialLayout(net, given, t) else []
  {
    var c1 := AddInputs(net, given, FreshContext(net.s), net.s.inputs);
    var c2 := AddSources(net, given, c1, ConstantInputs(net.s, net.s.g.ops));
    AddInputsLayout(net, given, FreshContext(net.s), net.s.inputs, t);
    AddSourcesLayout(net, given, c1, ConstantInputs(net.s, net.s.g.ops), t);
    AddOutputsLayout(net, given, c2, net.s.outputs, t);
    SetUpStarts(net, given);
  }

  /** After the set-up loops a seed or graph output is laid out as the caller says, or its dimensions
      stand in their order; a scalar counts one. */
  lemma SetUpLayouts(net: Network, given: map<Tensor, Permute>, t: Tensor)
    requires HasNodes(net.s.g) && (Seed(net.s, t) || t in net.s.outputs)
    ensures var c := SetUp(net, given);
            && t in c.pv && (t in given ==> c.pv[t] == given[t])
            && (t !in given ==>
                  |c.pv[t]| == (if RankOf(net, t) == 0 then 1 else RankOf(net, t)) && forall i | 0 <= i < |c.pv[t]| :: c.pv[t][i] == i)
  {
    SetUpStarts(net, given);
    StartLayoutIs(net, given, t);
  }

  lemma StartLayoutSame(net: Network, given: map<Tensor, Permute>, z: Source, t: Tensor)
    requires WellLinked(net.s) && WellLinked(z) && SameUpToOrder(net.s, z)
    ensures StartLayout(net.(s := z), given, t) == StartLayout(net, given, t)
  {
    StartLayoutIs(net, given, t);
    StartLayoutIs(net.(s := z), given, t);
    SeedsSame(net.s, z, t);
  }

  lemma {:induction false} ReferenceSame(net: Network, net': Network, k: Work, k': Work, ts: seq<Tensor>, best: Permute, rank: nat)
    requires net'.s.constants == net.s.constants && net'.shape == net.shape && forall t :: PvOf(k', t) == PvOf(k, t)
    ensures ReferenceLayout(net', k', ts, best, rank) == ReferenceLayout(net, k, ts, best, rank)
    decreases |ts|
  {
    if ts != [] {
      ReferenceSame(net, net', k, k', ts[1..], PvOf(k, ts[0]), RankOf(net, ts[0]));
      ReferenceSame(net, net', k, k', ts[1..], best, rank);
    }
  }

  lemma ReferenceStartSame(net: Network, given: map<Tensor, Permute>, z: Source, ts: seq<Tensor>)
    requires WellLinked(net.s) && WellLinked(z) && SameUpToOrder(net.s, z)
    ensures StartReference(net.(s := z), given, ts) == StartReference(net, given, ts)
  {
    var k, k' := WorkOf(SetUp(net, given)), WorkOf(SetUp(net.(s := z), given));
    forall u ensures PvOf(k', u) == PvOf(k, u) { StartLayoutSame(net, given, z, u); }
    ReferenceSame(net, net.(s := z), k, k', ts, [], 0);
  }

  /** With the reader first in the lists, it is handled first. */
  lemma FavouredPass(net: Network, given: map<Tensor, Permute>, z: Source, r: Op)
    requires WellLinked(net.s) && WellLinked(z) && SameUpToOrder(net.s, z) && r in net.s.g.ops && ReadyAtStart(net.s, r)
    requires z.inputs != [] && ConsumersOf(z.g, z.inputs[0]) != [] && ConsumersOf(z.g, z.inputs[0])[0] == r
    ensures [r] <= Order(net.(s := z), given)
  {
    var c := SetUp(net.(s := z), given);
    SetUpStarts(net.(s := z), given);
    forall t ensures Seed(net.s, t) <==> Seed(z, t) { SeedsSame(net.s, z, t); }
    FirstReaderWins(z, HandlerFor(net.(s := z)), c, QueueOf(z));
  }

  /** A family of failing inputs: whenever a graph output is read by an element-wise operation that
      is ready at the start and wants it in another layout, and its writers want it aligned, there
      is an order of the graph inputs and of the lists of readers in which nobody writes the tensor
      handed to the caller for it. */
  lemma EarlyReaderLoses(net: Network, given: map<Tensor, Permute>, r: Op, t: Tensor) returns (z: Source)
    requires Regular(net) && RelaysAtStart(net, given, r, t) && WrittenAligned(net, t)
    ensures WellLinked(z) && SameUpToOrder(net.s, z) && Regular(net.(s := z)) && t in z.outputs
    ensures var c := InferLayout(net.(s := z), given); t in IoMap(c) && IoMap(c)[t] !in Dsts(c.infer.emitted)
  {
    var u :| u in net.s.g.node[r].inputs && u in net.s.inputs;
    var i :| 0 <= i < |ConsumersOf(net.s.g, u)| && ConsumersOf(net.s.g, u)[i] == r;
    var j :| 0 <= j < |net.s.inputs| && net.s.inputs[j] == u;
    z := Favouring(net.s, i, j);
    FavouringSame(net.s, i, j);
    FavouredFirst(net.s, i, j);
    FavouredPass(net, given, z, r);
    RegularSame(net, z);
    StartLayoutSame(net, given, z, t);
    ReferenceStartSame(net, given, z, net.s.g.node[r].inputs);
    FirstDisplaces(net.(s := z), given, r, t);
  }

  lemma FirstDisplaces(net: Network, given: map<Tensor, Permute>, r: Op, t: Tensor)
    requires Regular(net) && [r] <= Order(net, given) && r in net.s.g.ops && t in net.s.outputs && t !in net.s.constants
    requires r in net.family && net.family[r] == Elementwise && OneOutput(net.s.g.node[r]) && t in net.s.g.node[r].inputs
    requires !Aligned(Realigned(StartLayout(net, given, t), StartReference(net, given, net.s.g.node[r].inputs)))
    requires WrittenAligned(net, t)
    ensures var c := InferLayout(net, given); t in IoMap(c) && IoMap(c)[t] !in Dsts(c.infer.emitted)
  {
    PassRuns(net, given);
    SetUpRunning(net, given);
    FirstStep(net, PassTrace(net, given), Order(net, given), r, t);
    DisplacedIsLost(net, given, 1, t);
  }

  /** If the reader comes first as things are, the output is lost. */
  lemma RelayLoses(net: Network, given: map<Tensor, Permute>, r: Op, t: Tensor)
    requires Regular(net) && RelaysAtStart(net, given, r, t) && WrittenAligned(net, t) && [r] <= Order(net, given)
    ensures var c := InferLayout(net, given); t in IoMap(c) && IoMap(c)[t] !in Dsts(c.infer.emitted)
  {
    FirstDisplaces(net, given, r, t);
  }

  lemma FirstStep(net: Network, trace: Trace, ops: seq<Op>, r: Op, t: Tensor)
    requires Regular(net) && Run(net, trace, ops) && Running(net, trace[0]) && [r] <= ops
    requires r in net.s.g.ops && t in net.s.outputs && t !in net.s.constants
    requires r in net.family && net.family[r] == Elementwise && OneOutput(net.s.g.node[r]) && t in net.s.g.node[r].inputs
    requires !Aligned(Realigned(PvOf(WorkOf(trace[0]), t), ReferenceLayout(net, WorkOf(trace[0]), net.s.g.node[r].inputs, [], 0)))
    ensures Displaced(trace[1], t) && !WrittenBy(net.s, Before(ops, 1), t)
  {
    assert ops[0] == r && Step(net, trace[0], ops[0], trace[1]);
    ReaderDisplaces(net, trace[0], r, trace[1], t);
    assert ops[..1] == [r];
    assert t !in net.s.g.node[r].outputs;
  }
}
