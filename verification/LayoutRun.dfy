/** A run of layout inference as a sequence of contexts, and which graph outputs it keeps. */
module LayoutRun {
  import opened GraphModel
  import opened Permutations
  import opened TensorLayout
  import opened LayoutWorklist
  import opened LayoutHandlers
  import opened LayoutWrites

  function WorkOf(c: Context<Emit>): Work {
    Work(c.pv, c.tensorMap, c.infer)
  }

  /** The graphs the theorems are about: no placeholder is bound, no operation reads what it
      writes, and graph outputs are plain OUTPUT tensors. */
  ghost predicate Usable(net: Network) {
    && WellLinked(net.s) && net.s.placeholders == {}
    && (forall o | o in net.s.g.ops :: Apart(net.s.g.node[o]))
    && (forall t | t in net.s.outputs :: t in net.plainOutputs)
  }

  /** Besides, graph outputs are the only plain ones, constants have data, an operation's outputs
      are different, a pooling has one input and a transposition permutes something. */
  ghost predicate Regular(net: Network) {
    && Usable(net) && (forall t | t in net.plainOutputs :: t in net.s.outputs) && (forall t | t in net.s.constants :: t in net.data)
    && (forall o | o in net.s.g.ops :: RegularAt(net, o, net.s.g.node[o]))
  }

  predicate RegularAt(net: Network, o: Op, n: Node) {
    && NoDuplicates(n.outputs)
    && (o in net.family && net.family[o].Pooling? ==> |n.inputs| == 1)
    && (o in net.family && net.family[o].Transposing? ==> net.family[o].perm != [])
  }

  // ---- the contexts of a run ----

  type Trace = seq<Context<Emit>>

  /** One operation is handled when it may be. */
  ghost predicate Step(net: Network, c: Context<Emit>, o: Op, c': Context<Emit>)
    requires HasNodes(net.s.g)
  {
    o in net.s.g.ops && Covers(net.s, c) && Fires(net.s, c, o) && c' == Handle(HandlerFor(net), c, o).0
  }

  /** The operations are handled one after another, from a context in which none has been; the
      trace holds the contexts between them. */
  ghost predicate Run(net: Network, trace: Trace, ops: seq<Op>) {
    && WellLinked(net.s) && |trace| == |ops| + 1 && Unstarted(net, trace[0])
    && forall i | 0 <= i < |ops| :: Step(net, trace[i], ops[i], trace[i + 1])
  }

  ghost predicate Unstarted(net: Network, c: Context<Emit>) {
    Covers(net.s, c) && HandledOps(net.s, c) == {} && c.order == []
  }

  /** The contexts of a replay. */
  function TraceOf(net: Network, c: Context<Emit>, ops: seq<Op>): (trace: Trace)
    ensures |trace| == |ops| + 1
  {
    seq(|ops| + 1, i requires 0 <= i <= |ops| => Replay(HandlerFor(net), c, ops[..i]))
  }

  lemma PlayedStep(net: Network, c: Context<Emit>, ops: seq<Op>, i: nat)
    requires HasNodes(net.s.g) && i < |ops| && PlayedAt(net.s, HandlerFor(net), c, ops, i)
    ensures Step(net, Replay(HandlerFor(net), c, ops[..i]), ops[i], Replay(HandlerFor(net), c, ops[..i + 1]))
  {
    assert ops[..i + 1][..i] == ops[..i] && ops[..i + 1][i] == ops[i];
  }

  lemma PlayedRun(net: Network, c: Context<Emit>, ops: seq<Op>)
    requires WellLinked(net.s) && Unstarted(net, c) && Played(net.s, HandlerFor(net), c, ops)
    ensures Run(net, TraceOf(net, c, ops), ops)
    ensures TraceOf(net, c, ops)[0] == c && TraceOf(net, c, ops)[|ops|] == Replay(HandlerFor(net), c, ops)
  {
    var trace := TraceOf(net, c, ops);
    assert ops[..0] == [] && ops[..|ops|] == ops;
    assert Replay(HandlerFor(net), c, []) == c;
    hide Replay; hide Step; hide PlayedAt; hide HandlerFor;
    forall i | 0 <= i < |ops| ensures Step(net, trace[i], ops[i], trace[i + 1]) {
      assert PlayedAt(net.s, HandlerFor(net), c, ops, i);
      PlayedStep(net, c, ops, i);
    }
  }

  function Order(net: Network, given: map<Tensor, Permute>): seq<Op>
    requires WellLinked(net.s)
  {
    InferLayout(net, given).order
  }

  /** The contexts of the pass. */
  function PassTrace(net: Network, given: map<Tensor, Permute>): (trace: Trace)
    requires WellLinked(net.s)
    ensures |trace| == |Order(net, given)| + 1
  {
    TraceOf(net, SetUp(net, given), Order(net, given))
  }

  lemma SetUpFresh(net: Network, given: map<Tensor, Permute>)
    requires HasNodes(net.s.g)
    ensures Unstarted(net, SetUp(net, given))
  {
    SetUpStarts(net, given);
  }

  /** The pass is such a run, from the context set up to the one inferred. */
  lemma PassRuns(net: Network, given: map<Tensor, Permute>)
    requires WellLinked(net.s)
    ensures var trace, ops := PassTrace(net, given), Order(net, given);
            Run(net, trace, ops) && trace[0] == SetUp(net, given) && trace[|ops|] == InferLayout(net, given)
  {
    SetUpFresh(net, given);
    RunReplays(net.s, HandlerFor(net), SetUp(net, given), QueueOf(net.s));
    PlayedRun(net, SetUp(net, given), Order(net, given));
  }

  lemma BeforeMore(ops: seq<Op>, i: nat)
    requires 0 < i <= |ops|
    ensures ops[..i] == ops[..i - 1] + [ops[i - 1]] && Before(ops, i) == Before(ops, i - 1) + {ops[i - 1]}
  {
  }

  /** The operations handled before the i-th, and the maps fixed before the loop. */
  lemma {:induction false} RunFrame(net: Network, trace: Trace, ops: seq<Op>, i: nat)
    requires Run(net, trace, ops) && i <= |ops|
    ensures var d := trace[i];
            && Covers(net.s, d) && HandledOps(net.s, d) == Before(ops, i) && d.order == ops[..i]
            && d.inputMap == trace[0].inputMap && d.outputMap == trace[0].outputMap
  {
    if i == 0 {
      assert Before(ops, 0) == {};
    } else {
      RunFrame(net, trace, ops, i - 1);
      StepFrame(net, trace[i - 1], ops[i - 1], trace[i]);
      BeforeMore(ops, i);
    }
  }

  lemma StepFrame(net: Network, c: Context<Emit>, o: Op, c': Context<Emit>)
    requires HasNodes(net.s.g) && Step(net, c, o, c')
    ensures Covers(net.s, c') && HandledOps(net.s, c') == HandledOps(net.s, c) + {o} && c'.inputMap == c.inputMap
    ensures c'.outputMap == c.outputMap && c'.order == c.order + [o]
  {
    HandleDone(net.s, HandlerFor(net), c, o);
  }

  /** What a step does to the part of the context a handler updates. */
  lemma StepWork(net: Network, c: Context<Emit>, o: Op)
    requires o in net.s.g.node
    ensures WorkOf(Handle(HandlerFor(net), c, o).0) == HandledWork(net, c.outputMap, WorkOf(c), o, net.s.g.node[o])
  {
    var marked := c.(visited := c.visited[o := true]);
    assert HandlerFor(net)(marked, o) == Infer(net, marked, o);
  }

  /** What one step after another keeps, holds throughout. */
  lemma {:induction false} Along(keep: nat -> bool, n: nat, i: nat)
    requires i <= n && keep(0) && forall j: nat | j < n && keep(j) :: keep(j + 1)
    ensures keep(i)
  {
    if i > 0 { Along(keep, n, i - 1); }
  }

  // ---- the set-up loops ----

  /** While setting up, tensors are mapped to existing ones and only outputs to their own. */
  ghost predicate SettingUp(net: Network, c: Context<Emit>) {
    && Mapping(c.outputMap, WorkOf(c)) && Once(WorkOf(c)) && (forall t | t in c.inputMap :: c.inputMap[t] < c.infer.next)
    && Distinct(c.outputMap) && forall t | t in c.outputMap :: c.outputMap[t] !in Dsts(c.infer.emitted)
  }

  predicate Distinct(own: map<Tensor, Mapped>) {
    forall t, u | t in own && u in own && own[t] == own[u] :: t == u
  }

  lemma {:induction false} AddInputsOrderly(net: Network, given: map<Tensor, Permute>, c: Context<Emit>, ts: seq<Tensor>)
    requires SettingUp(net, c) && c.outputMap == map[]
    ensures SettingUp(net, AddInputs(net, given, c, ts)) && AddInputs(net, given, c, ts).outputMap == map[]
    decreases |ts|
  {
    if ts != [] { AddInputsOrderly(net, given, AddInput(net, given, c, ts[0]), ts[1..]); }
  }

  lemma AddSourceOrderly(net: Network, given: map<Tensor, Permute>, c: Context<Emit>, t: Tensor)
    requires SettingUp(net, c) && c.outputMap == map[]
    ensures SettingUp(net, AddSource(net, given, c, t))
  {
    var e := Constant(DataOf(net, t), c.infer.next);
    DstsMore(c.infer.emitted, e);
    OnceMore(WorkOf(c), WorkOf(AddSource(net, given, c, t)), [c.infer.next]);
  }

  lemma {:induction false} AddSourcesOrderly(net: Network, given: map<Tensor, Permute>, c: Context<Emit>, ts: seq<Tensor>)
    requires SettingUp(net, c) && c.outputMap == map[]
    ensures SettingUp(net, AddSources(net, given, c, ts)) && AddSources(net, given, c, ts).outputMap == map[]
    decreases |ts|
  {
    if ts != [] {
      AddSourceOrderly(net, given, c, ts[0]);
      AddSourcesOrderly(net, given, AddSource(net, given, c, ts[0]), ts[1..]);
    }
  }

  lemma AddOutputMapping(net: Network, given: map<Tensor, Permute>, c: Context<Emit>, t: Tensor)
    requires Mapping(c.outputMap, WorkOf(c))
    ensures Mapping(AddOutput(net, given, c, t).outputMap, WorkOf(AddOutput(net, given, c, t)))
  {
  }

  lemma AddOutputDistinct(own: map<Tensor, Mapped>, t: Tensor, d: Mapped)
    requires Distinct(own) && forall u | u in own :: own[u] < d
    ensures Distinct(own[t := d])
  {
  }

  lemma AddOutputOrderly(net: Network, given: map<Tensor, Permute>, c: Context<Emit>, t: Tensor)
    requires SettingUp(net, c)
    ensures SettingUp(net, AddOutput(net, given, c, t))
    ensures forall u :: u in AddOutput(net, given, c, t).outputMap <==> u in c.outputMap || u == t
  {
    var c' := AddOutput(net, given, c, t);
    AddOutputMapping(net, given, c, t);
    AddOutputDistinct(c.outputMap, t, c.infer.next);
  }

  lemma {:induction false} AddOutputsOrderly(net: Network, given: map<Tensor, Permute>, c: Context<Emit>, ts: seq<Tensor>)
    requires SettingUp(net, c)
    ensures SettingUp(net, AddOutputs(net, given, c, ts))
    ensures forall t :: t in AddOutputs(net, given, c, ts).outputMap <==> t in c.outputMap || t in ts
    decreases |ts|
  {
    if ts != [] {
      assert ts == [ts[0]] + ts[1..];
      AddOutputOrderly(net, given, c, ts[0]);
      AddOutputsOrderly(net, given, AddOutput(net, given, c, ts[0]), ts[1..]);
    }
  }

  // ---- the tensors handed to the caller ----

  /** Both maps lead to tensors of their own. */
  predicate Separate(inputMap: map<Tensor, Mapped>, outputMap: map<Tensor, Mapped>, next: Mapped) {
    && Distinct(inputMap) && Distinct(outputMap)
    && (forall t | t in inputMap :: inputMap[t] < next) && (forall t | t in outputMap :: outputMap[t] < next)
    && forall t, u | t in inputMap && u in outputMap :: inputMap[t] != outputMap[u]
  }

  lemma {:induction false} AddInputsSeparate(net: Network, given: map<Tensor, Permute>, c: Context<Emit>, ts: seq<Tensor>)
    requires Separate(c.inputMap, c.outputMap, c.infer.next)
    ensures var r := AddInputs(net, given, c, ts);
            Separate(r.inputMap, r.outputMap, r.infer.next) && forall t :: t in r.inputMap <==> t in c.inputMap || t in ts
    decreases |ts|
  {
    if ts != [] {
      assert ts == [ts[0]] + ts[1..];
      AddInputsSeparate(net, given, AddInput(net, given, c, ts[0]), ts[1..]);
    }
  }

  lemma {:induction false} AddSourcesSeparate(net: Network, given: map<Tensor, Permute>, c: Context<Emit>, ts: seq<Tensor>)
    requires Separate(c.inputMap, c.outputMap, c.infer.next)
    ensures var r := AddSources(net, given, c, ts); Separate(r.inputMap, r.outputMap, r.infer.next)
    decreases |ts|
  {
    if ts != [] { AddSourcesSeparate(net, given, AddSource(net, given, c, ts[0]), ts[1..]); }
  }

  lemma {:induction false} AddOutputsSeparate(net: Network, given: map<Tensor, Permute>, c: Context<Emit>, ts: seq<Tensor>)
    requires Separate(c.inputMap, c.outputMap, c.infer.next)
    ensures var r := AddOutputs(net, given, c, ts);
            Separate(r.inputMap, r.outputMap, r.infer.next) && forall t :: t in r.outputMap <==> t in c.outputMap || t in ts
    decreases |ts|
  {
    if ts != [] {
      assert ts == [ts[0]] + ts[1..];
      AddOutputsSeparate(net, given, AddOutput(net, given, c, ts[0]), ts[1..]);
    }
  }

  lemma SetUpSeparate(net: Network, given: map<Tensor, Permute>)
    requires HasNodes(net.s.g)
    ensures var c := SetUp(net, given);
            && Separate(c.inputMap, c.outputMap, c.infer.next)
            && (forall t :: t in c.inputMap <==> t in net.s.inputs) && (forall t :: t in c.outputMap <==> t in net.s.outputs)
  {
    var c0, consts := FreshContext(net.s), ConstantInputs(net.s, net.s.g.ops);
    var c1 := AddInputs(net, given, c0, net.s.inputs);
    var c2 := AddSources(net, given, c1, consts);
    assert SetUp(net, given) == AddOutputs(net, given, c2, net.s.outputs);
    AddInputsSeparate(net, given, c0, net.s.inputs);
    AddInputsFrame(net, given, c0, net.s.inputs);
    hide *;
    AddSourcesSeparate(net, given, c1, consts);
    AddSourcesFrame(net, given, c1, consts);
    AddOutputsSeparate(net, given, c2, net.s.outputs);
    AddOutputsFrame(net, given, c2, net.s.outputs);
  }

  /** The io map has exactly the graph inputs and outputs, each with a tensor of its own. */
  lemma IoMapListed(net: Network, given: map<Tensor, Permute>)
    requires WellLinked(net.s)
    ensures var c := InferLayout(net, given);
            && (forall t :: t in IoMap(c) <==> t in net.s.inputs || t in net.s.outputs)
            && (forall t, u | t in IoMap(c) && u in IoMap(c) && t != u :: IoMap(c)[t] != IoMap(c)[u])
  {
    SetUpSeparate(net, given);
    PassRuns(net, given);
    RunFrame(net, PassTrace(net, given), Order(net, given), |Order(net, given)|);
    hide SetUp; hide InferLayout; hide PassTrace; hide Run; hide Order;
  }

  lemma SetUpOrderly(net: Network, given: map<Tensor, Permute>)
    requires Regular(net)
    ensures var c := SetUp(net, given);
            Orderly(net, c.outputMap, WorkOf(c)) && SettingUp(net, c)
  {
    var c0 := FreshContext(net.s);
    var c1, consts := AddInputs(net, given, c0, net.s.inputs), ConstantInputs(net.s, net.s.g.ops);
    assert SettingUp(net, c0);
    AddInputsOrderly(net, given, c0, net.s.inputs);
    AddSourcesOrderly(net, given, c1, consts);
    AddOutputsOrderly(net, given, AddSources(net, given, c1, consts), net.s.outputs);
  }

  // ---- throughout a run ----

  /** What holds before every step. */
  ghost predicate Running(net: Network, c: Context<Emit>)
    requires HasNodes(net.s.g)
  {
    Orderly(net, c.outputMap, WorkOf(c)) && forall t :: Seed(net.s, t) ==> t in c.pv
  }

  lemma ReadyHandleable(net: Network, c: Context<Emit>, o: Op)
    requires Regular(net) && Running(net, c) && o in net.s.g.ops && IsReady(net.s, c, o)
    ensures Handleable(net, WorkOf(c), o, net.s.g.node[o])
  {
    var n := net.s.g.node[o];
    assert RegularAt(net, o, n);
    forall t | t in n.inputs ensures Movable(net, WorkOf(c), t) {
      assert t in net.s.constants || t in c.pv;
    }
    if |n.inputs| == 1 { SoleInputLaidOut(net, c, o); }
  }

  /** A single constant input was enqueued, so it has a layout. */
  lemma SoleInputLaidOut(net: Network, c: Context<Emit>, o: Op)
    requires HasNodes(net.s.g) && (forall t :: Seed(net.s, t) ==> t in c.pv) && net.s.placeholders == {}
    requires o in net.s.g.ops && IsReady(net.s, c, o) && |net.s.g.node[o].inputs| == 1
    ensures net.s.g.node[o].inputs[0] in c.pv
  {
    var n := net.s.g.node[o];
    assert n.inputs[0] in n.inputs && n.inputs == [n.inputs[0]];
    if n.inputs[0] in net.s.constants {
      assert AllConstant(net.s, o) && n.inputs[0] in ConstantsOf(net.s, o);
      assert Seed(net.s, n.inputs[0]);
    }
  }

  lemma StepRunning(net: Network, c: Context<Emit>, o: Op, c': Context<Emit>)
    requires Regular(net) && Running(net, c) && Step(net, c, o, c')
    ensures Running(net, c') && c.infer.next <= c'.infer.next
  {
    var n := net.s.g.node[o];
    StepWork(net, c, o);
    ReadyHandleable(net, c, o);
    StepOrderly(net, c.outputMap, WorkOf(c), o, n);
    InputsLay(net, WorkOf(c), o, n);
    FinishLays(net, c.outputMap, OnInputs(net, WorkOf(c), o, n), n.outputs);
  }

  lemma RunRunning(net: Network, trace: Trace, ops: seq<Op>, i: nat)
    requires Regular(net) && Run(net, trace, ops) && Running(net, trace[0]) && i <= |ops|
    ensures Running(net, trace[i])
  {
    var keep := (j: nat) => j <= |ops| && Running(net, trace[j]);
    forall j: nat | j < |ops| && keep(j) ensures keep(j + 1) {
      StepRunning(net, trace[j], ops[j], trace[j + 1]);
    }
    Along(keep, |ops|, i);
  }

  lemma SetUpRunning(net: Network, given: map<Tensor, Permute>)
    requires Regular(net)
    ensures Running(net, SetUp(net, given)) && SettingUp(net, SetUp(net, given))
  {
    SetUpOrderly(net, given);
    SetUpStarts(net, given);
  }

  // ---- which outputs are written ----

  /** In the context the operation keeps the output: the output is still mapped to its own tensor,
      or the operation does not want it aligned. */
  ghost predicate Keeps(net: Network, c: Context<Emit>, o: Op, t: Tensor)
    requires o in net.s.g.node
  {
    KeepsOwn(net, c.outputMap, WorkOf(c), o, net.s.g.node[o], t)
  }

  ghost predicate WritesKept(net: Network, c: Context<Emit>, o: Op, t: Tensor) {
    o in net.s.g.node && t in net.s.g.node[o].outputs && Keeps(net, c, o, t)
  }

  predicate OwnWritten(c: Context<Emit>, t: Tensor) {
    t in c.outputMap && c.outputMap[t] in Dsts(c.infer.emitted)
  }

  lemma StepWritesOwn(net: Network, c: Context<Emit>, o: Op, c': Context<Emit>, t: Tensor)
    requires Regular(net) && Running(net, c) && Step(net, c, o, c') && t in net.s.outputs
    ensures OwnWritten(c', t) <==> OwnWritten(c, t) || WritesKept(net, c, o, t)
  {
    StepWork(net, c, o);
    ReadyHandleable(net, c, o);
    StepOwn(net, c.outputMap, WorkOf(c), o, net.s.g.node[o], t);
  }

  /** One of the first i operations writes the output and keeps it. */
  ghost predicate SomeKept(net: Network, trace: Trace, ops: seq<Op>, i: nat, t: Tensor)
    requires |trace| == |ops| + 1 && i <= |ops|
  {
    i > 0 && (SomeKept(net, trace, ops, i - 1, t) || WritesKept(net, trace[i - 1], ops[i - 1], t))
  }

  lemma {:induction false} SomeKeptAt(net: Network, trace: Trace, ops: seq<Op>, i: nat, t: Tensor) returns (j: nat)
    requires |trace| == |ops| + 1 && i <= |ops| && SomeKept(net, trace, ops, i, t)
    ensures j < i && WritesKept(net, trace[j], ops[j], t)
  {
    if WritesKept(net, trace[i - 1], ops[i - 1], t) {
      j := i - 1;
    } else {
      j := SomeKeptAt(net, trace, ops, i - 1, t);
    }
  }

  lemma {:induction false} KeptIsSome(net: Network, trace: Trace, ops: seq<Op>, i: nat, t: Tensor, j: nat)
    requires |trace| == |ops| + 1 && j < i <= |ops| && WritesKept(net, trace[j], ops[j], t)
    ensures SomeKept(net, trace, ops, i, t)
  {
    if j < i - 1 { KeptIsSome(net, trace, ops, i - 1, t, j); }
  }

  lemma {:induction false} WrittenBefore(net: Network, trace: Trace, ops: seq<Op>, i: nat, t: Tensor)
    requires Regular(net) && Run(net, trace, ops) && Running(net, trace[0]) && i <= |ops| && t in net.s.outputs && !OwnWritten(trace[0], t)
    ensures OwnWritten(trace[i], t) <==> SomeKept(net, trace, ops, i, t)
  {
    if i > 0 {
      WrittenBefore(net, trace, ops, i - 1, t);
      RunRunning(net, trace, ops, i - 1);
      StepWritesOwn(net, trace[i - 1], ops[i - 1], trace[i], t);
    }
  }

  /** The i-th operation of the pass writes the output and keeps it. */
  ghost predicate KeptAt(net: Network, given: map<Tensor, Permute>, i: nat, t: Tensor)
    requires WellLinked(net.s) && i < |Order(net, given)|
  {
    WritesKept(net, PassTrace(net, given)[i], Order(net, given)[i], t)
  }

  lemma OutputOwned(net: Network, given: map<Tensor, Permute>, c: Context<Emit>, t: Tensor)
    requires Regular(net) && t in net.s.outputs && c.outputMap == SetUp(net, given).outputMap
    ensures t in c.outputMap && t in IoMap(c) && IoMap(c)[t] == c.outputMap[t] && !OwnWritten(SetUp(net, given), t)
  {
    SetUpRunning(net, given);
  }

  /** The tensor handed to the caller for a graph output is written by an operation of the new
      graph exactly if, when an operation that writes the output is handled, the output is still
      mapped to that tensor or the layout wanted for it is not the aligned one. */
  lemma OutputWrittenExactlyWhen(net: Network, given: map<Tensor, Permute>, t: Tensor)
    requires Regular(net) && t in net.s.outputs
    ensures var c := InferLayout(net, given);
            t in IoMap(c) && (IoMap(c)[t] in Dsts(c.infer.emitted) <==> exists i :: 0 <= i < |Order(net, given)| && KeptAt(net, given, i, t))
  {
    var trace, ops := PassTrace(net, given), Order(net, given);
    PassRuns(net, given);
    SetUpRunning(net, given);
    RunFrame(net, trace, ops, |ops|);
    OutputOwned(net, given, InferLayout(net, given), t);
    WrittenBefore(net, trace, ops, |ops|, t);
    if SomeKept(net, trace, ops, |ops|, t) {
      var j := SomeKeptAt(net, trace, ops, |ops|, t);
      assert KeptAt(net, given, j, t);
    } else if j :| 0 <= j < |ops| && KeptAt(net, given, j, t) {
      KeptIsSome(net, trace, ops, |ops|, t, j);
    }
  }

  /** Every operation keeps the outputs it writes. */
  ghost predicate AllKept(net: Network, trace: Trace, ops: seq<Op>)
    requires |trace| == |ops| + 1
  {
    forall i | 0 <= i < |ops| :: KeepsAll(net, trace[i], ops[i])
  }

  ghost predicate KeepsAll(net: Network, c: Context<Emit>, o: Op) {
    o in net.s.g.node && forall t | t in net.s.outputs && t in net.s.g.node[o].outputs :: Keeps(net, c, o, t)
  }

  lemma WritersDiffer(net: Network, trace: Trace, ops: seq<Op>, j: nat, i: nat, t: Tensor)
    requires Run(net, trace, ops) && SingleWriter(net.s.g) && j < i < |ops|
    requires ops[i] in net.s.g.node && t in net.s.g.node[ops[i]].outputs
    ensures ops[j] in net.s.g.node && t !in net.s.g.node[ops[j]].outputs
  {
    RunFrame(net, trace, ops, i);
    assert Step(net, trace[i], ops[i], trace[i + 1]) && Step(net, trace[j], ops[j], trace[j + 1]);
    assert ops[..i][j] in Before(ops, i);
  }

  lemma NotWrittenYet(net: Network, trace: Trace, ops: seq<Op>, i: nat, t: Tensor)
    requires Regular(net) && Run(net, trace, ops) && Running(net, trace[0]) && SingleWriter(net.s.g) && i < |ops| && t in net.s.outputs
    requires ops[i] in net.s.g.node && t in net.s.g.node[ops[i]].outputs && !OwnWritten(trace[0], t)
    ensures !OwnWritten(trace[i], t)
  {
    WrittenBefore(net, trace, ops, i, t);
    RunFrame(net, trace, ops, i);
    if SomeKept(net, trace, ops, i, t) {
      var j := SomeKeptAt(net, trace, ops, i, t);
      WritersDiffer(net, trace, ops, j, i, t);
    }
  }

  lemma StepWritesOnce(net: Network, c: Context<Emit>, o: Op, c': Context<Emit>)
    requires Regular(net) && Running(net, c) && Step(net, c, o, c') && Once(WorkOf(c)) && KeepsAll(net, c, o)
    requires forall t | t in net.s.outputs && t in net.s.g.node[o].outputs :: !OwnWritten(c, t)
    ensures Once(WorkOf(c'))
  {
    StepWork(net, c, o);
    ReadyHandleable(net, c, o);
    forall t | t in net.s.g.node[o].outputs && t in c.outputMap
      ensures c.outputMap[t] !in Dsts(c.infer.emitted) && KeepsOwn(net, c.outputMap, WorkOf(c), o, net.s.g.node[o], t)
    {
      assert !OwnWritten(c, t) && Keeps(net, c, o, t);
    }
    StepOnce(net, c.outputMap, WorkOf(c), o, net.s.g.node[o]);
  }

  lemma {:induction false} OnceBefore(net: Network, trace: Trace, ops: seq<Op>, i: nat)
    requires Regular(net) && Run(net, trace, ops) && Running(net, trace[0]) && SingleWriter(net.s.g) && AllKept(net, trace, ops) && i <= |ops|
    requires Once(WorkOf(trace[0])) && forall t | t in net.s.outputs :: !OwnWritten(trace[0], t)
    ensures Once(WorkOf(trace[i]))
  {
    if i > 0 {
      OnceBefore(net, trace, ops, i - 1);
      RunRunning(net, trace, ops, i - 1);
      forall t | t in net.s.outputs && t in net.s.g.node[ops[i - 1]].outputs ensures !OwnWritten(trace[i - 1], t) {
        NotWrittenYet(net, trace, ops, i - 1, t);
      }
      assert KeepsAll(net, trace[i - 1], ops[i - 1]);
      StepWritesOnce(net, trace[i - 1], ops[i - 1], trace[i]);
    }
  }

  /** If tensors have one writer and every output is kept, no tensor of the new graph is written
      twice. */
  lemma WrittenOnce(net: Network, given: map<Tensor, Permute>)
    requires Regular(net) && SingleWriter(net.s.g) && AllKept(net, PassTrace(net, given), Order(net, given))
    ensures NoDuplicates(Dsts(InferLayout(net, given).infer.emitted))
  {
    var trace, ops := PassTrace(net, given), Order(net, given);
    PassRuns(net, given);
    SetUpRunning(net, given);
    OnceBefore(net, trace, ops, |ops|);
  }

  /** The tensor handed to the caller for each graph output that a handled operation writes is
      written. */
  ghost predicate OutputsWritten(net: Network, given: map<Tensor, Permute>)
    requires WellLinked(net.s)
  {
    var c, ops := InferLayout(net, given), Order(net, given);
    forall t | t in net.s.outputs && WrittenBy(net.s, Before(ops, |ops|), t) :: t in IoMap(c) && IoMap(c)[t] in Dsts(c.infer.emitted)
  }

  lemma WriterAt(net: Network, trace: Trace, ops: seq<Op>, t: Tensor) returns (i: nat)
    requires Run(net, trace, ops) && WrittenBy(net.s, Before(ops, |ops|), t)
    ensures i < |ops| && ops[i] in net.s.g.ops && t in net.s.g.node[ops[i]].outputs
  {
    var o :| o in Before(ops, |ops|) && o in net.s.g.ops && t in net.s.g.node[o].outputs;
    assert ops[..|ops|] == ops;
    i :| 0 <= i < |ops| && ops[i] == o;
  }

  lemma KeptIsOnly(net: Network, given: map<Tensor, Permute>, i: nat, j: nat, t: Tensor)
    requires Regular(net) && SingleWriter(net.s.g) && i < |Order(net, given)| && j < |Order(net, given)| && KeptAt(net, given, j, t)
    requires Order(net, given)[i] in net.s.g.node && t in net.s.g.node[Order(net, given)[i]].outputs
    ensures Keeps(net, PassTrace(net, given)[i], Order(net, given)[i], t)
  {
    PassRuns(net, given);
    if j < i { WritersDiffer(net, PassTrace(net, given), Order(net, given), j, i, t); }
    if i < j { WritersDiffer(net, PassTrace(net, given), Order(net, given), i, j, t); }
  }

  /** Where tensors have one writer, keeping every output is exactly what it takes for the tensors
      handed to the caller to be written. */
  lemma AllKeptExactlyWhen(net: Network, given: map<Tensor, Permute>)
    requires Regular(net) && SingleWriter(net.s.g)
    ensures AllKept(net, PassTrace(net, given), Order(net, given)) <==> OutputsWritten(net, given)
  {
    var trace, ops := PassTrace(net, given), Order(net, given);
    PassRuns(net, given);
    if AllKept(net, trace, ops) {
      forall t | t in net.s.outputs && WrittenBy(net.s, Before(ops, |ops|), t)
        ensures t in IoMap(InferLayout(net, given)) && IoMap(InferLayout(net, given))[t] in Dsts(InferLayout(net, given).infer.emitted)
      {
        var i := WriterAt(net, trace, ops, t);
        assert KeepsAll(net, trace[i], ops[i]) && KeptAt(net, given, i, t);
        OutputWrittenExactlyWhen(net, given, t);
      }
    } else {
      var i :| 0 <= i < |ops| && !KeepsAll(net, trace[i], ops[i]);
      NotAllWritten(net, given, i);
    }
  }

  lemma NotAllWritten(net: Network, given: map<Tensor, Permute>, i: nat)
    requires Regular(net) && SingleWriter(net.s.g) && i < |Order(net, given)|
    requires !KeepsAll(net, PassTrace(net, given)[i], Order(net, given)[i])
    ensures !OutputsWritten(net, given)
  {
    var trace, ops := PassTrace(net, given), Order(net, given);
    PassRuns(net, given);
    assert Step(net, trace[i], ops[i], trace[i + 1]);
    var t :| t in net.s.outputs && t in net.s.g.node[ops[i]].outputs && !Keeps(net, trace[i], ops[i], t);
    hide Keeps; hide Step; hide Run; hide Regular;
    NotKeptUnwritten(net, given, i, t);
  }

  lemma NeverKept(net: Network, given: map<Tensor, Permute>, i: nat, t: Tensor)
    requires Regular(net) && SingleWriter(net.s.g) && i < |Order(net, given)| && Order(net, given)[i] in net.s.g.ops
    requires t in net.s.g.node[Order(net, given)[i]].outputs && !Keeps(net, PassTrace(net, given)[i], Order(net, given)[i], t)
    ensures forall j | 0 <= j < |Order(net, given)| :: !KeptAt(net, given, j, t)
  {
    forall j | 0 <= j < |Order(net, given)| && KeptAt(net, given, j, t) ensures false { KeptIsOnly(net, given, i, j, t); }
  }

  lemma OutputUnwritten(net: Network, given: map<Tensor, Permute>, t: Tensor)
    requires Regular(net) && t in net.s.outputs && forall j | 0 <= j < |Order(net, given)| :: !KeptAt(net, given, j, t)
    ensures t in IoMap(InferLayout(net, given)) && IoMap(InferLayout(net, given))[t] !in Dsts(InferLayout(net, given).infer.emitted)
  {
    OutputWrittenExactlyWhen(net, given, t);
  }

  lemma HandledWrites(s: Source, ops: seq<Op>, i: nat, t: Tensor)
    requires HasNodes(s.g) && i < |ops| && ops[i] in s.g.ops && t in s.g.node[ops[i]].outputs
    ensures WrittenBy(s, Before(ops, |ops|), t)
  {
    assert ops[..|ops|] == ops && ops[i] in Before(ops, |ops|);
  }

  lemma NotKeptUnwritten(net: Network, given: map<Tensor, Permute>, i: nat, t: Tensor)
    requires Regular(net) && SingleWriter(net.s.g) && i < |Order(net, given)| && Order(net, given)[i] in net.s.g.ops
    requires t in net.s.outputs && t in net.s.g.node[Order(net, given)[i]].outputs
    requires !Keeps(net, PassTrace(net, given)[i], Order(net, given)[i], t)
    ensures !OutputsWritten(net, given)
  {
    NeverKept(net, given, i, t);
    OutputUnwritten(net, given, t);
    HandledWrites(net.s, Order(net, given), i, t);
  }
}
