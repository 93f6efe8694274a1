/** Building a graph: creating tensors and operations, binding them, and the bookkeeping
    that must agree with the bindings: consumer lists, producers, and the counters of free
    inputs and outputs that compilation warns about. */
module GraphStore {
  import opened GraphModel

  datatype Attribute = CONSTANT | TRANSIENT | VARIABLE | INPUT | OUTPUT

  /** A graph under construction.  attrs gives each tensor's attribute bits; inputs and
      outputs list the tensors created with those bits. */
  datatype State = State(
    g: Graph,
    attrs: map<Tensor, set<Attribute>>,
    inputs: seq<Tensor>,
    outputs: seq<Tensor>,
    freeInputs: int,
    freeOutputs: int)

  const EMPTY: State := State(Graph([], map[], map[], map[]), map[], [], [], 0, 0)

  /** One call of the building interface. */
  datatype Step =
    | NewTensor(tensor: Tensor, attrs: set<Attribute>)
    | NewOp(op: Op, kind: int)
    | BindIn(op: Op, tensor: Tensor)
    | BindOut(op: Op, tensor: Tensor)

  /** New handles are new; bindings name existing objects. */
  predicate Legal(st: State, step: Step) {
    match step
    case NewTensor(t, _) => t !in st.attrs
    case NewOp(o, _) => o !in st.g.node
    case BindIn(o, t) => o in st.g.node && t in st.attrs
    case BindOut(o, t) => o in st.g.node && t in st.attrs
  }

  function AddOnce(ts: seq<Tensor>, t: Tensor): (r: seq<Tensor>)
    ensures forall u :: u in r <==> u in ts || u == t
    ensures NoDuplicates(ts) ==> NoDuplicates(r)
  {
    if t in ts then ts else ts + [t]
  }

  function CreateTensor(st: State, t: Tensor, attrs: set<Attribute>): State {
    st.(attrs := st.attrs[t := attrs],
        inputs := if INPUT in attrs then AddOnce(st.inputs, t) else st.inputs,
        freeInputs := st.freeInputs + if INPUT in attrs then 1 else 0,
        outputs := if OUTPUT in attrs then AddOnce(st.outputs, t) else st.outputs,
        freeOutputs := st.freeOutputs + if OUTPUT in attrs then 1 else 0)
  }

  function CreateOperation(st: State, o: Op, kind: int): State {
    st.(g := st.g.(ops := st.g.ops + [o], node := st.g.node[o := Node(kind, [], [])]))
  }

  /** An operation that is not in the operation list is not recorded. */
  function RecordConsumer(g: Graph, t: Tensor, o: Op): Graph {
    if o in g.ops then g.(consumers := g.consumers[t := ConsumersOf(g, t) + [o]]) else g
  }

  function RecordProducer(g: Graph, t: Tensor, o: Op): Graph {
    if o in g.ops then g.(producer := g.producer[t := o]) else g
  }

  function BindInput(st: State, o: Op, t: Tensor): State
    requires o in st.g.node && t in st.attrs
  {
    var n := st.g.node[o];
    var g := st.g.(node := st.g.node[o := n.(inputs := n.inputs + [t])]);
    st.(g := RecordConsumer(g, t, o), freeInputs := st.freeInputs - if INPUT in st.attrs[t] then 1 else 0)
  }

  function BindOutput(st: State, o: Op, t: Tensor): State
    requires o in st.g.node && t in st.attrs
  {
    var n := st.g.node[o];
    var g := st.g.(node := st.g.node[o := n.(outputs := n.outputs + [t])]);
    st.(g := RecordProducer(g, t, o), freeOutputs := st.freeOutputs - if OUTPUT in st.attrs[t] then 1 else 0)
  }

  function Do(st: State, step: Step): State
    requires Legal(st, step)
  {
    match step
    case NewTensor(t, attrs) => CreateTensor(st, t, attrs)
    case NewOp(o, kind) => CreateOperation(st, o, kind)
    case BindIn(o, t) => BindInput(st, o, t)
    case BindOut(o, t) => BindOutput(st, o, t)
  }

  /** A run of the building interface: every step legal when it is taken. */
  predicate LegalRun(st: State, run: seq<Step>)
    decreases |run|
  {
    run == [] || (Legal(st, run[0]) && LegalRun(Do(st, run[0]), run[1..]))
  }

  function Build(st: State, run: seq<Step>): State
    requires LegalRun(st, run)
    decreases |run|
  {
    if run == [] then st else Build(Do(st, run[0]), run[1..])
  }

  // ---- counting bindings ----

  /** How often the operations bind t as an output. */
  function Writes(node: map<Op, Node>, ops: seq<Op>, t: Tensor): nat
    requires forall o | o in ops :: o in node
  {
    if ops == [] then 0 else Count(node[ops[0]].outputs, t) + Writes(node, ops[1..], t)
  }

  /** Created tensors minus bindings, over a list of tensors. */
  function FreeIn(g: Graph, ts: seq<Tensor>): int {
    if ts == [] then 0 else 1 - |ConsumersOf(g, ts[0])| + FreeIn(g, ts[1..])
  }

  function FreeOut(node: map<Op, Node>, ops: seq<Op>, ts: seq<Tensor>): int
    requires forall o | o in ops :: o in node
  {
    if ts == [] then 0 else 1 - Writes(node, ops, ts[0]) + FreeOut(node, ops, ts[1..])
  }

  /** The tables name what exists: nodes are the listed operations, inputs and outputs are
      the tensors created with those bits, bound tensors were created. */
  ghost predicate Tables(st: State) {
    && (forall o :: o in st.g.node <==> o in st.g.ops)
    && (forall t :: t in st.inputs <==> t in st.attrs && INPUT in st.attrs[t])
    && (forall t :: t in st.outputs <==> t in st.attrs && OUTPUT in st.attrs[t])
    && NoDuplicates(st.inputs) && NoDuplicates(st.outputs)
    && (forall o, t | o in st.g.node && t in st.g.node[o].inputs :: t in st.attrs)
    && (forall o, t | o in st.g.node && t in st.g.node[o].outputs :: t in st.attrs)
  }

  /** The counters are tensors created minus tensors bound. */
  ghost predicate Counters(st: State) {
    && HasNodes(st.g)
    && st.freeInputs == FreeIn(st.g, st.inputs)
    && st.freeOutputs == FreeOut(st.g.node, st.g.ops, st.outputs)
  }

  /** What every build run keeps. */
  ghost predicate Consistent(st: State) {
    Linked(st.g) && Tables(st) && Counters(st)
  }

  lemma {:induction false} FreeInAppend(g: Graph, ts: seq<Tensor>, t: Tensor)
    ensures FreeIn(g, ts + [t]) == FreeIn(g, ts) + 1 - |ConsumersOf(g, t)|
  {
    if ts == [] {
      assert [t][1..] == [];
    } else {
      assert (ts + [t])[1..] == ts[1..] + [t];
      FreeInAppend(g, ts[1..], t);
    }
  }

  /** Recording one more reader of t lowers the sum by the number of times t is listed. */
  lemma {:induction false} FreeInRecord(g: Graph, h: Graph, ts: seq<Tensor>, t: Tensor, extra: nat)
    requires NoDuplicates(ts)
    requires |ConsumersOf(h, t)| == |ConsumersOf(g, t)| + extra
    requires forall u | u != t :: ConsumersOf(h, u) == ConsumersOf(g, u)
    ensures FreeIn(h, ts) == FreeIn(g, ts) - if t in ts then extra else 0
  {
    if ts != [] {
      NoDuplicatesTail(ts);
      FreeInRecord(g, h, ts[1..], t, extra);
      assert ts == [ts[0]] + ts[1..];
    }
  }

  lemma {:induction false} FreeOutAppend(node: map<Op, Node>, ops: seq<Op>, ts: seq<Tensor>, t: Tensor)
    requires forall o | o in ops :: o in node
    ensures FreeOut(node, ops, ts + [t]) == FreeOut(node, ops, ts) + 1 - Writes(node, ops, t)
  {
    if ts == [] {
      assert [t][1..] == [];
    } else {
      assert (ts + [t])[1..] == ts[1..] + [t];
      FreeOutAppend(node, ops, ts[1..], t);
    }
  }

  /** Two operation tables whose write counts differ only at t, and there by extra. */
  lemma {:induction false} FreeOutRecord(node: map<Op, Node>, ops: seq<Op>, node': map<Op, Node>, ops': seq<Op>,
                                         ts: seq<Tensor>, t: Tensor, extra: nat)
    requires NoDuplicates(ts)
    requires (forall o | o in ops :: o in node) && forall o | o in ops' :: o in node'
    requires Writes(node', ops', t) == Writes(node, ops, t) + extra
    requires forall u | u != t :: Writes(node', ops', u) == Writes(node, ops, u)
    ensures FreeOut(node', ops', ts) == FreeOut(node, ops, ts) - if t in ts then extra else 0
    decreases |ts|
  {
    if ts != [] {
      NoDuplicatesTail(ts);
      FreeOutRecord(node, ops, node', ops', ts[1..], t, extra);
      assert ts == [ts[0]] + ts[1..];
    }
  }

  lemma {:induction false} WritesNewOp(node: map<Op, Node>, ops: seq<Op>, o: Op, kind: int, t: Tensor)
    requires (forall p | p in ops :: p in node) && o !in ops
    ensures Writes(node[o := Node(kind, [], [])], ops + [o], t) == Writes(node, ops, t)
    decreases |ops|
  {
    if ops == [] {
      assert [o][1..] == [];
    } else {
      assert (ops + [o])[1..] == ops[1..] + [o];
      WritesNewOp(node, ops[1..], o, kind, t);
    }
  }

  /** Rebinding one operation changes the count by the change in its own list. */
  lemma {:induction false} WritesRebind(node: map<Op, Node>, ops: seq<Op>, o: Op, n: Node, t: Tensor)
    requires (forall p | p in ops :: p in node) && NoDuplicates(ops) && o in node
    ensures Writes(node[o := n], ops, t)
            == Writes(node, ops, t) + if o in ops then Count(n.outputs, t) - Count(node[o].outputs, t) else 0
    decreases |ops|
  {
    if ops != [] {
      NoDuplicatesTail(ops);
      assert ops == [ops[0]] + ops[1..];
      WritesRebind(node, ops[1..], o, n, t);
    }
  }

  lemma {:induction false} WritesUnbound(node: map<Op, Node>, ops: seq<Op>, t: Tensor)
    requires forall o | o in ops :: o in node && t !in node[o].outputs
    ensures Writes(node, ops, t) == 0
    decreases |ops|
  {
    if ops != [] {
      WritesUnbound(node, ops[1..], t);
    }
  }

  // ---- each step keeps the graph consistent ----

  lemma NoReaders(g: Graph, t: Tensor)
    requires HasNodes(g) && ConsumersAgree(g)
    requires forall o | o in g.ops :: t !in g.node[o].inputs
    ensures ConsumersOf(g, t) == []
  {
    if ConsumersOf(g, t) != [] {
      NotReader(g, t, ConsumersOf(g, t)[0]);
    }
  }

  lemma NotReader(g: Graph, t: Tensor, o: Op)
    requires HasNodes(g) && ConsumersAgree(g) && (o in g.ops ==> t !in g.node[o].inputs)
    ensures o !in ConsumersOf(g, t)
  {
    assert o in g.ops ==> Count(ConsumersOf(g, t), o) == Count(g.node[o].inputs, t);
  }

  lemma TensorCounters(st: State, t: Tensor, attrs: set<Attribute>)
    requires Consistent(st) && t !in st.attrs
    ensures Counters(CreateTensor(st, t, attrs))
  {
    NoReaders(st.g, t);
    WritesUnbound(st.g.node, st.g.ops, t);
    FreeInAppend(st.g, st.inputs, t);
    FreeOutAppend(st.g.node, st.g.ops, st.outputs, t);
  }

  lemma TensorKeeps(st: State, t: Tensor, attrs: set<Attribute>)
    requires Consistent(st) && t !in st.attrs
    ensures Consistent(CreateTensor(st, t, attrs))
  {
    TensorCounters(st, t, attrs);
  }

  lemma OperationLinked(st: State, o: Op, kind: int)
    requires Linked(st.g) && o !in st.g.node
    ensures Linked(CreateOperation(st, o, kind).g)
  {
    var r := CreateOperation(st, o, kind);
    assert forall t: Tensor :: ConsumersOf(r.g, t) == ConsumersOf(st.g, t);
    forall t: Tensor, p: Op | p in r.g.ops ensures Count(ConsumersOf(r.g, t), p) == Count(r.g.node[p].inputs, t) {
      if p == o {
        NotReader(st.g, t, o);
      } else {
        assert Count(ConsumersOf(st.g, t), p) == Count(st.g.node[p].inputs, t);
      }
    }
  }

  lemma OperationCounters(st: State, o: Op, kind: int)
    requires Counters(st) && NoDuplicates(st.inputs) && NoDuplicates(st.outputs) && o !in st.g.node
    ensures Counters(CreateOperation(st, o, kind))
  {
    var r := CreateOperation(st, o, kind);
    FreeInRecord(st.g, r.g, st.inputs, 0, 0);
    forall t ensures Writes(r.g.node, r.g.ops, t) == Writes(st.g.node, st.g.ops, t) {
      WritesNewOp(st.g.node, st.g.ops, o, kind, t);
    }
    FreeOutRecord(st.g.node, st.g.ops, r.g.node, r.g.ops, st.outputs, 0, 0);
  }

  lemma OperationKeeps(st: State, o: Op, kind: int)
    requires Consistent(st) && o !in st.g.node
    ensures Consistent(CreateOperation(st, o, kind))
  {
    OperationLinked(st, o, kind);
    OperationCounters(st, o, kind);
  }

  /** What binding an input does to one reader of one tensor. */
  lemma BindInputAt(st: State, o: Op, t: Tensor, u: Tensor, p: Op)
    requires Linked(st.g) && o in st.g.ops && t in st.attrs && p in st.g.ops
    ensures var r := BindInput(st, o, t);
            p in r.g.node && Count(ConsumersOf(r.g, u), p) == Count(r.g.node[p].inputs, u)
  {
    assert Count(ConsumersOf(st.g, u), p) == Count(st.g.node[p].inputs, u);
  }

  lemma BindInputLinked(st: State, o: Op, t: Tensor)
    requires Linked(st.g) && o in st.g.ops && t in st.attrs
    ensures Linked(BindInput(st, o, t).g)
  {
    var r := BindInput(st, o, t);
    forall u: Tensor, p: Op | p in r.g.ops ensures Count(ConsumersOf(r.g, u), p) == Count(r.g.node[p].inputs, u) {
      BindInputAt(st, o, t, u, p);
    }
    forall u: Tensor, p: Op | p in ConsumersOf(r.g, u) ensures p in r.g.ops {
      assert p in ConsumersOf(st.g, u) || p == o;
    }
    assert ProducersAgree(r.g);
  }

  lemma BindInputCounters(st: State, o: Op, t: Tensor)
    requires Counters(st) && NoDuplicates(st.g.ops) && o in st.g.ops && t in st.attrs
    requires NoDuplicates(st.inputs) && NoDuplicates(st.outputs) && (t in st.inputs <==> INPUT in st.attrs[t])
    ensures Counters(BindInput(st, o, t))
  {
    var r := BindInput(st, o, t);
    FreeInRecord(st.g, r.g, st.inputs, t, 1);
    forall u ensures Writes(r.g.node, r.g.ops, u) == Writes(st.g.node, st.g.ops, u) {
      WritesRebind(st.g.node, st.g.ops, o, st.g.node[o].(inputs := st.g.node[o].inputs + [t]), u);
    }
    FreeOutRecord(st.g.node, st.g.ops, r.g.node, r.g.ops, st.outputs, 0, 0);
  }

  lemma BindInputTables(st: State, o: Op, t: Tensor)
    requires Tables(st) && o in st.g.node && t in st.attrs
    ensures Tables(BindInput(st, o, t))
  {
  }

  lemma BindInputKeeps(st: State, o: Op, t: Tensor)
    requires Consistent(st) && o in st.g.node && t in st.attrs
    ensures Consistent(BindInput(st, o, t))
  {
    BindInputLinked(st, o, t);
    BindInputTables(st, o, t);
    BindInputCounters(st, o, t);
  }

  lemma BindOutputLinked(st: State, o: Op, t: Tensor)
    requires Linked(st.g) && o in st.g.ops && t in st.attrs
    ensures Linked(BindOutput(st, o, t).g)
  {
    var r := BindOutput(st, o, t);
    assert forall u: Tensor :: ConsumersOf(r.g, u) == ConsumersOf(st.g, u);
    forall u: Tensor, p: Op | p in r.g.ops ensures Count(ConsumersOf(r.g, u), p) == Count(r.g.node[p].inputs, u) {
      assert Count(ConsumersOf(st.g, u), p) == Count(st.g.node[p].inputs, u);
    }
  }

  lemma BindOutputCounters(st: State, o: Op, t: Tensor)
    requires Counters(st) && NoDuplicates(st.g.ops) && o in st.g.ops && t in st.attrs
    requires NoDuplicates(st.inputs) && NoDuplicates(st.outputs) && (t in st.outputs <==> OUTPUT in st.attrs[t])
    ensures Counters(BindOutput(st, o, t))
  {
    var r := BindOutput(st, o, t);
    var n := st.g.node[o];
    FreeInRecord(st.g, r.g, st.inputs, 0, 0);
    forall u ensures Writes(r.g.node, r.g.ops, u) == Writes(st.g.node, st.g.ops, u) + if u == t then 1 else 0 {
      WritesRebind(st.g.node, st.g.ops, o, n.(outputs := n.outputs + [t]), u);
    }
    FreeOutRecord(st.g.node, st.g.ops, r.g.node, r.g.ops, st.outputs, t, 1);
  }

  lemma BindOutputTables(st: State, o: Op, t: Tensor)
    requires Tables(st) && o in st.g.node && t in st.attrs
    ensures Tables(BindOutput(st, o, t))
  {
  }

  lemma BindOutputKeeps(st: State, o: Op, t: Tensor)
    requires Consistent(st) && o in st.g.node && t in st.attrs
    ensures Consistent(BindOutput(st, o, t))
  {
    BindOutputLinked(st, o, t);
    BindOutputTables(st, o, t);
    BindOutputCounters(st, o, t);
  }

  /** Over every run of the building interface the consumer lists count the bindings, the
      producer entries name a writer of their tensor, and both counters are the tensors
      created minus the tensors bound. */
  lemma {:induction false} EveryRunConsistent(st: State, run: seq<Step>)
    requires Consistent(st) && LegalRun(st, run)
    ensures Consistent(Build(st, run))
    decreases |run|
  {
    if run != [] {
      match run[0] {
        case NewTensor(t, attrs) => TensorKeeps(st, t, attrs);
        case NewOp(o, kind) => OperationKeeps(st, o, kind);
        case BindIn(o, t) => BindInputKeeps(st, o, t);
        case BindOut(o, t) => BindOutputKeeps(st, o, t);
      }
      EveryRunConsistent(Do(st, run[0]), run[1..]);
    }
  }

  lemma EmptyConsistent()
    ensures Consistent(EMPTY)
  {
  }

  // ---- the producer entry is the last writer ----

  /** The operation of the last step that binds t as an output. */
  function LastWriter(run: seq<Step>, t: Tensor): Option<Op> {
    if run == [] then None
    else if run[|run| - 1].BindOut? && run[|run| - 1].tensor == t then Some(run[|run| - 1].op)
    else LastWriter(run[..|run| - 1], t)
  }

  lemma {:induction false} BuildAppend(st: State, run: seq<Step>, step: Step)
    requires LegalRun(st, run + [step])
    ensures LegalRun(st, run) && Legal(Build(st, run), step)
    ensures Build(st, run + [step]) == Do(Build(st, run), step)
    decreases |run|
  {
    if run == [] {
      assert ([] + [step])[1..] == [];
    } else {
      assert (run + [step])[1..] == run[1..] + [step];
      BuildAppend(Do(st, run[0]), run[1..], step);
    }
  }

  lemma {:induction false} ProducerIsLastWriter(run: seq<Step>, t: Tensor)
    requires LegalRun(EMPTY, run)
    ensures ProducerOf(Build(EMPTY, run).g, t) == LastWriter(run, t)
    decreases |run|
  {
    if run != [] {
      var before, step := run[..|run| - 1], run[|run| - 1];
      assert run == before + [step];
      BuildAppend(EMPTY, before, step);
      ProducerIsLastWriter(before, t);
      EmptyConsistent();
      EveryRunConsistent(EMPTY, before);
    }
  }

  // ---- everything is recorded in the order of the run ----

  /** The tensors that a run binds to an operation as inputs and as outputs, first to last. */
  function BoundIn(run: seq<Step>, o: Op): seq<Tensor> {
    if run == [] then []
    else
      var before, step := BoundIn(run[..|run| - 1], o), run[|run| - 1];
      if step.BindIn? && step.op == o then before + [step.tensor] else before
  }

  function BoundOut(run: seq<Step>, o: Op): seq<Tensor> {
    if run == [] then []
    else
      var before, step := BoundOut(run[..|run| - 1], o), run[|run| - 1];
      if step.BindOut? && step.op == o then before + [step.tensor] else before
  }

  /** The operations that a run binds a tensor to as an input, first to last. */
  function ReadersOf(run: seq<Step>, t: Tensor): seq<Op> {
    if run == [] then []
    else
      var before, step := ReadersOf(run[..|run| - 1], t), run[|run| - 1];
      if step.BindIn? && step.tensor == t then before + [step.op] else before
  }

  /** The operations made, and the tensors made with an attribute bit, first to last. */
  function Made(run: seq<Step>): seq<Op> {
    if run == [] then []
    else Made(run[..|run| - 1]) + if run[|run| - 1].NewOp? then [run[|run| - 1].op] else []
  }

  function MadeWith(run: seq<Step>, a: Attribute): seq<Tensor> {
    if run == [] then []
    else
      MadeWith(run[..|run| - 1], a)
      + if run[|run| - 1].NewTensor? && a in run[|run| - 1].attrs then [run[|run| - 1].tensor] else []
  }

  lemma BoundMore(run: seq<Step>, step: Step, o: Op)
    ensures BoundIn(run + [step], o) == BoundIn(run, o) + if step.BindIn? && step.op == o then [step.tensor] else []
    ensures BoundOut(run + [step], o) == BoundOut(run, o) + if step.BindOut? && step.op == o then [step.tensor] else []
  {
    assert (run + [step])[..|run|] == run;
  }

  lemma ReadersMore(run: seq<Step>, step: Step, t: Tensor)
    ensures ReadersOf(run + [step], t) == ReadersOf(run, t) + if step.BindIn? && step.tensor == t then [step.op] else []
  {
    assert (run + [step])[..|run|] == run;
  }

  lemma MadeMore(run: seq<Step>, step: Step)
    ensures Made(run + [step]) == Made(run) + if step.NewOp? then [step.op] else []
    ensures forall a :: MadeWith(run + [step], a) == MadeWith(run, a) + if step.NewTensor? && a in step.attrs then [step.tensor] else []
  {
    assert (run + [step])[..|run|] == run;
  }

  /** An operation has the lists the run bound, and one that was not made has none. */
  predicate NodeRecorded(st: State, run: seq<Step>, o: Op) {
    if o in st.g.node then st.g.node[o].inputs == BoundIn(run, o) && st.g.node[o].outputs == BoundOut(run, o)
    else BoundIn(run, o) == [] && BoundOut(run, o) == []
  }

  predicate ListsRecorded(st: State, run: seq<Step>) {
    st.g.ops == Made(run) && st.inputs == MadeWith(run, INPUT) && st.outputs == MadeWith(run, OUTPUT)
  }

  /** A creation left the operation of its kind, and the tensor with its bits. */
  predicate CreationKept(st: State, step: Step) {
    match step
    case NewOp(o, kind) => o in st.g.node && st.g.node[o].kind == kind
    case NewTensor(t, attrs) => t in st.attrs && st.attrs[t] == attrs
    case _ => true
  }

  /** The state holds what the run did. */
  ghost predicate Recorded(st: State, run: seq<Step>) {
    && (forall o :: NodeRecorded(st, run, o))
    && (forall t :: ConsumersOf(st.g, t) == ReadersOf(run, t))
    && ListsRecorded(st, run) && forall step | step in run :: CreationKept(st, step)
  }

  lemma NodeStep(st: State, run: seq<Step>, step: Step, o: Op)
    requires Legal(st, step) && NodeRecorded(st, run, o)
    ensures NodeRecorded(Do(st, step), run + [step], o)
  {
    hide BoundIn; hide BoundOut;
    BoundMore(run, step, o);
  }

  lemma ReadersStep(st: State, run: seq<Step>, step: Step, t: Tensor)
    requires Legal(st, step) && ConsumersOf(st.g, t) == ReadersOf(run, t) && (step.BindIn? ==> step.op in st.g.ops)
    ensures ConsumersOf(Do(st, step).g, t) == ReadersOf(run + [step], t)
  {
    hide ReadersOf;
    ReadersMore(run, step, t);
  }

  lemma ListsStep(st: State, run: seq<Step>, step: Step)
    requires Legal(st, step) && ListsRecorded(st, run)
    requires step.NewTensor? ==> step.tensor !in st.inputs && step.tensor !in st.outputs
    ensures ListsRecorded(Do(st, step), run + [step])
  {
    hide Made; hide MadeWith;
    MadeMore(run, step);
  }

  lemma KeptStep(st: State, step: Step, made: Step)
    requires Legal(st, step) && (CreationKept(st, made) || made == step)
    ensures CreationKept(Do(st, step), made)
  {
  }

  lemma StepRecorded(st: State, run: seq<Step>, step: Step)
    requires Consistent(st) && Recorded(st, run) && Legal(st, step)
    ensures Recorded(Do(st, step), run + [step])
  {
    forall o ensures NodeRecorded(Do(st, step), run + [step], o) { NodeStep(st, run, step, o); }
    forall t ensures ConsumersOf(Do(st, step).g, t) == ReadersOf(run + [step], t) { ReadersStep(st, run, step, t); }
    ListsStep(st, run, step);
    forall x | x in run + [step] ensures CreationKept(Do(st, step), x) { KeptStep(st, step, x); }
  }

  /** Over every run every list is in the order of the run: the inputs and outputs of each operation,
      the readers of each tensor, the operations, and the inputs and outputs of the graph. */
  lemma {:induction false} RunRecorded(run: seq<Step>)
    requires LegalRun(EMPTY, run)
    ensures Recorded(Build(EMPTY, run), run)
    decreases |run|
  {
    if run != [] {
      var before, step := run[..|run| - 1], run[|run| - 1];
      assert run == before + [step];
      BuildAppend(EMPTY, before, step);
      RunRecorded(before);
      EmptyConsistent();
      EveryRunConsistent(EMPTY, before);
      hide Recorded; hide Consistent;
      StepRecorded(Build(EMPTY, before), before, step);
    }
  }

  // ---- what the counters tell ----

  lemma {:induction false} PositiveMeansUnbound(g: Graph, ts: seq<Tensor>)
    requires FreeIn(g, ts) > 0
    ensures exists t :: t in ts && ConsumersOf(g, t) == []
  {
    assert ts == [ts[0]] + ts[1..];
    if ConsumersOf(g, ts[0]) != [] {
      PositiveMeansUnbound(g, ts[1..]);
      var t :| t in ts[1..] && ConsumersOf(g, t) == [];
      assert t in ts;
    } else {
      assert ts[0] in ts;
    }
  }

  function Unwritten(node: map<Op, Node>, ops: seq<Op>, ts: seq<Tensor>): nat
    requires forall o | o in ops :: o in node
  {
    if ts == [] then 0 else (if Writes(node, ops, ts[0]) == 0 then 1 else 0) + Unwritten(node, ops, ts[1..])
  }

  lemma {:induction false} CounterIsUnwritten(node: map<Op, Node>, ops: seq<Op>, ts: seq<Tensor>)
    requires forall o | o in ops :: o in node
    requires forall t | t in ts :: Writes(node, ops, t) <= 1
    ensures FreeOut(node, ops, ts) == Unwritten(node, ops, ts)
    decreases |ts|
  {
    if ts != [] {
      CounterIsUnwritten(node, ops, ts[1..]);
    }
  }

  lemma {:induction false} UnwrittenZero(node: map<Op, Node>, ops: seq<Op>, ts: seq<Tensor>)
    requires forall o | o in ops :: o in node
    ensures Unwritten(node, ops, ts) == 0 <==> forall t | t in ts :: Writes(node, ops, t) > 0
    decreases |ts|
  {
    if ts != [] {
      UnwrittenZero(node, ops, ts[1..]);
      assert ts == [ts[0]] + ts[1..];
      assert (forall t | t in ts :: Writes(node, ops, t) > 0) <==>
             Writes(node, ops, ts[0]) > 0 && forall t | t in ts[1..] :: Writes(node, ops, t) > 0;
    }
  }

  /** The two warnings of compilation.  A positive input counter means some INPUT tensor was
      never bound; if no OUTPUT tensor is bound twice, the output counter is the number of
      unbound OUTPUT tensors, so it is zero exactly when all are bound. */
  lemma WarningsJustified(run: seq<Step>)
    requires LegalRun(EMPTY, run)
    ensures var st := Build(EMPTY, run);
            && Consistent(st)
            && (st.freeInputs > 0 ==> exists t :: t in st.inputs && ConsumersOf(st.g, t) == [])
            && ((forall t | t in st.outputs :: Writes(st.g.node, st.g.ops, t) <= 1) ==>
                  && st.freeOutputs == Unwritten(st.g.node, st.g.ops, st.outputs)
                  && (st.freeOutputs == 0 <==> forall t | t in st.outputs :: Writes(st.g.node, st.g.ops, t) > 0))
  {
    EmptyConsistent();
    EveryRunConsistent(EMPTY, run);
    var st := Build(EMPTY, run);
    if st.freeInputs > 0 {
      PositiveMeansUnbound(st.g, st.inputs);
    }
    if forall t | t in st.outputs :: Writes(st.g.node, st.g.ops, t) <= 1 {
      CounterIsUnwritten(st.g.node, st.g.ops, st.outputs);
      UnwrittenZero(st.g.node, st.g.ops, st.outputs);
    }
  }

  // ---- replacing a bound input ----

  /** What an operation that swaps a freshly bound input for a converted copy does: its own
      slot is overwritten, the whole consumer list of the old tensor is dropped, and the
      operation is appended to the list of the new one. */
  function Renew(g: Graph, org: Tensor, dst: Tensor, o: Op, slot: nat): Graph
    requires o in g.node && slot < |g.node[o].inputs|
  {
    var n := g.node[o];
    var h := g.(node := g.node[o := n.(inputs := n.inputs[slot := dst])]);
    if o !in g.ops then h
    else
      var dropped := h.(consumers := h.consumers - {org});
      dropped.(consumers := dropped.consumers[dst := ConsumersOf(dropped, dst) + [o]])
  }

  lemma CountUpdate<T>(s: seq<T>, i: nat, x: T, y: T)
    requires i < |s|
    ensures Count(s[i := x], y) == Count(s, y) - (if s[i] == y then 1 else 0) + if x == y then 1 else 0
  {
    assert s == s[..i] + [s[i]] + s[i + 1..];
    assert s[i := x] == s[..i] + [x] + s[i + 1..];
  }

  /** What the replacement does to one reader of one tensor. */
  lemma RenewAt(g: Graph, org: Tensor, dst: Tensor, o: Op, slot: nat, t: Tensor, p: Op)
    requires Linked(g) && o in g.ops && slot < |g.node[o].inputs| && g.node[o].inputs[slot] == org && org != dst
    requires p in g.ops
    ensures var h := Renew(g, org, dst, o, slot);
            && p in h.node
            && Count(ConsumersOf(h, t), p) == (if t == org then 0 else Count(g.node[p].inputs, t)) + (if t == dst && p == o then 1 else 0)
            && Count(h.node[p].inputs, t)
               == Count(g.node[p].inputs, t) + (if p != o then 0 else if t == org then -1 else if t == dst then 1 else 0)
  {
    assert Count(ConsumersOf(g, t), p) == Count(g.node[p].inputs, t);
    CountUpdate(g.node[o].inputs, slot, dst, t);
  }

  /** The copy takes the slot of the old tensor; every other slot, every other operation and every
      other list stays as it was. */
  lemma RenewSlot(g: Graph, org: Tensor, dst: Tensor, o: Op, slot: nat)
    requires o in g.ops && o in g.node && slot < |g.node[o].inputs| && org != dst
    ensures var h := Renew(g, org, dst, o, slot);
            && h.ops == g.ops && h.producer == g.producer && h.node.Keys == g.node.Keys
            && (forall p | p in g.node && p != o :: h.node[p] == g.node[p])
            && |h.node[o].inputs| == |g.node[o].inputs| && h.node[o].inputs[slot] == dst
            && (forall i | 0 <= i < |g.node[o].inputs| && i != slot :: h.node[o].inputs[i] == g.node[o].inputs[i])
            && h.node[o].outputs == g.node[o].outputs && h.node[o].kind == g.node[o].kind
            && ConsumersOf(h, org) == [] && ConsumersOf(h, dst) == ConsumersOf(g, dst) + [o]
            && forall t | t != org && t != dst :: ConsumersOf(h, t) == ConsumersOf(g, t)
  {
  }

  /** The consumer lists stay truthful exactly when that slot was the only binding of the
      old tensor: a tensor shared with any other reader loses the other reader. */
  lemma RenewTruthfulIffPrivate(g: Graph, org: Tensor, dst: Tensor, o: Op, slot: nat)
    requires Linked(g) && o in g.ops && slot < |g.node[o].inputs| && g.node[o].inputs[slot] == org && org != dst
    ensures HasNodes(Renew(g, org, dst, o, slot))
    ensures ConsumersAgree(Renew(g, org, dst, o, slot)) <==>
            forall p | p in g.ops :: Count(g.node[p].inputs, org) == if p == o then 1 else 0
  {
    var h := Renew(g, org, dst, o, slot);
    forall t: Tensor, p: Op | p in g.ops
      ensures Count(ConsumersOf(h, t), p) == Count(h.node[p].inputs, t) <==>
              (t == org ==> Count(g.node[p].inputs, org) == if p == o then 1 else 0)
    {
      RenewAt(g, org, dst, o, slot, t, p);
    }
    forall t: Tensor, p: Op | p in ConsumersOf(h, t) ensures p in h.ops {
      assert p in ConsumersOf(g, t) || p == o;
    }
    if ConsumersAgree(h) {
      forall p | p in g.ops ensures Count(g.node[p].inputs, org) == if p == o then 1 else 0 {
        assert Count(ConsumersOf(h, org), p) == Count(h.node[p].inputs, org);
      }
    }
  }
}
