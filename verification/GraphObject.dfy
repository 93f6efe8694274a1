/** The graph object: its fields are updated in place by creating and binding.  Each method
    is tied to the step function of module GraphStore, about whose runs the invariants are
    proved. */
module GraphObject {
  import opened GraphModel
  import opened GraphStore

  /** Bind a list of tensors in order. */
  function BindInputList(st: State, o: Op, ts: seq<Tensor>): (r: State)
    requires o in st.g.node && forall t | t in ts :: t in st.attrs
    ensures o in r.g.node && r.attrs == st.attrs
    decreases |ts|
  {
    if ts == [] then st else BindInputList(BindInput(st, o, ts[0]), o, ts[1..])
  }

  function BindOutputList(st: State, o: Op, ts: seq<Tensor>): (r: State)
    requires o in st.g.node && forall t | t in ts :: t in st.attrs
    ensures o in r.g.node && r.attrs == st.attrs
    decreases |ts|
  {
    if ts == [] then st else BindOutputList(BindOutput(st, o, ts[0]), o, ts[1..])
  }

  /** Binding a list appends it, first to last, to the one list of the one operation. */
  lemma {:induction false} InputListAppended(st: State, o: Op, ts: seq<Tensor>)
    requires o in st.g.node && forall t | t in ts :: t in st.attrs
    ensures var n := st.g.node[o]; BindInputList(st, o, ts).g.node == st.g.node[o := n.(inputs := n.inputs + ts)]
    decreases |ts|
  {
    if ts == [] {
      assert st.g.node[o].inputs + ts == st.g.node[o].inputs;
    } else {
      InputListAppended(BindInput(st, o, ts[0]), o, ts[1..]);
      assert st.g.node[o].inputs + [ts[0]] + ts[1..] == st.g.node[o].inputs + ts;
    }
  }

  lemma {:induction false} OutputListAppended(st: State, o: Op, ts: seq<Tensor>)
    requires o in st.g.node && forall t | t in ts :: t in st.attrs
    ensures var n := st.g.node[o]; BindOutputList(st, o, ts).g.node == st.g.node[o := n.(outputs := n.outputs + ts)]
    decreases |ts|
  {
    if ts == [] {
      assert st.g.node[o].outputs + ts == st.g.node[o].outputs;
    } else {
      OutputListAppended(BindOutput(st, o, ts[0]), o, ts[1..]);
      assert st.g.node[o].outputs + [ts[0]] + ts[1..] == st.g.node[o].outputs + ts;
    }
  }

  class GraphImpl {
    var opVector: seq<Op>
    /** The operations' own input and output lists. */
    var nodes: map<Op, Node>
    var specs: map<Tensor, set<Attribute>>
    var inputsTensor: seq<Tensor>
    var outputsTensor: seq<Tensor>
    var tensorConsumers: map<Tensor, seq<Op>>
    var tensorProducer: map<Tensor, Op>
    var notConsumedInputCnt: int
    var notConsumedOutputCnt: int

    function View(): State
      reads this
    {
      State(Graph(opVector, nodes, tensorConsumers, tensorProducer), specs,
            inputsTensor, outputsTensor, notConsumedInputCnt, notConsumedOutputCnt)
    }

    constructor ()
      ensures View() == EMPTY && Consistent(View())
    {
      opVector, nodes, specs, inputsTensor, outputsTensor := [], map[], map[], [], [];
      tensorConsumers, tensorProducer := map[], map[];
      notConsumedInputCnt, notConsumedOutputCnt := 0, 0;
      new;
      EmptyConsistent();
    }

    method AddInput(t: Tensor)
      modifies this`inputsTensor
      ensures inputsTensor == AddOnce(old(inputsTensor), t)
    {
      if t !in inputsTensor {
        inputsTensor := inputsTensor + [t];
      }
    }

    method AddOutput(t: Tensor)
      modifies this`outputsTensor
      ensures outputsTensor == AddOnce(old(outputsTensor), t)
    {
      if t !in outputsTensor {
        outputsTensor := outputsTensor + [t];
      }
    }

    method ProduceInput(t: Tensor)
      modifies this`inputsTensor, this`notConsumedInputCnt
      ensures inputsTensor == AddOnce(old(inputsTensor), t) && notConsumedInputCnt == old(notConsumedInputCnt) + 1
    {
      AddInput(t);
      notConsumedInputCnt := notConsumedInputCnt + 1;
    }

    method ProduceOutput(t: Tensor)
      modifies this`outputsTensor, this`notConsumedOutputCnt
      ensures outputsTensor == AddOnce(old(outputsTensor), t) && notConsumedOutputCnt == old(notConsumedOutputCnt) + 1
    {
      AddOutput(t);
      notConsumedOutputCnt := notConsumedOutputCnt + 1;
    }

    /** Register a new tensor under its attribute bits. */
    method CreateTensor(t: Tensor, attrs: set<Attribute>)
      requires t !in specs
      modifies this
      ensures View() == GraphStore.CreateTensor(old(View()), t, attrs)
    {
      specs := specs[t := attrs];
      if INPUT in attrs {
        ProduceInput(t);
      }
      if OUTPUT in attrs {
        ProduceOutput(t);
      }
    }

    method CreateOperation(o: Op, kind: int)
      requires o !in nodes
      modifies this
      ensures View() == GraphStore.CreateOperation(old(View()), o, kind)
    {
      nodes := nodes[o := Node(kind, [], [])];
      opVector := opVector + [o];
    }

    /** Append the operation to the tensor's readers, if it is in the operation list. */
    method UpdateTensorConsumersMap(t: Tensor, o: Op)
      requires NoDuplicates(opVector)
      modifies this`tensorConsumers
      ensures View().g == RecordConsumer(old(View().g), t, o)
    {
      for i := 0 to |opVector|
        invariant tensorConsumers == if o in opVector[..i]
                                     then old(tensorConsumers)[t := ConsumersOf(old(View().g), t) + [o]]
                                     else old(tensorConsumers)
      {
        if opVector[i] == o {
          tensorConsumers := tensorConsumers[t := ConsumersOf(View().g, t) + [o]];
        }
        assert opVector[..i + 1] == opVector[..i] + [opVector[i]];
      }
      assert opVector[..|opVector|] == opVector;
    }

    method UpdateTensorProducerMap(t: Tensor, o: Op)
      modifies this`tensorProducer
      ensures View().g == RecordProducer(old(View().g), t, o)
    {
      for i := 0 to |opVector|
        invariant tensorProducer == if o in opVector[..i] then old(tensorProducer)[t := o] else old(tensorProducer)
      {
        if opVector[i] == o {
          tensorProducer := tensorProducer[t := o];
        }
        assert opVector[..i + 1] == opVector[..i] + [opVector[i]];
      }
      assert opVector[..|opVector|] == opVector;
    }

    /** Bind one input: the operation's list, the counter, the consumer map. */
    method BindInput(o: Op, t: Tensor)
      requires o in nodes && t in specs && NoDuplicates(opVector)
      modifies this
      ensures View() == GraphStore.BindInput(old(View()), o, t)
    {
      nodes := nodes[o := nodes[o].(inputs := nodes[o].inputs + [t])];
      if INPUT in specs[t] {
        notConsumedInputCnt := notConsumedInputCnt - 1;
      }
      UpdateTensorConsumersMap(t, o);
    }

    method BindOutput(o: Op, t: Tensor)
      requires o in nodes && t in specs
      modifies this
      ensures View() == GraphStore.BindOutput(old(View()), o, t)
    {
      nodes := nodes[o := nodes[o].(outputs := nodes[o].outputs + [t])];
      if OUTPUT in specs[t] {
        notConsumedOutputCnt := notConsumedOutputCnt - 1;
      }
      UpdateTensorProducerMap(t, o);
    }

    method BindInputs(o: Op, ts: seq<Tensor>)
      requires o in nodes && (forall t | t in ts :: t in specs) && NoDuplicates(opVector)
      modifies this
      ensures View() == BindInputList(old(View()), o, ts)
      ensures o in nodes && nodes == old(nodes)[o := nodes[o]] && nodes[o].inputs == old(nodes)[o].inputs + ts
    {
      InputListAppended(View(), o, ts);
      for i := 0 to |ts|
        invariant o in nodes && specs == old(specs) && opVector == old(opVector)
        invariant forall t | t in ts[i..] :: t in specs
        invariant BindInputList(View(), o, ts[i..]) == BindInputList(old(View()), o, ts)
      {
        assert ts[i..][1..] == ts[i + 1..];
        assert ts[i] in ts[i..];
        BindInput(o, ts[i]);
      }
    }

    method BindOutputs(o: Op, ts: seq<Tensor>)
      requires o in nodes && forall t | t in ts :: t in specs
      modifies this
      ensures View() == BindOutputList(old(View()), o, ts)
      ensures o in nodes && nodes == old(nodes)[o := nodes[o]] && nodes[o].outputs == old(nodes)[o].outputs + ts
    {
      OutputListAppended(View(), o, ts);
      for i := 0 to |ts|
        invariant o in nodes && specs == old(specs)
        invariant forall t | t in ts[i..] :: t in specs
        invariant BindOutputList(View(), o, ts[i..]) == BindOutputList(old(View()), o, ts)
      {
        assert ts[i..][1..] == ts[i + 1..];
        assert ts[i] in ts[i..];
        BindOutput(o, ts[i]);
      }
    }

    method GetConsumersOp(t: Tensor) returns (ops: seq<Op>)
      ensures ops == ConsumersOf(View().g, t)
    {
      if t in tensorConsumers { ops := tensorConsumers[t]; } else { ops := []; }
    }

    method GetProducerOp(t: Tensor) returns (o: Option<Op>)
      ensures o == ProducerOf(View().g, t)
    {
      if t in tensorProducer { o := Some(tensorProducer[t]); } else { o := None; }
    }

    /** Swap a bound input for a converted copy of it: overwrite the slot, drop the old
        tensor's consumer list, append to the new tensor's. */
    method RenewTensorConsumersMap(org: Tensor, dst: Tensor, o: Op, slot: nat)
      requires o in nodes && slot < |nodes[o].inputs|
      modifies this
      ensures View().g == Renew(old(View().g), org, dst, o, slot)
      ensures old(Linked(View().g)) && o in old(opVector) && old(nodes)[o].inputs[slot] == org && org != dst ==>
                HasNodes(View().g)
                && (ConsumersAgree(View().g) <==>
                    forall p | p in old(opVector) :: p in old(nodes) && Count(old(nodes)[p].inputs, org) == if p == o then 1 else 0)
    {
      ghost var g := View().g;
      nodes := nodes[o := nodes[o].(inputs := nodes[o].inputs[slot := dst])];
      var exists_op := o in opVector;
      if exists_op {
        if org in tensorConsumers {
          tensorConsumers := tensorConsumers - {org};
        }
        tensorConsumers := tensorConsumers[dst := ConsumersOf(View().g, dst) + [o]];
      }
      assert g.consumers - {org} == if org in g.consumers then g.consumers - {org} else g.consumers;
      if Linked(g) && o in g.ops && g.node[o].inputs[slot] == org && org != dst {
        RenewTruthfulIffPrivate(g, org, dst, o, slot);
      }
    }
  }
}
