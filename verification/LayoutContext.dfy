/** The pass as it runs: a context object whose maps and flags are updated in place, and a
    queue that is popped and pushed in a loop.  The loop is proved to compute the function
    InferLayout, about which the theorems of LayoutWorklist and LayoutExecutes are stated. */
module LayoutContext {
  import opened GraphModel
  import opened Permutations
  import opened TensorLayout
  import opened LayoutWorklist
  import opened LayoutHandlers

  class LayoutInferContext {
    var opVisited: map<Op, bool>
    var tensorPv: map<Tensor, Permute>
    var tensorMap: map<Tensor, Mapped>
    var graphInputMap: map<Tensor, Mapped>
    var graphOutputMap: map<Tensor, Mapped>
    var inferGraph: Inferred<Emit>
    /** History of handled operations. */
    var order: seq<Op>

    /** The whole state as a value. */
    function View(): Context<Emit>
      reads this
    {
      Context(opVisited, tensorPv, tensorMap, graphInputMap, graphOutputMap, inferGraph, order)
    }

    constructor (ops: seq<Op>)
      ensures View() == Context(map o | o in ops :: false, map[], map[], map[], map[], Inferred(0, []), [])
    {
      opVisited := map[];
      tensorPv, tensorMap, graphInputMap, graphOutputMap := map[], map[], map[], map[];
      inferGraph, order := Inferred(0, []), [];
      new;
      for i := 0 to |ops|
        invariant View() == Context(map o | o in ops[..i] :: false, map[], map[], map[], map[], Inferred(0, []), [])
      {
        assert ops[..i + 1] == ops[..i] + [ops[i]];
        opVisited := opVisited[ops[i] := false];
      }
      assert ops[..|ops|] == ops;
    }

    method SetPermuteVector(t: Tensor, pv: Permute)
      modifies this`tensorPv
      ensures tensorPv == old(tensorPv)[t := pv]
    {
      tensorPv := tensorPv[t := pv];
    }

    method MarkVisited(o: Op)
      modifies this`opVisited
      ensures opVisited == old(opVisited)[o := true]
    {
      opVisited := opVisited[o := true];
    }

    method IsReadyForInfer(s: Source, o: Op) returns (ready: bool)
      requires o in s.g.node
      ensures ready <==> IsReady(s, View(), o)
      ensures ready <==> forall t | t in s.g.node[o].inputs :: t in s.constants || t in s.placeholders || t in tensorPv
    {
      var inputs := s.g.node[o].inputs;
      for i := 0 to |inputs|
        invariant forall j | 0 <= j < i :: Relevant(s, inputs[j]) ==> inputs[j] in tensorPv
      {
        if inputs[i] !in s.constants && inputs[i] !in s.placeholders && inputs[i] !in tensorPv {
          return false;
        }
      }
      ready := true;
    }

    method UpdateTensorMap(t: Tensor, m: Mapped)
      modifies this`tensorMap
      ensures tensorMap == old(tensorMap)[t := m]
    {
      tensorMap := tensorMap[t := m];
    }

    method UpdateGraphInputMap(t: Tensor, m: Mapped)
      modifies this`graphInputMap
      ensures graphInputMap == old(graphInputMap)[t := m]
    {
      graphInputMap := graphInputMap[t := m];
    }

    method UpdateGraphOutputMap(t: Tensor, m: Mapped)
      modifies this`graphOutputMap
      ensures graphOutputMap == old(graphOutputMap)[t := m]
    {
      graphOutputMap := graphOutputMap[t := m];
    }

    /** A new tensor of the graph being built, holding data if it is a constant. */
    method CreateTensor(data: Option<Data>) returns (m: Mapped)
      modifies this`inferGraph
      ensures m == old(inferGraph).next
      ensures inferGraph == Inferred(m + 1, old(inferGraph).emitted + if data.Some? then [Constant(data.value, m)] else [])
    {
      m := inferGraph.next;
      var es := inferGraph.emitted;
      if data.Some? { es := es + [Constant(data.value, m)]; }
      inferGraph := Inferred(m + 1, es);
    }

    /** One turn of the loop over the graph inputs. */
    method AddInput(net: Network, given: map<Tensor, Permute>, t: Tensor)
      modifies this
      ensures View() == LayoutHandlers.AddInput(net, given, old(View()), t)
    {
      var m := CreateTensor(None);
      UpdateTensorMap(t, m);
      UpdateGraphInputMap(t, m);
      SetPermuteVector(t, InitialLayout(net, given, t));
    }

    /** One turn of the loop over the constants. */
    method AddSource(net: Network, given: map<Tensor, Permute>, t: Tensor)
      modifies this
      ensures View() == LayoutHandlers.AddSource(net, given, old(View()), t)
    {
      var m := CreateTensor(Some(DataOf(net, t)));
      UpdateTensorMap(t, m);
      SetPermuteVector(t, InitialLayout(net, given, t));
    }

    /** One turn of the loop over the graph outputs. */
    method AddOutput(net: Network, given: map<Tensor, Permute>, t: Tensor)
      modifies this
      ensures View() == LayoutHandlers.AddOutput(net, given, old(View()), t)
    {
      var m := CreateTensor(None);
      UpdateTensorMap(t, m);
      UpdateGraphOutputMap(t, m);
      SetPermuteVector(t, InitialLayout(net, given, t));
    }

    /** Mark the operation, let its handler rewrite the context, collect what it returns. */
    method HandleLayoutInfer(h: Handler<Emit>, o: Op) returns (next: seq<Tensor>)
      modifies this
      ensures (View(), next) == Handle(h, old(View()), o)
    {
      MarkVisited(o);
      var e := h(View(), o);
      tensorPv, tensorMap, inferGraph := e.pv, e.tensorMap, e.infer;
      order := order + [o];
      next := e.next;
    }
  }

  method IsAllInputsConst(s: Source, o: Op) returns (all: bool)
    requires o in s.g.node
    ensures all <==> AllConstant(s, o)
  {
    var inputs := s.g.node[o].inputs;
    for i := 0 to |inputs|
      invariant forall j | 0 <= j < i :: inputs[j] in s.constants
    {
      if inputs[i] !in s.constants {
        return false;
      }
    }
    all := true;
  }

  /** The query a two-dimensional convolution overrides. */
  method ConstantInputsTensor(s: Source, o: Op) returns (ts: seq<Tensor>)
    requires o in s.g.node
    ensures ts == ConstantsOf(s, o)
  {
    var all := IsAllInputsConst(s, o);
    var n := s.g.node[o];
    if !all {
      ts := [];
    } else if n.kind == CONV2D && n.inputs != [] {
      ts := [n.inputs[0]];
    } else {
      ts := n.inputs;
    }
  }

  /** The constants of all-constant operations, in the order of the operations. */
  method GetConstantInputs(s: Source) returns (ts: seq<Tensor>)
    requires HasNodes(s.g)
    ensures ts == ConstantInputs(s, s.g.ops)
  {
    ts := [];
    for i := 0 to |s.g.ops|
      invariant ts + ConstantInputs(s, s.g.ops[i..]) == ConstantInputs(s, s.g.ops)
    {
      assert s.g.ops[i..][1..] == s.g.ops[i + 1..];
      var more := ConstantInputsTensor(s, s.g.ops[i]);
      assert ts + (more + ConstantInputs(s, s.g.ops[i + 1..])) == ts + more + ConstantInputs(s, s.g.ops[i + 1..]);
      ts := ts + more;
    }
  }

  lemma AddInputsFrom(net: Network, given: map<Tensor, Permute>, c: Context<Emit>, ts: seq<Tensor>, i: nat)
    requires i < |ts|
    ensures AddInputs(net, given, c, ts[i..]) == AddInputs(net, given, AddInput(net, given, c, ts[i]), ts[i + 1..])
  {
    assert ts[i..][1..] == ts[i + 1..];
  }

  lemma AddSourcesFrom(net: Network, given: map<Tensor, Permute>, c: Context<Emit>, ts: seq<Tensor>, i: nat)
    requires i < |ts|
    ensures AddSources(net, given, c, ts[i..]) == AddSources(net, given, AddSource(net, given, c, ts[i]), ts[i + 1..])
  {
    assert ts[i..][1..] == ts[i + 1..];
  }

  lemma AddOutputsFrom(net: Network, given: map<Tensor, Permute>, c: Context<Emit>, ts: seq<Tensor>, i: nat)
    requires i < |ts|
    ensures AddOutputs(net, given, c, ts[i..]) == AddOutputs(net, given, AddOutput(net, given, c, ts[i]), ts[i + 1..])
  {
    assert ts[i..][1..] == ts[i + 1..];
  }

  /** The loop over the graph inputs, which are queued. */
  method SetUpInputs(net: Network, given: map<Tensor, Permute>, ctx: LayoutInferContext, ts: seq<Tensor>) returns (queue: seq<Tensor>)
    modifies ctx
    ensures ctx.View() == AddInputs(net, given, old(ctx.View()), ts)
    ensures queue == ts
  {
    ghost var goal := AddInputs(net, given, ctx.View(), ts);
    assert ts[0..] == ts;
    queue := [];
    for i := 0 to |ts|
      invariant AddInputs(net, given, ctx.View(), ts[i..]) == goal
      invariant queue == ts[..i]
    {
      AddInputsFrom(net, given, ctx.View(), ts, i);
      ctx.AddInput(net, given, ts[i]);
      queue := queue + [ts[i]];
    }
  }

  /** The loop over the constants of all-constant operations, which are queued. */
  method SetUpConstants(net: Network, given: map<Tensor, Permute>, ctx: LayoutInferContext, ts: seq<Tensor>) returns (queue: seq<Tensor>)
    modifies ctx
    ensures ctx.View() == AddSources(net, given, old(ctx.View()), ts)
    ensures queue == ts
  {
    ghost var goal := AddSources(net, given, ctx.View(), ts);
    assert ts[0..] == ts;
    queue := [];
    for i := 0 to |ts|
      invariant AddSources(net, given, ctx.View(), ts[i..]) == goal
      invariant queue == ts[..i]
    {
      AddSourcesFrom(net, given, ctx.View(), ts, i);
      ctx.AddSource(net, given, ts[i]);
      queue := queue + [ts[i]];
    }
  }

  /** The loop over the graph outputs: they get a permute vector but are not queued. */
  method SetUpOutputs(net: Network, given: map<Tensor, Permute>, ctx: LayoutInferContext, ts: seq<Tensor>)
    modifies ctx
    ensures ctx.View() == AddOutputs(net, given, old(ctx.View()), ts)
  {
    ghost var goal := AddOutputs(net, given, ctx.View(), ts);
    assert ts[0..] == ts;
    for i := 0 to |ts|
      invariant AddOutputs(net, given, ctx.View(), ts[i..]) == goal
    {
      AddOutputsFrom(net, given, ctx.View(), ts, i);
      ctx.AddOutput(net, given, ts[i]);
    }
  }

  /** The inner loop: give every reader of a dequeued tensor its chance. */
  method ServeConsumers(s: Source, h: Handler<Emit>, ctx: LayoutInferContext, consumers: seq<Op>, queue: seq<Tensor>)
      returns (queue': seq<Tensor>)
    requires HasNodes(s.g) && Covers(s, ctx.View()) && forall o | o in consumers :: o in s.g.ops
    modifies ctx
    ensures Covers(s, old(ctx.View()))
    ensures (ctx.View(), queue') == Serve(s, h, consumers, old(ctx.View()), queue)
  {
    queue' := queue;
    for i := 0 to |consumers|
      invariant Covers(s, ctx.View())
      invariant Serve(s, h, consumers[i..], ctx.View(), queue') == Serve(s, h, consumers, old(ctx.View()), queue)
    {
      assert consumers[i..][1..] == consumers[i + 1..];
      var op := consumers[i];
      var ready := ctx.IsReadyForInfer(s, op);
      if !ctx.opVisited[op] && s.g.node[op].kind != -1 && ready {
        var next := ctx.HandleLayoutInfer(h, op);
        queue' := queue' + next;
      }
    }
  }

  /** The worklist loop: it stops with the queue empty, in the state Drain describes. */
  method RunWorklist(s: Source, h: Handler<Emit>, ctx: LayoutInferContext, seeds: seq<Tensor>)
    requires WellLinked(s) && Covers(s, ctx.View())
    modifies ctx
    ensures Covers(s, old(ctx.View()))
    ensures ctx.View() == Drain(s, h, old(ctx.View()), seeds)
  {
    var queue := seeds;
    while queue != []
      invariant Covers(s, ctx.View())
      invariant Drain(s, h, ctx.View(), queue) == Drain(s, h, old(ctx.View()), seeds)
      decreases |Unvisited(ctx.View())|, |queue|
    {
      var tensor := queue[0];
      queue := ServeConsumers(s, h, ctx, ConsumersOf(s.g, tensor), queue[1..]);
    }
  }

  /** The pass.  Its result is the function the theorems speak about, and the returned map
      sends each input and output of the source to its counterpart. */
  method LayoutInference(net: Network, given: map<Tensor, Permute>)
      returns (ctx: LayoutInferContext, ioMap: map<Tensor, Mapped>)
    requires WellLinked(net.s)
    ensures fresh(ctx)
    ensures ctx.View() == InferLayout(net, given)
    ensures ioMap == IoMap(InferLayout(net, given))
  {
    ctx := new LayoutInferContext(net.s.g.ops);
    var queue := SetUpInputs(net, given, ctx, net.s.inputs);
    var constants := GetConstantInputs(net.s);
    var more := SetUpConstants(net, given, ctx, constants);
    queue := queue + more;
    SetUpOutputs(net, given, ctx, net.s.outputs);
    SetUpStarts(net, given);
    RunWorklist(net.s, HandlerFor(net), ctx, queue);
    ioMap := ctx.graphInputMap + ctx.graphOutputMap;
  }
}
