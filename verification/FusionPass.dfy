/** The fusion pass on the graph object: matching grows a vector of operations, removal cuts
    three fields in place, and the connection creates and binds the fused operation. */
module FusionPass {
  import opened GraphModel
  import opened GraphStore
  import opened GraphObject
  import opened FusionMatch
  import opened FusionRemove
  import FusionResult
  import FusionMeaning

  // ---- matching ----

  method OpkindInConsumers(graph: GraphImpl, consumers: seq<Op>, kind: int) returns (found: bool)
    requires forall o | o in consumers :: o in graph.nodes
    ensures found == FusionMatch.OpkindInConsumers(graph.View().g, consumers, kind)
  {
    if |consumers| == 1 && graph.nodes[consumers[0]].kind != kind {
      return false;
    }
    for i := 0 to |consumers|
      invariant forall k | 0 <= k < i :: graph.nodes[consumers[k]].kind != kind
    {
      if graph.nodes[consumers[i]].kind == kind {
        assert consumers[i] in consumers && Kind(graph.View().g, consumers[i]) == kind;
        return true;
      }
    }
    return false;
  }

  method OpInConsumer(graph: GraphImpl, current: Op, compared: Op) returns (found: bool)
    requires current in graph.nodes && graph.nodes[current].outputs != []
    ensures found == FusionMatch.OpInConsumer(graph.View().g, current, compared)
  {
    var ops := graph.GetConsumersOp(graph.nodes[current].outputs[0]);
    for i := 0 to |ops|
      invariant compared !in ops[..i]
    {
      if ops[i] == compared {
        return true;
      }
      assert ops[..i + 1] == ops[..i] + [ops[i]];
    }
    assert ops[..|ops|] == ops;
    return false;
  }

  /** Push the consumers of temp[index] if they are as asked; temp is returned as it was
      otherwise. */
  method UpdateTempVector(graph: GraphImpl, temp: seq<Op>, index: nat, kinds: seq<int>) returns (ok: bool, temp': seq<Op>)
    requires Wired(graph.View().g) && index < |temp| && (forall o | o in temp :: o in graph.opVector) && kinds != []
    ensures ok == Extend(graph.View().g, temp, index, kinds).Some?
    ensures temp' == if ok then Extend(graph.View().g, temp, index, kinds).value else temp
  {
    ghost var g := graph.View().g;
    temp' := temp;
    var outputs := graph.nodes[temp[index]].outputs;
    var ops := graph.GetConsumersOp(outputs[0]);
    if |outputs| > 1 || |ops| != |kinds| || |kinds| > 2 {
      return false, temp;
    }
    for k := 0 to |kinds|
      invariant forall j | 0 <= j < k :: FusionMatch.OpkindInConsumers(g, ops, kinds[j])
    {
      var found := OpkindInConsumers(graph, ops, kinds[k]);
      if !found {
        return false, temp;
      }
    }
    if |kinds| == 2 {
      var first := if graph.nodes[ops[0]].kind == kinds[0] then 0 else 1;
      temp' := temp' + [ops[first]];
      temp' := temp' + [ops[1 - first]];
    } else {
      temp' := temp' + [ops[0]];
    }
    ok := true;
  }

  method CheckMul0(graph: GraphImpl, temp: seq<Op>) returns (ok: bool, temp': seq<Op>)
    requires Wired(graph.View().g) && |temp| == 8 && forall o | o in temp :: o in graph.opVector
    ensures ok == FusionMatch.CheckMul0(graph.View().g, temp).Some?
    ensures temp' == if ok then FusionMatch.CheckMul0(graph.View().g, temp).value else temp
  {
    temp' := temp;
    var outputs := graph.nodes[temp[MUL_0]].outputs;
    var consumers := graph.GetConsumersOp(outputs[0]);
    if |outputs| > 1 || |consumers| != 2 || graph.nodes[consumers[0]].kind != MULTIPLY || graph.nodes[consumers[1]].kind != MULTIPLY {
      return false, temp;
    }
    var found := OpInConsumer(graph, temp[MUL_0], temp[MUL_2]);
    if !found {
      return false, temp;
    }
    temp' := temp + [consumers[if consumers[0] == temp[MUL_2] then 1 else 0]];
    ok := true;
  }

  /** The intersection of Sub0's and Mul1's inputs is not empty. */
  method SharesInput(graph: GraphImpl, temp: seq<Op>) returns (ok: bool)
    requires |temp| > MUL_1 && temp[SUB_0] in graph.nodes && temp[MUL_1] in graph.nodes
    ensures ok == FusionMatch.SharesInput(graph.View().g, temp)
  {
    var left, right := graph.nodes[temp[SUB_0]].inputs, graph.nodes[temp[MUL_1]].inputs;
    var intersection: seq<Tensor> := [];
    for i := 0 to |left|
      invariant forall t :: t in intersection <==> t in left[..i] && t in right
    {
      if left[i] in right {
        intersection := intersection + [left[i]];
      }
      assert left[..i + 1] == left[..i] + [left[i]];
    }
    assert left[..|left|] == left;
    if intersection != [] {
      assert intersection[0] in left && intersection[0] in right;
    }
    ok := intersection != [];
  }

  /** Pow and Mean1. */
  method MatchSquare(graph: GraphImpl, temp: seq<Op>) returns (ok: bool, temp': seq<Op>)
    requires Wired(graph.View().g) && |temp| == 3 && forall o | o in temp :: o in graph.opVector
    ensures var r := FusionMatch.MatchSquare(graph.View().g, Some(temp)); ok == r.Some? && (ok ==> r == Some(temp'))
  {
    ok, temp' := UpdateTempVector(graph, temp, SUB_0, [POW]);
    if ok {
      ok, temp' := UpdateTempVector(graph, temp', POW_0, [REDUCE]);
    }
  }

  /** Add0, Rsqrt and Mul0. */
  method MatchRest(graph: GraphImpl, temp: seq<Op>) returns (ok: bool, temp': seq<Op>)
    requires Wired(graph.View().g) && |temp| == 5 && forall o | o in temp :: o in graph.opVector
    ensures var r := FusionMatch.MatchRest(graph.View().g, Some(temp)); ok == r.Some? && (ok ==> r == Some(temp'))
  {
    ok, temp' := UpdateTempVector(graph, temp, MEAN_1, [ADD]);
    if ok {
      ok, temp' := UpdateTempVector(graph, temp', ADD_0, [RSQRT]);
    }
    if ok {
      ok, temp' := UpdateTempVector(graph, temp', RSQRT_0, [MULTIPLY]);
    }
  }

  method MatchStem(graph: GraphImpl, op: Op) returns (ok: bool, temp: seq<Op>)
    requires Wired(graph.View().g) && op in graph.opVector
    ensures var r := FusionMatch.MatchStem(graph.View().g, op); ok == r.Some? && (ok ==> r == Some(temp))
  {
    temp := [op];
    ok := graph.nodes[op].kind == REDUCE;
    if ok {
      ok, temp := UpdateTempVector(graph, temp, MEAN_0, [SUBTRACT, MULTIPLY]);
      if ok {
        ok, temp := MatchSquare(graph, temp);
        if ok {
          ok, temp := MatchRest(graph, temp);
        }
      }
    }
  }

  /** The chain of tests of the pass, from one operation of the list. */
  method MatchPattern(graph: GraphImpl, op: Op) returns (m: Match)
    requires Wired(graph.View().g) && op in graph.opVector
    ensures m == FusionMatch.MatchPattern(graph.View().g, op)
  {
    var ok, temp := MatchStem(graph, op);
    if !ok { return NoMatch; }
    m := MatchTail(graph, temp);
  }

  method MatchTail(graph: GraphImpl, stem: seq<Op>) returns (m: Match)
    requires Wired(graph.View().g) && |stem| == 8 && forall o | o in stem :: o in graph.opVector
    ensures m == FusionMatch.MatchTail(graph.View().g, stem)
  {
    hide FusionMatch.CheckMul0; hide FusionMatch.SharesInput;
    var ok, temp := CheckMul0(graph, stem);
    if !ok { return NoMatch; }
    ok := SharesInput(graph, temp);
    if !ok { return NoMatch; }
    ok, temp := UpdateTempVector(graph, temp, MUL_1, [ADD]);
    if !ok { return NoMatch; }
    ok, temp := UpdateTempVector(graph, temp, MUL_2, [SUBTRACT]);
    if !ok { return NoMatch; }
    var outputs := graph.nodes[temp[SUB_1]].outputs;
    var consumers := graph.GetConsumersOp(outputs[0]);
    if |outputs| >= 2 || |consumers| > 1 { return NoMatch; }
    if consumers == [] { return ReadsPastEnd; }
    if graph.nodes[consumers[0]].kind != ADD { return NoMatch; }
    ok := OpInConsumer(graph, temp[SUB_1], temp[ADD_1]);
    if !ok { return NoMatch; }
    m := Found(temp);
  }

  // ---- removal ----

  /** Tensors whose only attribute is CONSTANT. */
  function Constants(specs: map<Tensor, set<Attribute>>): (ts: set<Tensor>)
    ensures forall t :: t in ts <==> t in specs && specs[t] == {CONSTANT}
  {
    set t | t in specs && specs[t] == {CONSTANT}
  }

  lemma {:induction false} EraseAt(ops: seq<Op>, o: Op, i: nat)
    requires i < |ops| && ops[i] == o && o !in ops[..i]
    ensures EraseOp(ops, o) == ops[..i] + ops[i + 1..]
  {
    if i > 0 {
      assert o !in ops[1..][..i - 1] by {
        assert ops[1..][..i - 1] == ops[..i][1..];
      }
      assert ops[0] == ops[..i][0];
      EraseAt(ops[1..], o, i - 1);
      assert ops[..i] == [ops[0]] + ops[1..][..i - 1];
      assert ops[1..][i..] == ops[i + 1..];
    }
  }

  /** Nothing new, and nothing twice that was not there twice. */
  ghost predicate Shrunk(ops: seq<Op>, r: seq<Op>) {
    (forall o | o in r :: o in ops) && (NoDuplicates(ops) ==> NoDuplicates(r))
  }

  lemma {:induction false} EraseShrinks(ops: seq<Op>, o: Op)
    ensures Shrunk(ops, EraseOp(ops, o))
  {
    if ops != [] {
      EraseShrinks(ops[1..], o);
      if NoDuplicates(ops) { NoDuplicatesTail(ops); }
    }
  }

  /** Find the first occurrence and erase it. */
  method EraseFirst(ops: seq<Op>, o: Op) returns (r: seq<Op>)
    ensures r == EraseOp(ops, o) && Shrunk(ops, r)
  {
    EraseShrinks(ops, o);
    for i := 0 to |ops|
      invariant o !in ops[..i]
    {
      if ops[i] == o {
        EraseAt(ops, o, i);
        return ops[..i] + ops[i + 1..];
      }
      assert ops[..i + 1] == ops[..i] + [ops[i]];
    }
    assert ops[..|ops|] == ops;
    EraseAbsent(ops, o);
    return ops;
  }

  ghost function LinksIn(graph: GraphImpl): Links
    reads graph
  {
    Links(graph.opVector, graph.tensorConsumers, graph.tensorProducer)
  }

  /** One input of Mean0, Sub0 or Mul1. */
  method DropReader(graph: GraphImpl, o: Op, t: Tensor)
    requires o in graph.nodes && graph.nodes[o].outputs != []
    modifies graph`tensorConsumers, graph`tensorProducer
    ensures LinksIn(graph) == FusionRemove.DropReader(old(graph.View().g), Constants(graph.specs), old(LinksIn(graph)), o, t)
  {
    ghost var l := LinksIn(graph);
    if t in graph.specs && graph.specs[t] == {CONSTANT} {
      graph.tensorConsumers := graph.tensorConsumers - {t};
    } else {
      var readers := if t in graph.tensorConsumers then graph.tensorConsumers[t] else [];
      var rest := EraseFirst(readers, o);
      graph.tensorConsumers := if rest == [] then graph.tensorConsumers - {t} else graph.tensorConsumers[t := rest];
    }
    graph.tensorProducer := graph.tensorProducer - {graph.nodes[o].outputs[0]};
  }

  method DropReaders(graph: GraphImpl, o: Op)
    requires o in graph.nodes && graph.nodes[o].outputs != []
    modifies graph`tensorConsumers, graph`tensorProducer
    ensures LinksIn(graph) == FusionRemove.DropReaders(old(graph.View().g), Constants(graph.specs), old(LinksIn(graph)), o, graph.nodes[o].inputs)
  {
    var ts := graph.nodes[o].inputs;
    ghost var g := graph.View().g;
    for i := 0 to |ts|
      invariant FusionRemove.DropReaders(g, Constants(graph.specs), LinksIn(graph), o, ts[i..])
                == FusionRemove.DropReaders(g, Constants(graph.specs), old(LinksIn(graph)), o, ts)
    {
      assert ts[i..][1..] == ts[i + 1..];
      ReaderByNode(graph.View().g, g, Constants(graph.specs), LinksIn(graph), o, ts[i]);
      DropReader(graph, o, ts[i]);
    }
  }

  /** Only the operations' own lists matter. */
  lemma ReaderByNode(h: Graph, g: Graph, constants: set<Tensor>, l: Links, o: Op, t: Tensor)
    requires h.node == g.node && o in g.node && g.node[o].outputs != []
    ensures FusionRemove.DropReader(h, constants, l, o, t) == FusionRemove.DropReader(g, constants, l, o, t)
  {
  }

  ghost function Prefix(ts: seq<Tensor>, n: nat): (r: set<Tensor>)
    requires n <= |ts|
    ensures forall t :: t in r <==> exists i :: 0 <= i < n && ts[i] == t
  {
    set i | 0 <= i < n :: ts[i]
  }

  /** One input of any other place; false when the producer to erase is not listed. */
  method DropInput(graph: GraphImpl, o: Op, t: Tensor) returns (ok: bool)
    requires o in graph.nodes
    modifies graph`opVector, graph`tensorConsumers, graph`tensorProducer
    ensures ok == FusionRemove.DropInput(old(graph.View().g), Constants(graph.specs), old(LinksIn(graph)), o, t).Done?
    ensures ok ==> Done(LinksIn(graph)) == FusionRemove.DropInput(old(graph.View().g), Constants(graph.specs), old(LinksIn(graph)), o, t)
    ensures Shrunk(old(graph.opVector), graph.opVector)
  {
    if !(t in graph.specs && graph.specs[t] == {CONSTANT}) {
      if t in graph.tensorProducer {
        if graph.tensorProducer[t] !in graph.opVector {
          return false;
        }
        graph.opVector := EraseFirst(graph.opVector, graph.tensorProducer[t]);
        graph.tensorProducer := graph.tensorProducer - {t};
      }
    }
    graph.tensorConsumers := graph.tensorConsumers - {t};
    var outputs := graph.nodes[o].outputs;
    ghost var l := LinksIn(graph);
    for i := 0 to |outputs|
      invariant graph.opVector == l.ops && graph.tensorConsumers == l.consumers
      invariant graph.tensorProducer == l.producer - Prefix(outputs, i)
    {
      graph.tensorProducer := graph.tensorProducer - {outputs[i]};
    }
    assert Prefix(outputs, |outputs|) == Outputs(graph.View().g, o);
    ok := true;
  }

  lemma InputByNode(h: Graph, g: Graph, constants: set<Tensor>, l: Links, o: Op, t: Tensor)
    requires h.node == g.node && o in g.node
    ensures FusionRemove.DropInput(h, constants, l, o, t) == FusionRemove.DropInput(g, constants, l, o, t)
  {
  }

  method DropInputs(graph: GraphImpl, o: Op) returns (ok: bool)
    requires o in graph.nodes
    modifies graph`opVector, graph`tensorConsumers, graph`tensorProducer
    ensures var r := FusionRemove.DropInputs(old(graph.View().g), Constants(graph.specs), old(LinksIn(graph)), o, graph.nodes[o].inputs);
            ok == r.Done? && (ok ==> Done(LinksIn(graph)) == r)
    ensures Shrunk(old(graph.opVector), graph.opVector)
  {
    var ts := graph.nodes[o].inputs;
    ghost var g := graph.View().g;
    for i := 0 to |ts|
      invariant Shrunk(old(graph.opVector), graph.opVector)
      invariant FusionRemove.DropInputs(g, Constants(graph.specs), LinksIn(graph), o, ts[i..])
                == FusionRemove.DropInputs(g, Constants(graph.specs), old(LinksIn(graph)), o, ts)
    {
      assert ts[i..][1..] == ts[i + 1..];
      InputByNode(graph.View().g, g, Constants(graph.specs), LinksIn(graph), o, ts[i]);
      ok := DropInput(graph, o, ts[i]);
      if !ok {
        return;
      }
    }
    ok := true;
  }

  /** The switch on the place; g is the graph the removal started from. */
  method RemovePlace(graph: GraphImpl, ghost g: Graph, normOps: seq<Op>, i: nat) returns (ok: bool)
    requires IsOps(g, normOps) && graph.nodes == g.node && i < 11
    modifies graph`opVector, graph`tensorConsumers, graph`tensorProducer
    ensures var r := FusionRemove.RemovePlace(g, Constants(graph.specs), old(LinksIn(graph)), normOps, i);
            ok == r.Done? && (ok ==> Done(LinksIn(graph)) == r)
    ensures Shrunk(old(graph.opVector), graph.opVector)
  {
    var o := normOps[i];
    graph.opVector := EraseFirst(graph.opVector, o);
    ok := true;
    if ReadsOutside(i) {
      ReadersByNode(graph.View().g, g, Constants(graph.specs), LinksIn(graph), o, graph.nodes[o].inputs);
      DropReaders(graph, o);
    } else if i != ADD_1 {
      InputsByNode(graph.View().g, g, Constants(graph.specs), LinksIn(graph), o, graph.nodes[o].inputs);
      ok := DropInputs(graph, o);
    }
  }

  /** Cut the matched operations out of the operation list and both maps.  False means that an
      operation to erase was not in the list, where the source's behaviour is undefined. */
  method RemoveTensorsAndOps(graph: GraphImpl, normOps: seq<Op>) returns (ok: bool)
    requires IsOps(graph.View().g, normOps)
    modifies graph`opVector, graph`tensorConsumers, graph`tensorProducer
    ensures var r := RemoveAll(old(graph.View().g), Constants(graph.specs), normOps);
            ok == r.Done? && (ok ==> Done(LinksIn(graph)) == r)
    ensures Shrunk(old(graph.opVector), graph.opVector)
  {
    hide FusionRemove.RemovePlace;
    ghost var g := graph.View().g;
    for i := 0 to |normOps|
      invariant Shrunk(old(graph.opVector), graph.opVector)
      invariant RemoveFrom(g, Constants(graph.specs), LinksIn(graph), normOps, i) == RemoveAll(g, Constants(graph.specs), normOps)
    {
      ok := RemovePlace(graph, g, normOps, i);
      if !ok {
        return;
      }
    }
    ok := true;
  }

  lemma {:induction false} ReadersByNode(h: Graph, g: Graph, constants: set<Tensor>, l: Links, o: Op, ts: seq<Tensor>)
    requires h.node == g.node && o in g.node && g.node[o].outputs != []
    ensures FusionRemove.DropReaders(h, constants, l, o, ts) == FusionRemove.DropReaders(g, constants, l, o, ts)
    decreases |ts|
  {
    if ts != [] {
      ReadersByNode(h, g, constants, FusionRemove.DropReader(g, constants, l, o, ts[0]), o, ts[1..]);
    }
  }

  lemma {:induction false} InputsByNode(h: Graph, g: Graph, constants: set<Tensor>, l: Links, o: Op, ts: seq<Tensor>)
    requires h.node == g.node && o in g.node
    ensures FusionRemove.DropInputs(h, constants, l, o, ts) == FusionRemove.DropInputs(g, constants, l, o, ts)
    decreases |ts|
  {
    if ts != [] && FusionRemove.DropInput(g, constants, l, o, ts[0]).Done? {
      InputsByNode(h, g, constants, FusionRemove.DropInput(g, constants, l, o, ts[0]).links, o, ts[1..]);
    }
  }

  // ---- connection ----

  function AppendedAll(consumers: map<Tensor, seq<Op>>, ts: seq<Tensor>, o: Op): map<Tensor, seq<Op>>
    decreases |ts|
  {
    if ts == [] then consumers else AppendedAll(FusionResult.Appended(consumers, ts[0], o), ts[1..], o)
  }

  lemma BindsOne(st: State, node: map<Op, Node>, o: Op, kind: int, ins: seq<Tensor>, t: Tensor)
    requires o in st.g.ops && t in st.attrs && st.g.node == node[o := Node(kind, ins, [])]
    ensures BindInput(st, o, t).g == Graph(st.g.ops, node[o := Node(kind, ins + [t], [])], FusionResult.Appended(st.g.consumers, t, o), st.g.producer)
    ensures BindInput(st, o, t).attrs == st.attrs
  {
  }

  lemma {:induction false} BindsInputs(st: State, node: map<Op, Node>, o: Op, kind: int, ins: seq<Tensor>, ts: seq<Tensor>)
    requires o in st.g.ops && (forall t | t in ts :: t in st.attrs) && st.g.node == node[o := Node(kind, ins, [])]
    ensures BindInputList(st, o, ts).g == Graph(st.g.ops, node[o := Node(kind, ins + ts, [])],
                                                AppendedAll(st.g.consumers, ts, o), st.g.producer)
    decreases |ts|
  {
    if ts == [] {
      assert ins + ts == ins;
    } else {
      BindsOne(st, node, o, kind, ins, ts[0]);
      BindsInputs(BindInput(st, o, ts[0]), node, o, kind, ins + [ts[0]], ts[1..]);
      assert ins + [ts[0]] + ts[1..] == ins + ts;
    }
  }

  lemma AppendsThree(consumers: map<Tensor, seq<Op>>, x: Tensor, y: Tensor, z: Tensor, o: Op)
    ensures AppendedAll(consumers, [x, y, z], o)
            == FusionResult.Appended(FusionResult.Appended(FusionResult.Appended(consumers, x, o), y, o), z, o)
  {
    var c1 := FusionResult.Appended(consumers, x, o);
    var c2 := FusionResult.Appended(c1, y, o);
    assert [x, y, z][1..] == [y, z] && [y, z][1..] == [z] && [z][1..] == [];
    assert AppendedAll(c2, [z], o) == FusionResult.Appended(c2, z, o);
    assert AppendedAll(c1, [y, z], o) == AppendedAll(c2, [z], o);
  }

  /** Pushing and binding make the graph the result is stated about. */
  lemma BoundGraph(st: State, l: Links, node: map<Op, Node>, o: Op, kind: int, src: Tensor, beta: Tensor, gamma: Tensor, final: Tensor)
    requires src in st.attrs && beta in st.attrs && gamma in st.attrs && final in st.attrs
    requires st.g == Graph(l.ops + [o], node[o := Node(kind, [], [])], FusionResult.Appended(l.consumers, src, o), l.producer)
    ensures BindOutputList(BindInputList(st, o, [src, beta, gamma]), o, [final]).g
            == FusionResult.FusedGraph(l, node, o, kind, src, beta, gamma, final)
  {
    BindsInputs(st, node, o, kind, [], [src, beta, gamma]);
    assert [] + [src, beta, gamma] == [src, beta, gamma];
    AppendsThree(st.g.consumers, src, beta, gamma, o);
    BindsOutput(BindInputList(st, o, [src, beta, gamma]), node, o, kind, [src, beta, gamma], final);
  }

  lemma BindsOutput(st: State, node: map<Op, Node>, o: Op, kind: int, ins: seq<Tensor>, t: Tensor)
    requires o in st.g.ops && t in st.attrs && st.g.node == node[o := Node(kind, ins, [])]
    ensures BindOutputList(st, o, [t]).g == Graph(st.g.ops, node[o := Node(kind, ins, [t])], st.g.consumers, st.g.producer[t := o])
  {
    assert [t][1..] == [] && [] + [t] == [t];
    assert node[o := Node(kind, ins, [])][o := Node(kind, ins, [t])] == node[o := Node(kind, ins, [t])];
    assert BindOutput(st, o, t).g.node == node[o := Node(kind, ins, [t])];
    assert BindOutputList(BindOutput(st, o, t), o, []) == BindOutput(st, o, t);
  }

  /** Create the fused operation and connect it: it is pushed onto the source's readers and
      then bound, which lists it there again. */
  method Attach(graph: GraphImpl, kind: int, op: Op, src: Tensor, beta: Tensor, gamma: Tensor, final: Tensor)
    requires NoDuplicates(graph.opVector) && op !in graph.nodes && op !in graph.opVector
    requires src in graph.specs && beta in graph.specs && gamma in graph.specs && final in graph.specs
    modifies graph
    ensures graph.View().g == FusionResult.FusedGraph(old(LinksIn(graph)), old(graph.nodes), op, kind, src, beta, gamma, final)
    ensures graph.specs == old(graph.specs)
    ensures graph.inputsTensor == old(graph.inputsTensor) && graph.outputsTensor == old(graph.outputsTensor)
  {
    ghost var l, node := LinksIn(graph), graph.nodes;
    graph.CreateOperation(op, kind);
    graph.tensorConsumers := graph.tensorConsumers[src := (if src in graph.tensorConsumers then graph.tensorConsumers[src] else []) + [op]];
    ghost var st := graph.View();
    BoundGraph(st, l, node, op, kind, src, beta, gamma, final);
    BindsKeepTables(st, op, [src, beta, gamma], [final]);
    graph.BindInputs(op, [src, beta, gamma]);
    graph.BindOutputs(op, [final]);
  }

  lemma {:induction false} InputsKeepTables(st: State, o: Op, ts: seq<Tensor>)
    requires o in st.g.node && forall t | t in ts :: t in st.attrs
    ensures var r := BindInputList(st, o, ts); r.inputs == st.inputs && r.outputs == st.outputs
    decreases |ts|
  {
    if ts != [] { InputsKeepTables(BindInput(st, o, ts[0]), o, ts[1..]); }
  }

  lemma {:induction false} OutputsKeepTables(st: State, o: Op, ts: seq<Tensor>)
    requires o in st.g.node && forall t | t in ts :: t in st.attrs
    ensures var r := BindOutputList(st, o, ts); r.inputs == st.inputs && r.outputs == st.outputs
    decreases |ts|
  {
    if ts != [] { OutputsKeepTables(BindOutput(st, o, ts[0]), o, ts[1..]); }
  }

  lemma BindsKeepTables(st: State, o: Op, ins: seq<Tensor>, outs: seq<Tensor>)
    requires o in st.g.node && (forall t | t in ins :: t in st.attrs) && forall t | t in outs :: t in st.attrs
    ensures var r := BindOutputList(BindInputList(st, o, ins), o, outs); r.inputs == st.inputs && r.outputs == st.outputs
  {
    InputsKeepTables(st, o, ins);
    OutputsKeepTables(BindInputList(st, o, ins), o, outs);
  }

  /** Remove the match and put one operation in its place: both connections, which differ in
      the kind.  The source is what Mean0 reads first, the result what Add1 writes first. */
  method Connect(graph: GraphImpl, normOps: seq<Op>, kind: int, op: Op, beta: Tensor, gamma: Tensor) returns (ok: bool)
    requires IsOps(graph.View().g, normOps) && NoDuplicates(graph.opVector)
    requires graph.nodes[normOps[MEAN_0]].inputs != [] && op !in graph.nodes && op !in graph.opVector
    requires beta !in graph.specs && gamma !in graph.specs && beta != gamma
    requires graph.nodes[normOps[MEAN_0]].inputs[0] in graph.specs && graph.nodes[normOps[ADD_1]].outputs[0] in graph.specs
    modifies graph
    ensures ok == RemoveAll(old(graph.View().g), Constants(old(graph.specs)), normOps).Done?
    ensures ok ==> graph.View().g
                   == FusionResult.FusedGraph(RemoveAll(old(graph.View().g), Constants(old(graph.specs)), normOps).links,
                                              old(graph.nodes), op, kind, old(graph.nodes[normOps[MEAN_0]].inputs[0]), beta, gamma,
                                              old(graph.nodes[normOps[ADD_1]].outputs[0]))
    ensures ok ==> graph.specs == old(graph.specs)[beta := {CONSTANT}][gamma := {CONSTANT}]
    ensures ok ==> graph.inputsTensor == old(graph.inputsTensor) && graph.outputsTensor == old(graph.outputsTensor)
  {
    var src := graph.nodes[normOps[MEAN_0]].inputs[0];
    var final := graph.nodes[normOps[ADD_1]].outputs[0];
    ok := RemoveTensorsAndOps(graph, normOps);
    if ok {
      graph.CreateTensor(beta, {CONSTANT});
      graph.CreateTensor(gamma, {CONSTANT});
      Attach(graph, kind, op, src, beta, gamma, final);
    }
  }

  /** The tensor epsilon is read from: Add0's operand that Mean1 does not produce, or the first
      input of what produces it if that operand is no constant. */
  method EpsTensor(graph: GraphImpl, ghost p: Pattern, add0: Op, mean1: Op) returns (source: Option<Tensor>)
    requires p.add0 == add0 && p.mean1 == mean1 && add0 in graph.nodes && |graph.nodes[add0].inputs| == 2
    ensures source == FusionResult.EpsSource(graph.View().g, Constants(graph.specs),
                                             graph.nodes[add0].inputs[FusionResult.EpsSlot(graph.View().g, p)])
  {
    var first := graph.GetProducerOp(graph.nodes[add0].inputs[0]);
    var eps := graph.nodes[add0].inputs[if first == Some(mean1) then 1 else 0];
    source := Some(eps);
    if !(eps in graph.specs && graph.specs[eps] == {CONSTANT}) {
      var producer := graph.GetProducerOp(eps);
      source := None;
      if producer.Some? && producer.value in graph.nodes && graph.nodes[producer.value].inputs != [] {
        source := Some(graph.nodes[producer.value].inputs[0]);
      }
    }
  }

  lemma FoundIsOps(g: Graph, op: Op)
    requires Wired(g) && op in g.ops && FusionMatch.MatchPattern(g, op).Found?
    ensures IsOps(g, FusionMatch.MatchPattern(g, op).ops) && FusionMatch.MatchPattern(g, op).ops[MEAN_0] == op
  {
    var p := MatchHasShape(g, op);
    forall i | 0 <= i < 11 ensures Places(p)[i] in g.ops && g.node[Places(p)[i]].outputs != [] {
      PlaceCases(p, Places(p)[i]);
    }
  }

  /** Bound tensors were created, and a reduction reads something. */
  ghost predicate Prepared(st: State) {
    && Wired(st.g) && NoDuplicates(st.g.ops)
    && (forall o, t: Tensor | o in st.g.ops && (t in st.g.node[o].inputs || t in st.g.node[o].outputs) :: t in st.attrs)
    && (forall o | o in st.g.ops && Kind(st.g, o) == REDUCE :: st.g.node[o].inputs != [])
  }

  /** One turn of the pass: test one operation and, if it heads a pattern, replace the
      pattern.  axes are the dimensions that operation reduces. */
  method FuseStep(graph: GraphImpl, op: Op, axes: seq<nat>, fused: Op, beta: Tensor, gamma: Tensor) returns (m: Match, ok: bool)
    requires Prepared(graph.View()) && op in graph.opVector && fused !in graph.nodes && fused !in graph.opVector
    requires beta !in graph.specs && gamma !in graph.specs && beta != gamma
    modifies graph
    ensures m == FusionMatch.MatchPattern(old(graph.View().g), op)
    ensures !m.Found? ==> graph.View() == old(graph.View())
    ensures m.Found? ==> IsOps(old(graph.View().g), m.ops)
                         && ok == RemoveAll(old(graph.View().g), Constants(old(graph.specs)), m.ops).Done?
    ensures m.Found? && ok ==>
              graph.View().g == FusionResult.FusedGraph(RemoveAll(old(graph.View().g), Constants(old(graph.specs)), m.ops).links,
                                                        old(graph.nodes), fused, FusionResult.FusedKind(axes),
                                                        old(graph.nodes[op].inputs[0]), beta, gamma,
                                                        old(graph.nodes[m.ops[ADD_1]].outputs[0]))
  {
    m := MatchPattern(graph, op);
    ok := true;
    if m.Found? {
      FoundIsOps(graph.View().g, op);
      var p := MatchHasShape(graph.View().g, op);
      assert graph.nodes[op].inputs[0] in graph.nodes[op].inputs;
      var add1 := m.ops[ADD_1];
      assert graph.nodes[add1].outputs[0] in graph.nodes[add1].outputs;
      ok := Connect(graph, m.ops, if |axes| == 1 then FusionMeaning.LAYER_NORM else FusionMeaning.INSTANCE_NORM, fused, beta, gamma);
    }
  }
}
