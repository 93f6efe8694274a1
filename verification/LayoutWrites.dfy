/** Which tensors of the new graph get written.  The tensor handed to the caller for a graph
    output is written exactly if, when its writer is handled, the output is still mapped to it
    or the writer does not want the aligned layout. */
module LayoutWrites {
  import opened GraphModel
  import opened Permutations
  import opened TensorLayout
  import opened LayoutWorklist
  import opened LayoutHandlers

  // ---- the tensors written, in order ----

  function Dsts(es: seq<Emit>): seq<Mapped> {
    if es == [] then [] else Dsts(es[..|es| - 1]) + Dst(es[|es| - 1])
  }

  lemma DstsMore(es: seq<Emit>, e: Emit)
    ensures Dsts(es + [e]) == Dsts(es) + Dst(e)
  {
    assert (es + [e])[..|es|] == es;
  }

  lemma {:induction false} DstsOf(es: seq<Emit>, m: Mapped)
    ensures m in Dsts(es) <==> exists e :: e in es && m in Dst(e)
  {
    if es != [] {
      var rest, e := es[..|es| - 1], es[|es| - 1];
      DstsOf(rest, m);
      assert es == rest + [e];
    }
  }

  /** Between k and r the operations emitted write the tensors in more. */
  predicate Writes(k: Work, r: Work, more: seq<Mapped>) {
    k.infer.next <= r.infer.next && Dsts(r.infer.emitted) == Dsts(k.infer.emitted) + more
  }

  /** They are all new and different. */
  predicate NewOnes(k: Work, r: Work, more: seq<Mapped>) {
    Writes(k, r, more) && NoDuplicates(more) && forall m | m in more :: k.infer.next <= m < r.infer.next
  }

  predicate Untouched(k: Work, r: Work, t: Tensor) {
    (t in r.tensorMap <==> t in k.tensorMap) && MappedOf(r, t) == MappedOf(k, t)
  }

  /** The tensor is mapped to what it was mapped to, or to a new tensor. */
  predicate SameOrNew(k: Work, r: Work, t: Tensor) {
    && (t in k.tensorMap ==> t in r.tensorMap)
    && (t in r.tensorMap ==>
          (t in k.tensorMap && r.tensorMap[t] == k.tensorMap[t]) || k.infer.next <= r.tensorMap[t] < r.infer.next)
  }

  lemma WritesMore(k: Work, k1: Work, r: Work, a: seq<Mapped>, b: seq<Mapped>)
    requires Writes(k, k1, a) && Writes(k1, r, b)
    ensures Writes(k, r, a + b)
  {
  }

  lemma NewOnesMore(k: Work, k1: Work, r: Work, a: seq<Mapped>, b: seq<Mapped>)
    requires NewOnes(k, k1, a) && NewOnes(k1, r, b)
    ensures NewOnes(k, r, a + b)
  {
    assert forall m | m in a + b :: m in a || m in b;
    forall i, j | 0 <= i < j < |a + b| ensures (a + b)[i] != (a + b)[j] {
      if i < |a| <= j {
        assert (a + b)[i] == a[i] && a[i] in a && (a + b)[j] == b[j - |a|] && b[j - |a|] in b;
      }
    }
  }

  lemma AppendWrites(k: Work, e: Emit)
    ensures Writes(k, Append(k, e), Dst(e))
  {
    DstsMore(k.infer.emitted, e);
  }

  lemma NothingWritten(k: Work, r: Work)
    requires k.infer.next <= r.infer.next && r.infer.emitted == k.infer.emitted
    ensures NewOnes(k, r, [])
  {
  }

  /** A fresh tensor written by one operation. */
  lemma FreshWritten(k: Work, e: Emit)
    requires Dst(e) == [k.infer.next]
    ensures NewOnes(k, Append(Fresh(k).1, e), [k.infer.next])
  {
    AppendWrites(Fresh(k).1, e);
  }

  /** Whatever has a layout is mapped. */
  predicate LaidMapped(k: Work) {
    forall t | t in k.pv :: t in k.tensorMap
  }

  // ---- aligning inputs ----

  /** The tensor can be brought into a layout: it is a constant with data, or mapped. */
  predicate Movable(net: Network, k: Work, t: Tensor) {
    (t in net.s.constants && t in net.data) || t in k.tensorMap
  }

  /** What bringing one tensor into a layout does: at most one new tensor, for it. */
  ghost predicate Moves(k: Work, r: Work, t: Tensor, more: seq<Mapped>) {
    && NewOnes(k, r, more) && SameOrNew(k, r, t) && t in r.tensorMap && (LaidMapped(k) ==> LaidMapped(r))
    && forall u | u != t :: Untouched(k, r, u)
  }

  lemma AlignVariableWrites(k: Work, t: Tensor, required: Permute) returns (more: seq<Mapped>)
    requires t in k.tensorMap
    ensures Moves(k, AlignVariable(k, t, required), t, more)
  {
    var final := Realigned(PvOf(k, t), required);
    if Aligned(final) {
      more := [];
      NothingWritten(k, AlignVariable(k, t, required));
    } else {
      more := [k.infer.next];
      FreshWritten(k, Permuted(MappedOf(k, t), final, k.infer.next));
    }
  }

  lemma AddConstantWrites(k: Work, t: Tensor, data: Data, p: Permute) returns (more: seq<Mapped>)
    ensures Moves(k, AddConstant(k, t, data, p), t, more)
  {
    more := [k.infer.next];
    FreshWritten(k, Constant(data, k.infer.next));
  }

  lemma AlignOneWrites(net: Network, k: Work, t: Tensor, required: Permute) returns (more: seq<Mapped>)
    requires Movable(net, k, t)
    ensures Moves(k, AlignOne(net, k, t, required), t, more)
  {
    if t in net.s.constants && t in net.data {
      more := AddConstantWrites(k, t, if Aligned(required) then net.data[t] else PermutedConstant(net.data[t], required), required);
    } else {
      more := AlignVariableWrites(k, t, required);
    }
  }

  lemma ReverseVariableWrites(net: Network, k: Work, t: Tensor) returns (more: seq<Mapped>)
    requires t in k.tensorMap && t !in net.s.placeholders && !(t in net.s.constants && t in net.data)
    ensures Moves(k, ReverseOne(net, k, t), t, more)
  {
    if Aligned(PvOf(k, t)) {
      more := [];
      NothingWritten(k, ReverseOne(net, k, t));
    } else {
      more := [k.infer.next];
      FreshWritten(k, Permuted(MappedOf(k, t), Undo(PvOf(k, t)), k.infer.next));
    }
  }

  lemma ReverseOneWrites(net: Network, k: Work, t: Tensor) returns (more: seq<Mapped>)
    requires Movable(net, k, t) && net.s.placeholders == {}
    ensures Moves(k, ReverseOne(net, k, t), t, more)
  {
    if t in net.s.constants && t in net.data {
      more := AddConstantWrites(k, t, net.data[t], UndoneLayout(net, k, t));
    } else {
      more := ReverseVariableWrites(net, k, t);
    }
  }

  /** What bringing a list of tensors into layouts does. */
  ghost predicate MovesAll(k: Work, r: Work, ts: seq<Tensor>, more: seq<Mapped>) {
    && NewOnes(k, r, more) && (LaidMapped(k) ==> LaidMapped(r))
    && (forall t | t in ts :: SameOrNew(k, r, t)) && forall t | t !in ts :: Untouched(k, r, t)
  }

  lemma MovesMore(k: Work, k1: Work, r: Work, ts: seq<Tensor>, a: seq<Mapped>, b: seq<Mapped>)
    requires ts != [] && Moves(k, k1, ts[0], a) && MovesAll(k1, r, ts[1..], b)
    ensures MovesAll(k, r, ts, a + b)
  {
    NewOnesMore(k, k1, r, a, b);
    assert ts == [ts[0]] + ts[1..];
    forall t ensures if t in ts then SameOrNew(k, r, t) else Untouched(k, r, t) {
      assert t == ts[0] || Untouched(k, k1, t);
      assert t in ts[1..] || Untouched(k1, r, t);
    }
  }

  lemma StillMovable(net: Network, k: Work, k1: Work, ts: seq<Tensor>, more: seq<Mapped>)
    requires ts != [] && Moves(k, k1, ts[0], more) && forall t | t in ts :: Movable(net, k, t)
    ensures forall t | t in ts[1..] :: Movable(net, k1, t)
  {
    forall t | t in ts[1..] ensures Movable(net, k1, t) {
      assert t in ts && (t == ts[0] || Untouched(k, k1, t));
    }
  }

  lemma {:induction false} AlignAllWrites(net: Network, k: Work, ts: seq<Tensor>, required: Permute) returns (more: seq<Mapped>)
    requires forall t | t in ts :: Movable(net, k, t)
    ensures MovesAll(k, AlignAll(net, k, ts, required), ts, more)
    decreases |ts|
  {
    if ts == [] {
      more := [];
    } else {
      var k1 := AlignOne(net, k, ts[0], required);
      var a := AlignOneWrites(net, k, ts[0], required);
      StillMovable(net, k, k1, ts, a);
      var b := AlignAllWrites(net, k1, ts[1..], required);
      MovesMore(k, k1, AlignAll(net, k1, ts[1..], required), ts, a, b);
      more := a + b;
    }
  }

  lemma {:induction false} ReverseAllWrites(net: Network, k: Work, ts: seq<Tensor>) returns (more: seq<Mapped>)
    requires net.s.placeholders == {} && forall t | t in ts :: Movable(net, k, t)
    ensures MovesAll(k, ReverseAll(net, k, ts), ts, more)
    decreases |ts|
  {
    if ts == [] {
      more := [];
    } else {
      var k1 := ReverseOne(net, k, ts[0]);
      var a := ReverseOneWrites(net, k, ts[0]);
      StillMovable(net, k, k1, ts, a);
      var b := ReverseAllWrites(net, k1, ts[1..]);
      MovesMore(k, k1, ReverseAll(net, k1, ts[1..]), ts, a, b);
      more := a + b;
    }
  }

  // ---- creating outputs ----

  /** An aligned output that is a plain graph output gets no tensor of its own. */
  predicate TakesMapped(net: Network, out: Tensor, p: Permute) {
    Aligned(p) && out in net.plainOutputs
  }

  /** The tensor an output is written to: the one it was mapped to, or a new one. */
  predicate CreatedFor(net: Network, k: Work, r: Work, out: Tensor, p: Permute, d: Mapped) {
    && out in r.tensorMap && r.tensorMap[out] == d
    && if TakesMapped(net, out, p) then d == MappedOf(k, out) else k.infer.next <= d < r.infer.next
  }

  /** What creating outputs does. */
  ghost predicate Creates(net: Network, k: Work, r: Work, outs: seq<Tensor>, pvs: seq<Permute>, ds: seq<Mapped>) {
    && |ds| == |outs| == |pvs| && k.infer.next <= r.infer.next && r.infer.emitted == k.infer.emitted
    && (forall i | 0 <= i < |outs| :: CreatedFor(net, k, r, outs[i], pvs[i], ds[i]))
    && (forall i, j | 0 <= i < j < |outs| && ds[i] == ds[j] :: TakesMapped(net, outs[i], pvs[i]) || TakesMapped(net, outs[j], pvs[j]))
    && (forall t | t !in outs :: Untouched(k, r, t))
  }

  /** Plain graph outputs are mapped. */
  predicate PlainMapped(net: Network, k: Work) {
    forall t | t in net.plainOutputs :: t in k.tensorMap
  }

  lemma CreatedMore(net: Network, k: Work, k1: Work, r: Work, outs: seq<Tensor>, pvs: seq<Permute>, d: Mapped, ds: seq<Mapped>, i: nat)
    requires outs != [] && |pvs| == |outs| && NoDuplicates(outs) && k.infer.next <= k1.infer.next && i < |outs|
    requires CreatedFor(net, k, k1, outs[0], pvs[0], d)
    requires (forall t | t != outs[0] :: Untouched(k, k1, t)) && Creates(net, k1, r, outs[1..], pvs[1..], ds)
    ensures CreatedFor(net, k, r, outs[i], pvs[i], ([d] + ds)[i])
  {
    NoDuplicatesTail(outs);
    if i == 0 {
      assert Untouched(k1, r, outs[0]);
    } else {
      assert outs[1..][i - 1] == outs[i] && outs[i] in outs[1..] && Untouched(k, k1, outs[i]);
      assert CreatedFor(net, k1, r, outs[1..][i - 1], pvs[1..][i - 1], ds[i - 1]);
    }
  }

  lemma CreatedApart(net: Network, k: Work, k1: Work, r: Work, outs: seq<Tensor>, pvs: seq<Permute>, d: Mapped, ds: seq<Mapped>, i: nat, j: nat)
    requires outs != [] && |pvs| == |outs| && k.infer.next <= k1.infer.next && i < j < |outs|
    requires CreatedFor(net, k, k1, outs[0], pvs[0], d) && Creates(net, k1, r, outs[1..], pvs[1..], ds)
    requires ([d] + ds)[i] == ([d] + ds)[j]
    ensures TakesMapped(net, outs[i], pvs[i]) || TakesMapped(net, outs[j], pvs[j])
  {
    assert outs[1..][j - 1] == outs[j] && pvs[1..][j - 1] == pvs[j];
    assert CreatedFor(net, k1, r, outs[1..][j - 1], pvs[1..][j - 1], ds[j - 1]);
    if i > 0 { assert outs[1..][i - 1] == outs[i] && pvs[1..][i - 1] == pvs[i] && ds[i - 1] == ds[j - 1]; }
  }

  lemma CreatesMore(net: Network, k: Work, k1: Work, r: Work, outs: seq<Tensor>, pvs: seq<Permute>, d: Mapped, ds: seq<Mapped>)
    requires outs != [] && |pvs| == |outs| && NoDuplicates(outs) && k.infer.next <= k1.infer.next
    requires CreatedFor(net, k, k1, outs[0], pvs[0], d) && k1.infer.emitted == k.infer.emitted
    requires (forall t | t != outs[0] :: Untouched(k, k1, t)) && Creates(net, k1, r, outs[1..], pvs[1..], ds)
    ensures Creates(net, k, r, outs, pvs, [d] + ds)
  {
    assert outs == [outs[0]] + outs[1..];
    forall i | 0 <= i < |outs| ensures CreatedFor(net, k, r, outs[i], pvs[i], ([d] + ds)[i]) {
      CreatedMore(net, k, k1, r, outs, pvs, d, ds, i);
    }
    forall i, j | 0 <= i < j < |outs| && ([d] + ds)[i] == ([d] + ds)[j]
      ensures TakesMapped(net, outs[i], pvs[i]) || TakesMapped(net, outs[j], pvs[j])
    {
      CreatedApart(net, k, k1, r, outs, pvs, d, ds, i, j);
    }
    forall t | t !in outs ensures Untouched(k, r, t) {
      assert Untouched(k, k1, t) && Untouched(k1, r, t);
    }
  }

  lemma {:induction false} CreateWrites(net: Network, k: Work, outs: seq<Tensor>, pvs: seq<Permute>)
    requires |outs| == |pvs| && NoDuplicates(outs) && PlainMapped(net, k)
    ensures var (ds, r) := CreateOutputs(net, k, outs, pvs); Creates(net, k, r, outs, pvs, ds)
    decreases |outs|
  {
    if outs != [] {
      var (d, k1) := CreateOutput(net, k, outs[0], pvs[0]);
      var (ds, r) := CreateOutputs(net, k1, outs[1..], pvs[1..]);
      NoDuplicatesTail(outs);
      CreateWrites(net, k1, outs[1..], pvs[1..]);
      CreatesMore(net, k, k1, r, outs, pvs, d, ds);
    }
  }

  lemma {:induction false} SetLayoutsAt(k: Work, outs: seq<Tensor>, pvs: seq<Permute>, i: nat)
    requires |outs| == |pvs| && NoDuplicates(outs) && i < |outs|
    ensures outs[i] in SetLayouts(k, outs, pvs).pv && SetLayouts(k, outs, pvs).pv[outs[i]] == pvs[i]
    decreases |outs|
  {
    var k1 := k.(pv := k.pv[outs[0] := pvs[0]]);
    NoDuplicatesTail(outs);
    if i == 0 {
      SetLayoutsOther(k1, outs[1..], pvs[1..], outs[0]);
    } else {
      SetLayoutsAt(k1, outs[1..], pvs[1..], i - 1);
    }
  }

  predicate SameLayout(k: Work, r: Work, t: Tensor) {
    (t in r.pv <==> t in k.pv) && (t in k.pv ==> r.pv[t] == k.pv[t])
  }

  lemma {:induction false} SetLayoutsOther(k: Work, outs: seq<Tensor>, pvs: seq<Permute>, t: Tensor)
    requires |outs| == |pvs| && t !in outs
    ensures SameLayout(k, SetLayouts(k, outs, pvs), t)
    decreases |outs|
  {
    if outs != [] {
      assert outs == [outs[0]] + outs[1..];
      SetLayoutsOther(k.(pv := k.pv[outs[0] := pvs[0]]), outs[1..], pvs[1..], t);
    }
  }

  // ---- one handler ----

  /** What a handler does before graph outputs are seen to: it brings inputs into layouts,
      writing the new tensors more, and writes the outputs to ds. */
  ghost predicate Handled(net: Network, k: Work, r: Work, n: Node, more: seq<Mapped>, ds: seq<Mapped>) {
    exists k1: Work, k2: Work {:trigger MovesAll(k, k1, n.inputs, more), CreatesLaid(net, k1, k2, r, n.outputs, ds)} ::
      MovesAll(k, k1, n.inputs, more) && CreatesLaid(net, k1, k2, r, n.outputs, ds)
      && Dsts(r.infer.emitted) == Dsts(k1.infer.emitted) + ds && r.infer.next == k2.infer.next
  }

  /** The outputs are created, and have layouts in r. */
  ghost predicate CreatesLaid(net: Network, k: Work, k2: Work, r: Work, outs: seq<Tensor>, ds: seq<Mapped>) {
    && r.tensorMap == k2.tensorMap && (forall t | t in outs :: t in r.pv) && (forall t | t in r.pv :: t in k.pv || t in outs)
    && Creates(net, k, k2, outs, LayoutsIn(r, outs), ds)
  }

  function LayoutsIn(r: Work, outs: seq<Tensor>): (pvs: seq<Permute>)
    ensures |pvs| == |outs| && forall i | 0 <= i < |outs| :: pvs[i] == PvOf(r, outs[i])
  {
    seq(|outs|, i requires 0 <= i < |outs| => PvOf(r, outs[i]))
  }

  /** Emitting the operation that writes the created outputs. */
  lemma EmitHandled(net: Network, k: Work, k1: Work, r: Work, n: Node, more: seq<Mapped>, pvs: seq<Permute>, e: Emit)
    requires MovesAll(k, k1, n.inputs, more) && NoDuplicates(n.outputs) && PlainMapped(net, k1) && |pvs| == |n.outputs|
    requires var (ds, k2) := CreateOutputs(net, k1, n.outputs, pvs);
             Dst(e) == ds && r.tensorMap == k2.tensorMap && r.infer == Append(k2, e).infer
    requires forall i | 0 <= i < |n.outputs| :: n.outputs[i] in r.pv && r.pv[n.outputs[i]] == pvs[i]
    requires forall t | t in r.pv :: t in k1.pv || t in n.outputs
    ensures Handled(net, k, r, n, more, Dst(e))
  {
    var (ds, k2) := CreateOutputs(net, k1, n.outputs, pvs);
    CreateWrites(net, k1, n.outputs, pvs);
    DstsMore(k2.infer.emitted, e);
    assert LayoutsIn(r, n.outputs) == pvs;
    assert CreatesLaid(net, k1, k2, r, n.outputs, ds);
  }

  lemma MovedPlain(net: Network, k: Work, k1: Work, ts: seq<Tensor>, more: seq<Mapped>)
    requires PlainMapped(net, k) && MovesAll(k, k1, ts, more)
    ensures PlainMapped(net, k1)
  {
    forall t | t in net.plainOutputs ensures t in k1.tensorMap {
      assert t in ts || Untouched(k, k1, t);
    }
  }

  lemma RebuildHandled(net: Network, k: Work, k1: Work, o: Op, n: Node, pvs: seq<Permute>, more: seq<Mapped>) returns (ds: seq<Mapped>)
    requires MovesAll(k, k1, n.inputs, more) && NoDuplicates(n.outputs) && PlainMapped(net, k) && |pvs| == |n.outputs|
    ensures Handled(net, k, Rebuild(net, k1, o, n.inputs, n.outputs, pvs), n, more, ds)
  {
    var k2 := CreateOutputs(net, k1, n.outputs, pvs).1;
    ds := CreateOutputs(net, k1, n.outputs, pvs).0;
    var e := Rebuilt(o, MappedAll(k2, n.inputs), ds);
    MovedPlain(net, k, k1, n.inputs, more);
    forall i | 0 <= i < |n.outputs|
      ensures n.outputs[i] in Rebuild(net, k1, o, n.inputs, n.outputs, pvs).pv
              && Rebuild(net, k1, o, n.inputs, n.outputs, pvs).pv[n.outputs[i]] == pvs[i]
    {
      SetLayoutsAt(Append(k2, e), n.outputs, pvs, i);
    }
    SetLays(Append(k2, e), n.outputs, pvs);
    CreateKeepsLayouts(net, k1, n.outputs, pvs);
    EmitHandled(net, k, k1, Rebuild(net, k1, o, n.inputs, n.outputs, pvs), n, more, pvs, e);
  }

  lemma NothingMoved(k: Work, ts: seq<Tensor>)
    ensures MovesAll(k, k, ts, [])
  {
    NothingWritten(k, k);
  }

  lemma OneCreated(net: Network, k: Work, out: Tensor, p: Permute)
    ensures CreateOutputs(net, k, [out], [p]).0 == [CreateOutput(net, k, out, p).0]
    ensures CreateOutputs(net, k, [out], [p]).1 == CreateOutput(net, k, out, p).1
  {
    var (d, k1) := CreateOutput(net, k, out, p);
    var outs, pvs := [out], [p];
    assert CreateOutputs(net, k1, outs[1..], pvs[1..]) == ([], k1);
    assert CreateOutputs(net, k, outs, pvs) == ([d] + [], k1) && [d] + [] == [d];
  }

  /** A single output written by an operation of its own. */
  lemma SingleHandled(net: Network, k: Work, k1: Work, r: Work, n: Node, more: seq<Mapped>, out: Tensor, p: Permute, e: Emit)
    requires MovesAll(k, k1, n.inputs, more) && n.outputs == [out] && PlainMapped(net, k)
    requires Dst(e) == [CreateOutput(net, k1, out, p).0] && r.tensorMap == CreateOutput(net, k1, out, p).1.tensorMap
    requires r.infer == Append(CreateOutput(net, k1, out, p).1, e).infer && r.pv == k1.pv[out := p]
    ensures Handled(net, k, r, n, more, Dst(e))
  {
    OneCreated(net, k1, out, p);
    MovedPlain(net, k, k1, n.inputs, more);
    EmitHandled(net, k, k1, r, n, more, [p], e);
  }

  lemma DefaultHandled(net: Network, k: Work, o: Op, n: Node) returns (more: seq<Mapped>, ds: seq<Mapped>)
    requires (forall t | t in n.inputs :: Movable(net, k, t)) && NoDuplicates(n.outputs) && PlainMapped(net, k) && net.s.placeholders == {}
    ensures Handled(net, k, OnDefault(net, k, o, n), n, more, ds)
  {
    more := ReverseAllWrites(net, k, n.inputs);
    ds := RebuildHandled(net, k, ReverseAll(net, k, n.inputs), o, n, DefaultLayouts(net, n.outputs), more);
  }

  lemma ElementwiseHandled(net: Network, k: Work, o: Op, n: Node) returns (more: seq<Mapped>, ds: seq<Mapped>)
    requires (forall t | t in n.inputs :: Movable(net, k, t)) && OneOutput(n) && PlainMapped(net, k)
    ensures Handled(net, k, OnSingle(net, k, o, n, Elementwise), n, more, ds)
  {
    var required := ReferenceLayout(net, k, n.inputs, [], 0);
    assert n.outputs == [n.outputs[0]];
    more := AlignAllWrites(net, k, n.inputs, required);
    ds := RebuildHandled(net, k, AlignAll(net, k, n.inputs, required), o, n, [required], more);
  }

  predicate SingleIO(n: Node) {
    |n.inputs| == 1 && |n.outputs| == 1
  }

  lemma SimpleHandled(net: Network, k: Work, o: Op, n: Node) returns (more: seq<Mapped>, ds: seq<Mapped>)
    requires OneOutput(n) && PlainMapped(net, k)
    ensures Handled(net, k, OnSingle(net, k, o, n, Simple), n, more, ds)
  {
    more := [];
    NothingMoved(k, n.inputs);
    assert n.outputs == [n.outputs[0]];
    var p := PvOf(k, n.inputs[0]);
    var k2 := CreateOutputs(net, k, n.outputs, [p]).1;
    var e := Rebuilt(o, MappedAll(k2, [n.inputs[0]]), CreateOutputs(net, k, n.outputs, [p]).0);
    SetLayoutsAt(Append(k2, e), n.outputs, [p], 0);
    SetLays(Append(k2, e), n.outputs, [p]);
    CreateKeepsLayouts(net, k, n.outputs, [p]);
    EmitHandled(net, k, k, OnSingle(net, k, o, n, Simple), n, more, [p], e);
    ds := Dst(e);
  }

  lemma TransposeHandled(net: Network, k: Work, o: Op, n: Node, perm: Permute) returns (more: seq<Mapped>, ds: seq<Mapped>)
    requires OneOutput(n) && PlainMapped(net, k) && perm != []
    ensures Handled(net, k, OnSingle(net, k, o, n, Transposing(perm)), n, more, ds)
  {
    var src, out := n.inputs[0], n.outputs[0];
    var (d, k1) := CreateOutput(net, k, out, Identity(|perm|));
    var e := TransposeEmit(net, MappedOf(k, src), Realigned(PvOf(k, src), perm), out, d);
    more := [];
    NothingMoved(k, n.inputs);
    assert n.outputs == [out];
    SingleHandled(net, k, k, OnTranspose(net, k, src, out, perm), n, more, out, Identity(|perm|), e);
    ds := Dst(e);
  }

  lemma PoolAlignedMoves(k: Work, n: Node, required: Permute) returns (more: seq<Mapped>)
    requires n.inputs != [] && n.inputs[0] in k.tensorMap
    ensures MovesAll(k, PoolAligned(k, n.inputs[0], required), n.inputs, more)
  {
    if Aligned(Realigned(PvOf(k, n.inputs[0]), required)) {
      more := [];
      NothingMoved(k, n.inputs);
    } else {
      more := AlignVariableWrites(k, n.inputs[0], required);
      forall t ensures if t in n.inputs then SameOrNew(k, AlignVariable(k, n.inputs[0], required), t)
                       else Untouched(k, AlignVariable(k, n.inputs[0], required), t)
      {
        assert t == n.inputs[0] || Untouched(k, AlignVariable(k, n.inputs[0], required), t);
      }
    }
  }

  lemma PoolEmits(net: Network, k: Work, k1: Work, o: Op, n: Node, required: Permute, more: seq<Mapped>) returns (ds: seq<Mapped>)
    requires OneOutput(n) && PlainMapped(net, k) && MovesAll(k, k1, n.inputs, more)
    ensures Handled(net, k, PoolEmitted(net, k1, o, n.inputs[0], n.outputs[0], required), n, more, ds)
  {
    var (d, k2) := CreateOutput(net, k1, n.outputs[0], required);
    assert n.outputs == [n.outputs[0]];
    SingleHandled(net, k, k1, PoolEmitted(net, k1, o, n.inputs[0], n.outputs[0], required), n, more, n.outputs[0], required,
                  RebuiltWhcn(o, MappedOf(k2, n.inputs[0]), d));
    ds := [d];
  }

  lemma PoolHandled(net: Network, k: Work, o: Op, n: Node, channelFirst: bool) returns (more: seq<Mapped>, ds: seq<Mapped>)
    requires OneOutput(n) && PlainMapped(net, k) && n.inputs[0] in k.tensorMap
    ensures Handled(net, k, OnPool(net, k, o, n.inputs[0], n.outputs[0], channelFirst), n, more, ds)
  {
    more := PoolAlignedMoves(k, n, PoolLayout(channelFirst));
    ds := PoolEmits(net, k, PoolAligned(k, n.inputs[0], PoolLayout(channelFirst)), o, n, PoolLayout(channelFirst), more);
  }

  /** What the lemmas about single operations start from: inputs can be brought into layouts, a
      pooled one is mapped, and outputs are different. */
  ghost predicate Handleable(net: Network, k: Work, o: Op, n: Node) {
    && net.s.placeholders == {} && NoDuplicates(n.outputs) && PlainMapped(net, k)
    && (forall t | t in n.inputs :: Movable(net, k, t))
    && (o in net.family && net.family[o].Pooling? && OneOutput(n) ==> n.inputs[0] in k.tensorMap)
    && (o in net.family && net.family[o].Transposing? ==> net.family[o].perm != [])
  }

  lemma AnyHandled(net: Network, k: Work, o: Op, n: Node) returns (more: seq<Mapped>, ds: seq<Mapped>)
    requires Handleable(net, k, o, n)
    ensures Handled(net, k, OnInputs(net, k, o, n), n, more, ds)
  {
    if o in net.family && OneOutput(n) {
      match net.family[o]
      case Default => more, ds := DefaultHandled(net, k, o, n);
      case Simple => more, ds := SimpleHandled(net, k, o, n);
      case Transposing(perm) => more, ds := TransposeHandled(net, k, o, n, perm);
      case Elementwise => more, ds := ElementwiseHandled(net, k, o, n);
      case Pooling(channelFirst) => more, ds := PoolHandled(net, k, o, n, channelFirst);
    } else {
      more, ds := DefaultHandled(net, k, o, n);
    }
  }

  // ---- graph outputs ----

  function OneUndone(net: Network, own: map<Tensor, Mapped>, r: Work, out: Tensor): seq<Mapped>
    requires out in net.s.outputs ==> out in own
  {
    if out in net.s.outputs && !Aligned(PvOf(r, out)) then [own[out]] else []
  }

  /** Which of the outputs have their layout undone into their own tensors. */
  function Undone(net: Network, own: map<Tensor, Mapped>, r: Work, outs: seq<Tensor>): seq<Mapped>
    requires forall t | t in outs && t in net.s.outputs :: t in own
  {
    if outs == [] then [] else OneUndone(net, own, r, outs[0]) + Undone(net, own, r, outs[1..])
  }

  lemma {:induction false} UndoneOf(net: Network, own: map<Tensor, Mapped>, r: Work, outs: seq<Tensor>, m: Mapped)
    requires forall t | t in outs && t in net.s.outputs :: t in own
    ensures m in Undone(net, own, r, outs) <==>
              exists t :: t in outs && t in net.s.outputs && !Aligned(PvOf(r, t)) && own[t] == m
  {
    if outs != [] {
      assert outs == [outs[0]] + outs[1..];
      UndoneOf(net, own, r, outs[1..], m);
    }
  }

  lemma {:induction false} UndoneSame(net: Network, own: map<Tensor, Mapped>, r: Work, r1: Work, outs: seq<Tensor>)
    requires (forall t | t in outs && t in net.s.outputs :: t in own) && forall t | t in outs :: PvOf(r1, t) == PvOf(r, t)
    ensures Undone(net, own, r1, outs) == Undone(net, own, r, outs)
  {
    if outs != [] {
      assert outs == [outs[0]] + outs[1..];
      UndoneSame(net, own, r, r1, outs[1..]);
    }
  }

  /** What seeing to one graph output does: to what is written, to that output, and to others. */
  lemma FinishOneWrites(net: Network, own: map<Tensor, Mapped>, r: Work, out: Tensor)
    requires out in net.s.outputs ==> out in own
    ensures Writes(r, FinishOutput(net, own, r, out), OneUndone(net, own, r, out))
    ensures FinishOutput(net, own, r, out).infer.next == r.infer.next
  {
    if out in net.s.outputs && !Aligned(PvOf(r, out)) {
      AppendWrites(r, Permuted(MappedOf(r, out), Undo(PvOf(r, out)), own[out]));
    }
  }

  lemma FinishOnePlaces(net: Network, own: map<Tensor, Mapped>, r: Work, out: Tensor)
    requires out in net.s.outputs ==> out in own
    ensures FinishedAt(net, own, r, FinishOutput(net, own, r, out), [out], out)
  {
  }

  lemma FinishOneFrame(net: Network, own: map<Tensor, Mapped>, r: Work, out: Tensor, t: Tensor)
    requires t != out
    ensures Untouched(r, FinishOutput(net, own, r, out), t) && SameLayout(r, FinishOutput(net, own, r, out), t)
  {
  }

  /** Where a tensor is after graph outputs are seen to. */
  ghost predicate FinishedAt(net: Network, own: map<Tensor, Mapped>, r: Work, r1: Work, outs: seq<Tensor>, t: Tensor) {
    && (if t in outs && t in net.s.outputs && !Aligned(PvOf(r, t)) then t in own && t in r1.tensorMap && r1.tensorMap[t] == own[t]
        else Untouched(r, r1, t))
    && (if t in outs && t in net.s.outputs && ConsumersOf(net.s.g, t) != [] then t in r1.pv && r1.pv[t] == DefaultLayout(|PvOf(r, t)|)
        else SameLayout(r, r1, t))
  }

  lemma FinishedMore(net: Network, own: map<Tensor, Mapped>, r: Work, r1: Work, r2: Work, outs: seq<Tensor>, t: Tensor)
    requires outs != [] && NoDuplicates(outs) && FinishedAt(net, own, r1, r2, outs[1..], t)
    requires t != outs[0] ==> Untouched(r, r1, t) && SameLayout(r, r1, t)
    requires t == outs[0] ==> FinishedAt(net, own, r, r1, [outs[0]], t)
    ensures FinishedAt(net, own, r, r2, outs, t)
  {
    NoDuplicatesTail(outs);
    assert outs == [outs[0]] + outs[1..];
  }

  lemma {:induction false} FinishWrites(net: Network, own: map<Tensor, Mapped>, r: Work, outs: seq<Tensor>)
    requires NoDuplicates(outs) && forall t | t in outs && t in net.s.outputs :: t in own
    ensures Writes(r, FinishOutputs(net, own, r, outs), Undone(net, own, r, outs))
    ensures FinishOutputs(net, own, r, outs).infer.next == r.infer.next
    decreases |outs|
  {
    if outs != [] {
      var r1 := FinishOutput(net, own, r, outs[0]);
      FinishOneWrites(net, own, r, outs[0]);
      NoDuplicatesTail(outs);
      FinishWrites(net, own, r1, outs[1..]);
      WritesMore(r, r1, FinishOutputs(net, own, r1, outs[1..]), OneUndone(net, own, r, outs[0]), Undone(net, own, r1, outs[1..]));
      forall t | t in outs[1..] ensures PvOf(r1, t) == PvOf(r, t) { FinishOneFrame(net, own, r, outs[0], t); }
      UndoneSame(net, own, r, r1, outs[1..]);
    }
  }

  lemma {:induction false} FinishPlaces(net: Network, own: map<Tensor, Mapped>, r: Work, outs: seq<Tensor>, t: Tensor)
    requires NoDuplicates(outs) && forall t | t in outs && t in net.s.outputs :: t in own
    ensures FinishedAt(net, own, r, FinishOutputs(net, own, r, outs), outs, t)
    decreases |outs|
  {
    if outs != [] {
      var r1 := FinishOutput(net, own, r, outs[0]);
      FinishOnePlaces(net, own, r, outs[0]);
      if t != outs[0] { FinishOneFrame(net, own, r, outs[0], t); }
      NoDuplicatesTail(outs);
      FinishPlaces(net, own, r1, outs[1..], t);
      FinishedMore(net, own, r, r1, FinishOutputs(net, own, r1, outs[1..]), outs, t);
    }
  }

  // ---- one step ----

  /** Tensors are mapped to existing ones, and only a graph output to its own. */
  ghost predicate Homes(own: map<Tensor, Mapped>, k: Work) {
    && (forall t | t in k.tensorMap :: k.tensorMap[t] < k.infer.next)
    && (forall t | t in own :: t in k.tensorMap && own[t] < k.infer.next)
    && (forall u, t | u in k.tensorMap && t in own && k.tensorMap[u] == own[t] :: u == t)
  }

  ghost predicate Mapping(own: map<Tensor, Mapped>, k: Work) {
    Homes(own, k) && LaidMapped(k)
  }

  lemma HomesStay(own: map<Tensor, Mapped>, k: Work, r: Work)
    requires Homes(own, k) && k.infer.next <= r.infer.next && forall u :: SameOrNew(k, r, u)
    ensures Homes(own, r)
  {
    forall u | u in r.tensorMap
      ensures r.tensorMap[u] < r.infer.next && forall t | t in own && r.tensorMap[u] == own[t] :: u == t
    {
      assert SameOrNew(k, r, u);
    }
    forall t | t in own ensures t in r.tensorMap { assert SameOrNew(k, r, t); }
  }

  /** Graph outputs, which are the plain ones, have tensors of their own. */
  ghost predicate Owners(net: Network, own: map<Tensor, Mapped>) {
    && (forall t :: t in own <==> t in net.s.outputs) && (forall t :: t in net.plainOutputs <==> t in net.s.outputs)
    && forall t, u | t in own && u in own && own[t] == own[u] :: t == u
  }

  /** The output is still mapped to its own tensor, or its writer does not want it aligned. */
  predicate KeepsOwn(net: Network, own: map<Tensor, Mapped>, k: Work, o: Op, n: Node, t: Tensor) {
    (t in k.tensorMap && t in own && k.tensorMap[t] == own[t]) || !Aligned(PvOf(OnInputs(net, k, o, n), t))
  }

  lemma MovedHomes(own: map<Tensor, Mapped>, k: Work, k1: Work, ts: seq<Tensor>, more: seq<Mapped>)
    requires Homes(own, k) && MovesAll(k, k1, ts, more)
    ensures Homes(own, k1)
  {
    forall u ensures SameOrNew(k, k1, u) { assert u in ts || Untouched(k, k1, u); }
    HomesStay(own, k, k1);
  }

  lemma CreatedHomes(net: Network, own: map<Tensor, Mapped>, k: Work, r: Work, outs: seq<Tensor>, pvs: seq<Permute>, ds: seq<Mapped>)
    requires Homes(own, k) && Creates(net, k, r, outs, pvs, ds) && PlainMapped(net, k)
    ensures Homes(own, r)
  {
    forall u ensures SameOrNew(k, r, u) {
      if u in outs {
        var i :| 0 <= i < |outs| && outs[i] == u;
        assert CreatedFor(net, k, r, outs[i], pvs[i], ds[i]);
      } else {
        assert Untouched(k, r, u);
      }
    }
    HomesStay(own, k, r);
  }

  /** The output's own tensor is among those its writer writes exactly if the writer wants it
      aligned and it is still mapped there. */
  lemma CreatedOwn(net: Network, own: map<Tensor, Mapped>, k: Work, r: Work, outs: seq<Tensor>, pvs: seq<Permute>, ds: seq<Mapped>, t: Tensor)
    requires Creates(net, k, r, outs, pvs, ds) && PlainMapped(net, k) && Homes(own, k) && t in own
    ensures own[t] in ds <==>
              exists i :: 0 <= i < |outs| && outs[i] == t && TakesMapped(net, t, pvs[i]) && MappedOf(k, t) == own[t]
  {
    if own[t] in ds {
      var i :| 0 <= i < |ds| && ds[i] == own[t];
      assert CreatedFor(net, k, r, outs[i], pvs[i], ds[i]);
      assert outs[i] == t && TakesMapped(net, t, pvs[i]);
    }
    if i :| 0 <= i < |outs| && outs[i] == t && TakesMapped(net, t, pvs[i]) && MappedOf(k, t) == own[t] {
      assert CreatedFor(net, k, r, outs[i], pvs[i], ds[i]) && ds[i] in ds;
    }
  }

  lemma HandledHomes(net: Network, own: map<Tensor, Mapped>, k: Work, r: Work, n: Node, more: seq<Mapped>, ds: seq<Mapped>)
    requires Handled(net, k, r, n, more, ds) && Homes(own, k) && PlainMapped(net, k)
    ensures Homes(own, r) && k.infer.next <= r.infer.next && PlainMapped(net, r)
  {
    var k1, k2 :| MovesAll(k, k1, n.inputs, more) && CreatesLaid(net, k1, k2, r, n.outputs, ds) && r.infer.next == k2.infer.next;
    MovedHomes(own, k, k1, n.inputs, more);
    MovedPlain(net, k, k1, n.inputs, more);
    CreatedHomes(net, own, k1, k2, n.outputs, LayoutsIn(r, n.outputs), ds);
    CreatedPlain(net, k1, k2, n.outputs, LayoutsIn(r, n.outputs), ds);
  }

  lemma CreatedPlain(net: Network, k: Work, r: Work, outs: seq<Tensor>, pvs: seq<Permute>, ds: seq<Mapped>)
    requires Creates(net, k, r, outs, pvs, ds) && PlainMapped(net, k)
    ensures PlainMapped(net, r)
  {
    forall t | t in net.plainOutputs ensures t in r.tensorMap {
      if t in outs {
        var i :| 0 <= i < |outs| && outs[i] == t;
        assert CreatedFor(net, k, r, outs[i], pvs[i], ds[i]);
      } else {
        assert Untouched(k, r, t);
      }
    }
  }

  /** Before graph outputs are seen to, an output's own tensor has been written if it had been or
      if the operation writes the output, wants it aligned and finds it mapped there. */
  lemma HandledOwn(net: Network, own: map<Tensor, Mapped>, k: Work, r: Work, n: Node, more: seq<Mapped>, ds: seq<Mapped>, t: Tensor)
    requires Handled(net, k, r, n, more, ds) && Homes(own, k) && PlainMapped(net, k) && Apart(n) && t in own && t in net.plainOutputs
    ensures own[t] in Dsts(r.infer.emitted) <==>
              own[t] in Dsts(k.infer.emitted) || (t in n.outputs && Aligned(PvOf(r, t)) && MappedOf(k, t) == own[t])
  {
    var k1, k2 :| MovesAll(k, k1, n.inputs, more) && CreatesLaid(net, k1, k2, r, n.outputs, ds)
                  && Dsts(r.infer.emitted) == Dsts(k1.infer.emitted) + ds;
    MovedHomes(own, k, k1, n.inputs, more);
    MovedPlain(net, k, k1, n.inputs, more);
    var pvs := LayoutsIn(r, n.outputs);
    CreatedOwn(net, own, k1, k2, n.outputs, pvs, ds, t);
    assert own[t] !in more;
    if t in n.outputs {
      var i :| 0 <= i < |n.outputs| && n.outputs[i] == t;
      assert pvs[i] == PvOf(r, t) && Untouched(k, k1, t);
    }
  }

  predicate Apart(n: Node) {
    forall t | t in n.inputs :: t !in n.outputs
  }

  /** Where handling leaves a graph output before graph outputs are seen to. */
  lemma HandledOutputAt(net: Network, k: Work, r: Work, n: Node, more: seq<Mapped>, ds: seq<Mapped>, t: Tensor)
    requires Handled(net, k, r, n, more, ds) && PlainMapped(net, k) && Apart(n)
    ensures t !in n.inputs && t !in n.outputs ==> Untouched(k, r, t)
    ensures t !in n.outputs ==> SameOrNew(k, r, t)
    ensures t in n.outputs && TakesMapped(net, t, PvOf(r, t)) ==> t in r.tensorMap && r.tensorMap[t] == MappedOf(k, t)
  {
    var k1, k2 :| MovesAll(k, k1, n.inputs, more) && CreatesLaid(net, k1, k2, r, n.outputs, ds) && r.infer.next == k2.infer.next;
    if t in n.outputs {
      var i :| 0 <= i < |n.outputs| && n.outputs[i] == t;
      assert CreatedFor(net, k1, k2, n.outputs[i], LayoutsIn(r, n.outputs)[i], ds[i]) && Untouched(k, k1, t);
    } else {
      assert Untouched(k1, k2, t);
      assert t in n.inputs || Untouched(k, k1, t);
    }
  }

  // ---- handling one operation ----

  function HandledWork(net: Network, own: map<Tensor, Mapped>, k: Work, o: Op, n: Node): Work {
    FinishOutputs(net, own, OnInputs(net, k, o, n), n.outputs)
  }

  /** What holds throughout a run. */
  ghost predicate Orderly(net: Network, own: map<Tensor, Mapped>, k: Work) {
    Mapping(own, k) && Owners(net, own)
  }

  lemma OrderlyPlain(net: Network, own: map<Tensor, Mapped>, k: Work)
    requires Orderly(net, own, k)
    ensures PlainMapped(net, k)
  {
  }

  /** An output's own tensor has been written after a step if it had been before it, or if the step
      writes the output and keeps it. */
  lemma StepOwn(net: Network, own: map<Tensor, Mapped>, k: Work, o: Op, n: Node, t: Tensor)
    requires Orderly(net, own, k) && Handleable(net, k, o, n) && Apart(n) && t in own
    ensures own[t] in Dsts(HandledWork(net, own, k, o, n).infer.emitted) <==>
              own[t] in Dsts(k.infer.emitted) || (t in n.outputs && KeepsOwn(net, own, k, o, n, t))
  {
    var r := OnInputs(net, k, o, n);
    var more, ds := AnyHandled(net, k, o, n);
    HandledOwn(net, own, k, r, n, more, ds, t);
    FinishWrites(net, own, r, n.outputs);
    UndoneOf(net, own, r, n.outputs, own[t]);
  }

  lemma FinishedHomes(net: Network, own: map<Tensor, Mapped>, k: Work, r: Work, outs: seq<Tensor>)
    requires Homes(own, k) && Owners(net, own) && r.infer.next == k.infer.next && forall t :: FinishedAt(net, own, k, r, outs, t)
    ensures Homes(own, r)
  {
    forall u | u in r.tensorMap
      ensures r.tensorMap[u] < r.infer.next && forall t | t in own && r.tensorMap[u] == own[t] :: u == t
    {
      assert FinishedAt(net, own, k, r, outs, u);
    }
    forall t | t in own ensures t in r.tensorMap { assert FinishedAt(net, own, k, r, outs, t); }
  }

  lemma HandledMapping(net: Network, own: map<Tensor, Mapped>, k: Work, r: Work, n: Node, more: seq<Mapped>, ds: seq<Mapped>)
    requires Handled(net, k, r, n, more, ds) && Mapping(own, k) && PlainMapped(net, k)
    ensures Mapping(own, r) && k.infer.next <= r.infer.next
  {
    HandledHomes(net, own, k, r, n, more, ds);
    var k1, k2 :| MovesAll(k, k1, n.inputs, more) && CreatesLaid(net, k1, k2, r, n.outputs, ds);
    forall t | t in r.pv ensures t in r.tensorMap {
      if t in n.outputs {
        var i :| 0 <= i < |n.outputs| && n.outputs[i] == t;
        assert CreatedFor(net, k1, k2, n.outputs[i], LayoutsIn(r, n.outputs)[i], ds[i]);
      } else {
        assert Untouched(k1, k2, t);
      }
    }
  }

  lemma FinishedMapping(net: Network, own: map<Tensor, Mapped>, k: Work, r: Work, outs: seq<Tensor>)
    requires Mapping(own, k) && Owners(net, own) && r.infer.next == k.infer.next && forall t :: FinishedAt(net, own, k, r, outs, t)
    requires forall t | t in outs :: t in k.pv
    ensures Mapping(own, r)
  {
    FinishedHomes(net, own, k, r, outs);
    forall t | t in r.pv ensures t in r.tensorMap { assert FinishedAt(net, own, k, r, outs, t); }
  }

  /** A step keeps the maps in order. */
  lemma StepOrderly(net: Network, own: map<Tensor, Mapped>, k: Work, o: Op, n: Node)
    requires Orderly(net, own, k) && Handleable(net, k, o, n)
    ensures Orderly(net, own, HandledWork(net, own, k, o, n)) && k.infer.next <= HandledWork(net, own, k, o, n).infer.next
  {
    var r, r2 := OnInputs(net, k, o, n), HandledWork(net, own, k, o, n);
    var more, ds := AnyHandled(net, k, o, n);
    HandledMapping(net, own, k, r, n, more, ds);
    FinishWrites(net, own, r, n.outputs);
    forall t ensures FinishedAt(net, own, r, r2, n.outputs, t) { FinishPlaces(net, own, r, n.outputs, t); }
    InputsLay(net, k, o, n);
    FinishedMapping(net, own, r, r2, n.outputs);
  }

  /** Where a step leaves a graph output. */
  lemma StepOutputAt(net: Network, own: map<Tensor, Mapped>, k: Work, o: Op, n: Node, t: Tensor)
    requires Orderly(net, own, k) && Handleable(net, k, o, n) && Apart(n) && t in own
    ensures var r := HandledWork(net, own, k, o, n);
            && t in k.tensorMap && t in r.tensorMap
            && (t !in n.inputs && t !in n.outputs ==> r.tensorMap[t] == k.tensorMap[t])
            && (t !in n.outputs ==> r.tensorMap[t] == k.tensorMap[t] || k.infer.next <= r.tensorMap[t])
            && (t in n.outputs ==> r.tensorMap[t] == if Aligned(PvOf(OnInputs(net, k, o, n), t)) then k.tensorMap[t] else own[t])
  {
    var r := OnInputs(net, k, o, n);
    var more, ds := AnyHandled(net, k, o, n);
    HandledOutputAt(net, k, r, n, more, ds, t);
    FinishPlaces(net, own, r, n.outputs, t);
  }

  // ---- every tensor is written once ----

  /** No tensor is written twice, and only existing ones are. */
  predicate Once(k: Work) {
    NoDuplicates(Dsts(k.infer.emitted)) && forall m | m in Dsts(k.infer.emitted) :: m < k.infer.next
  }

  lemma DistinctMore(xs: seq<Mapped>, ys: seq<Mapped>)
    requires NoDuplicates(xs) && NoDuplicates(ys) && forall m | m in ys :: m !in xs
    ensures NoDuplicates(xs + ys)
  {
    forall i, j | 0 <= i < j < |xs + ys| ensures (xs + ys)[i] != (xs + ys)[j] {
      if i < |xs| <= j { assert (xs + ys)[j] in ys && (xs + ys)[i] in xs; }
    }
  }

  lemma OnceMore(k: Work, r: Work, more: seq<Mapped>)
    requires Once(k) && Writes(k, r, more) && NoDuplicates(more) && forall m | m in more :: m < r.infer.next && m !in Dsts(k.infer.emitted)
    ensures Once(r)
  {
    DistinctMore(Dsts(k.infer.emitted), more);
    forall m | m in Dsts(r.infer.emitted) ensures m < r.infer.next { assert m in more || m in Dsts(k.infer.emitted); }
  }

  /** The outputs are written to different tensors if each that is taken aligned is mapped to its
      own. */
  lemma CreatedDistinct(net: Network, own: map<Tensor, Mapped>, k: Work, r: Work, outs: seq<Tensor>, pvs: seq<Permute>, ds: seq<Mapped>)
    requires Creates(net, k, r, outs, pvs, ds) && NoDuplicates(outs) && Homes(own, k) && Owners(net, own)
    requires forall i | 0 <= i < |outs| && TakesMapped(net, outs[i], pvs[i]) :: MappedOf(k, outs[i]) == own[outs[i]]
    ensures NoDuplicates(ds)
  {
    forall i, j | 0 <= i < j < |ds| ensures ds[i] != ds[j] {
      assert CreatedFor(net, k, r, outs[i], pvs[i], ds[i]) && CreatedFor(net, k, r, outs[j], pvs[j], ds[j]);
      assert outs[i] != outs[j];
    }
  }

  lemma CreatedUnwritten(net: Network, own: map<Tensor, Mapped>, k: Work, r: Work, outs: seq<Tensor>, pvs: seq<Permute>, ds: seq<Mapped>, m: Mapped)
    requires Creates(net, k, r, outs, pvs, ds) && Owners(net, own) && Homes(own, k) && m in ds
    requires forall i | 0 <= i < |outs| && TakesMapped(net, outs[i], pvs[i]) :: MappedOf(k, outs[i]) == own[outs[i]]
    ensures m < r.infer.next && (k.infer.next <= m || exists t :: t in outs && t in own && own[t] == m)
  {
    var i :| 0 <= i < |ds| && ds[i] == m;
    assert CreatedFor(net, k, r, outs[i], pvs[i], ds[i]) && outs[i] in outs;
  }

  /** What a handler writes before graph outputs are seen to is written once. */
  lemma HandledOnce(net: Network, own: map<Tensor, Mapped>, k: Work, r: Work, n: Node, more: seq<Mapped>, ds: seq<Mapped>)
    requires Handled(net, k, r, n, more, ds) && Once(k) && Homes(own, k) && Owners(net, own) && Apart(n) && NoDuplicates(n.outputs)
    requires forall t | t in n.outputs && t in own :: own[t] !in Dsts(k.infer.emitted)
    requires forall t | t in n.outputs && t in own && Aligned(PvOf(r, t)) :: MappedOf(k, t) == own[t]
    ensures Once(r)
  {
    var k1, k2 :| MovesAll(k, k1, n.inputs, more) && CreatesLaid(net, k1, k2, r, n.outputs, ds)
                  && Dsts(r.infer.emitted) == Dsts(k1.infer.emitted) + ds && r.infer.next == k2.infer.next;
    var pvs := LayoutsIn(r, n.outputs);
    OnceMore(k, k1, more);
    MovedHomes(own, k, k1, n.inputs, more);
    forall i | 0 <= i < |n.outputs| && TakesMapped(net, n.outputs[i], pvs[i]) ensures MappedOf(k1, n.outputs[i]) == own[n.outputs[i]] {
      assert n.outputs[i] in n.outputs && Untouched(k, k1, n.outputs[i]);
    }
    CreatedDistinct(net, own, k1, k2, n.outputs, pvs, ds);
    forall m | m in ds ensures m < r.infer.next && m !in Dsts(k1.infer.emitted) {
      CreatedUnwritten(net, own, k1, k2, n.outputs, pvs, ds, m);
    }
    OnceMore(k1, r, ds);
  }

  lemma {:induction false} UndoneDistinct(net: Network, own: map<Tensor, Mapped>, r: Work, outs: seq<Tensor>)
    requires (forall t | t in outs && t in net.s.outputs :: t in own) && NoDuplicates(outs) && Owners(net, own)
    ensures NoDuplicates(Undone(net, own, r, outs))
  {
    if outs != [] {
      NoDuplicatesTail(outs);
      assert outs == [outs[0]] + outs[1..];
      UndoneDistinct(net, own, r, outs[1..]);
      forall m | m in Undone(net, own, r, outs[1..]) ensures m !in OneUndone(net, own, r, outs[0]) {
        UndoneOf(net, own, r, outs[1..], m);
      }
      DistinctMore(OneUndone(net, own, r, outs[0]), Undone(net, own, r, outs[1..]));
    }
  }

  lemma UndoneUnwritten(net: Network, own: map<Tensor, Mapped>, k: Work, r: Work, n: Node, more: seq<Mapped>, ds: seq<Mapped>, m: Mapped)
    requires Handled(net, k, r, n, more, ds) && Homes(own, k) && Homes(own, r) && PlainMapped(net, k) && Apart(n) && Owners(net, own)
    requires (forall t | t in n.outputs && t in own :: own[t] !in Dsts(k.infer.emitted)) && m in Undone(net, own, r, n.outputs)
    ensures m < r.infer.next && m !in Dsts(r.infer.emitted)
  {
    UndoneOf(net, own, r, n.outputs, m);
    var t :| t in n.outputs && t in net.s.outputs && !Aligned(PvOf(r, t)) && own[t] == m;
    HandledOwn(net, own, k, r, n, more, ds, t);
  }

  /** A step that keeps the outputs it writes, which nobody wrote before, writes nothing twice. */
  lemma StepOnce(net: Network, own: map<Tensor, Mapped>, k: Work, o: Op, n: Node)
    requires Orderly(net, own, k) && Handleable(net, k, o, n) && Apart(n) && Once(k)
    requires forall t | t in n.outputs && t in own :: own[t] !in Dsts(k.infer.emitted) && KeepsOwn(net, own, k, o, n, t)
    ensures Once(HandledWork(net, own, k, o, n))
  {
    var r := OnInputs(net, k, o, n);
    var more, ds := AnyHandled(net, k, o, n);
    HandledOnce(net, own, k, r, n, more, ds);
    HandledHomes(net, own, k, r, n, more, ds);
    FinishWrites(net, own, r, n.outputs);
    UndoneDistinct(net, own, r, n.outputs);
    forall m | m in Undone(net, own, r, n.outputs) ensures m < r.infer.next && m !in Dsts(r.infer.emitted) {
      UndoneUnwritten(net, own, k, r, n, more, ds, m);
    }
    OnceMore(r, HandledWork(net, own, k, o, n), Undone(net, own, r, n.outputs));
  }
}
