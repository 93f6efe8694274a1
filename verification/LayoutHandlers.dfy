/** The handlers of layout inference for five families of operations, and the bookkeeping
    they share: realigning inputs, creating outputs, and undoing the layout of a graph
    output.  They are the instance of the worklist's Handler parameter about which meaning
    preservation is proved. */
module LayoutHandlers {
  import opened GraphModel
  import opened Permutations
  import opened TensorLayout
  import opened LayoutWorklist

  /** An operation of the graph being built. */
  datatype Emit =
    | Permuted(src: Mapped, perm: Permute, dst: Mapped)
    | Reshaped(src: Mapped, shape: Shape, dst: Mapped)
    | Rebuilt(op: Op, srcs: seq<Mapped>, dsts: seq<Mapped>)
    | RebuiltWhcn(op: Op, src: Mapped, dst: Mapped)
    | Constant(data: Data, dst: Mapped)

  /** The tensors an operation reads and those it writes. */
  function Src(e: Emit): seq<Mapped> {
    match e
    case Permuted(src, perm, dst) => [src]
    case Reshaped(src, shape, dst) => [src]
    case Rebuilt(op, srcs, dsts) => srcs
    case RebuiltWhcn(op, src, dst) => [src]
    case Constant(data, dst) => []
  }

  function Dst(e: Emit): seq<Mapped> {
    match e
    case Permuted(src, perm, dst) => [dst]
    case Reshaped(src, shape, dst) => [dst]
    case Rebuilt(op, srcs, dsts) => dsts
    case RebuiltWhcn(op, src, dst) => [dst]
    case Constant(data, dst) => [dst]
  }

  /** Which handler an operation gets. */
  datatype Family =
    | Default
    | Simple
    | Transposing(perm: Permute)
    | Elementwise
    | Pooling(channelFirst: bool)

  /** A source graph with what the handlers read of its tensors: shapes, the data of
      constants, and the tensors whose attribute is exactly OUTPUT. */
  datatype Network = Network(
    s: Source,
    family: map<Op, Family>,
    shape: Tensor -> Shape,
    data: map<Tensor, Data>,
    plainOutputs: set<Tensor>)

  /** The part of the context a handler updates. */
  datatype Work = Work(pv: map<Tensor, Permute>, tensorMap: map<Tensor, Mapped>, infer: Inferred<Emit>)

  const CWHN_TO_WHCN: Permute := [1, 2, 0, 3]

  predicate Aligned(p: Permute) {
    p == Identity(|p|)
  }

  function PvOf(w: Work, t: Tensor): Permute {
    if t in w.pv then w.pv[t] else []
  }

  function MappedOf(w: Work, t: Tensor): Mapped {
    if t in w.tensorMap then w.tensorMap[t] else 0
  }

  function RankOf(net: Network, t: Tensor): nat {
    |net.shape(t)|
  }

  /** The layout every tensor starts with: the aligned vector of its rank, of rank one for
      a scalar. */
  function DefaultLayout(rank: nat): Permute {
    Identity(if rank == 0 then 1 else rank)
  }

  /** reverse of p, then r; the handlers only meet permutations of one rank here. */
  function Realigned(p: Permute, r: Permute): Permute {
    if IsPerm(p) && IsPerm(r) && |p| == |r| then Add(Reverse(p), r) else r
  }

  function Undo(p: Permute): Permute {
    if IsPerm(p) then Reverse(p) else p
  }

  function Append(w: Work, e: Emit): Work {
    w.(infer := w.infer.(emitted := w.infer.emitted + [e]))
  }

  function Fresh(w: Work): (Mapped, Work) {
    (w.infer.next, w.(infer := w.infer.(next := w.infer.next + 1)))
  }

  function InsertPermute(w: Work, src: Mapped, perm: Permute): (Mapped, Work) {
    var (d, w1) := Fresh(w);
    (d, Append(w1, Permuted(src, perm, d)))
  }

  function Remap(w: Work, t: Tensor, m: Mapped, p: Permute): Work {
    w.(tensorMap := w.tensorMap[t := m], pv := w.pv[t := p])
  }

  /** Bring a variable input into the required layout. */
  function AlignVariable(w: Work, t: Tensor, required: Permute): Work {
    var final := Realigned(PvOf(w, t), required);
    if Aligned(final) then Remap(w, t, MappedOf(w, t), required)
    else
      var (d, w1) := InsertPermute(w, MappedOf(w, t), final);
      Remap(w1, t, d, required)
  }

  function AddConstant(w: Work, t: Tensor, data: Data, p: Permute): Work {
    var (d, w1) := Fresh(w);
    Remap(Append(w1, Constant(data, d)), t, d, p)
  }

  // ---- constants ----

  /** A permutation as the driver's host-side transpose utility reads it: that utility
      counts dimensions from the slowest one. */
  function Mirror(p: Permute): (r: Permute)
    requires InRange(p)
    ensures |r| == |p|
  {
    seq(|p|, i requires 0 <= i < |p| => |p| - 1 - p[|p| - 1 - i])
  }

  /** The permutation handed to that utility is looked up, not computed. */
  function LookedUp(pv: Permute): (p: Permute)
    ensures IsPerm(p)
  {
    if pv == [2, 3, 1, 0] then [3, 2, 0, 1]
    else if pv == [2, 3, 0, 1] then [2, 3, 0, 1]
    else if pv == [2, 3, 4, 1, 0] then [4, 3, 0, 1, 2]
    else [0, 3, 1, 2]
  }

  lemma MirrorIsPerm(p: Permute)
    requires IsPerm(p)
    ensures IsPerm(Mirror(p))
  {
    forall i, j | 0 <= i < j < |p| ensures Mirror(p)[i] != Mirror(p)[j] {
      assert p[|p| - 1 - j] != p[|p| - 1 - i];
    }
  }

  /** A buffer nobody has written. */
  function Blank(shape: Shape): (x: Data)
    ensures x.shape == shape && forall o | 0 <= o < |x.flat| :: x.flat[o] == 0.0
  {
    Dense(shape, seq(Size(shape), o => 0.0))
  }

  /** A constant re-laid at build time: the shape follows pv, the data follows the looked-up
      permutation.  The utility refuses a permutation with an entry out of range, which a
      constant of fewer dimensions than the permutation meets, and leaves the buffer blank.
      With more dimensions it reads past the end of the permutation, which is undefined; x
      stands for whatever it does then. */
  function PermutedConstant(x: Data, pv: Permute): (y: Data)
  {
    if Fits(pv, x.shape) && |LookedUp(pv)| == |pv| then
      MirrorIsPerm(LookedUp(pv));
      SizeConserved(x.shape, pv);
      SizeConserved(x.shape, Mirror(LookedUp(pv)));
      Dense(Gather(x.shape, pv), Transpose(x, Mirror(LookedUp(pv))).flat)
    else if Fits(pv, x.shape) && |pv| < |LookedUp(pv)| then Blank(Gather(x.shape, pv))
    else x
  }

  /** Bring one input of an elementwise operation into the required layout. */
  function AlignOne(net: Network, w: Work, t: Tensor, required: Permute): Work {
    if t in net.s.constants && t in net.data then
      AddConstant(w, t, if Aligned(required) then net.data[t] else PermutedConstant(net.data[t], required), required)
    else AlignVariable(w, t, required)
  }

  function AlignAll(net: Network, w: Work, ts: seq<Tensor>, required: Permute): Work
    decreases |ts|
  {
    if ts == [] then w else AlignAll(net, AlignOne(net, w, ts[0], required), ts[1..], required)
  }

  /** The aligned layout an input ends up with. */
  function UndoneLayout(net: Network, w: Work, t: Tensor): Permute {
    if t in net.s.constants && t in net.data then DefaultLayout(|net.data[t].shape|)
    else DefaultLayout(|PvOf(w, t)|)
  }

  /** Undo whatever layout one input of an operation without a layout rule has. */
  function ReverseOne(net: Network, w: Work, t: Tensor): Work {
    if t in net.s.placeholders then w
    else if t in net.s.constants && t in net.data then AddConstant(w, t, net.data[t], UndoneLayout(net, w, t))
    else
      var p := PvOf(w, t);
      if Aligned(p) then Remap(w, t, MappedOf(w, t), UndoneLayout(net, w, t))
      else
        var (d, w1) := InsertPermute(w, MappedOf(w, t), Undo(p));
        Remap(w1, t, d, UndoneLayout(net, w, t))
  }

  function ReverseAll(net: Network, w: Work, ts: seq<Tensor>): Work
    decreases |ts|
  {
    if ts == [] then w else ReverseAll(net, ReverseOne(net, w, ts[0]), ts[1..])
  }

  /** The tensors of a list that are bound, in their order. */
  function NoPlaceholders(net: Network, ts: seq<Tensor>): (r: seq<Tensor>)
    ensures forall t :: t in r <==> t in ts && t !in net.s.placeholders
  {
    if ts == [] then [] else (if ts[0] in net.s.placeholders then [] else [ts[0]]) + NoPlaceholders(net, ts[1..])
  }

  /** The handler without a layout rule passes over optional inputs that are not bound. */
  lemma {:induction false} PlaceholdersSkipped(net: Network, w: Work, ts: seq<Tensor>)
    ensures ReverseAll(net, w, ts) == ReverseAll(net, w, NoPlaceholders(net, ts))
    decreases |ts|
  {
    if ts != [] {
      var rest := NoPlaceholders(net, ts[1..]);
      PlaceholdersSkipped(net, ReverseOne(net, w, ts[0]), ts[1..]);
      assert [] + rest == rest && ([ts[0]] + rest)[1..] == rest;
    }
  }

  // ---- outputs ----

  /** One tensor of the new graph per output: a plain graph output in the aligned layout
      already has one, everything else gets a fresh one. */
  function CreateOutput(net: Network, w: Work, out: Tensor, p: Permute): (Mapped, Work) {
    if Aligned(p) && out in net.plainOutputs then (MappedOf(w, out), w)
    else
      var (d, w1) := Fresh(w);
      (d, w1.(tensorMap := w1.tensorMap[out := d]))
  }

  function CreateOutputs(net: Network, w: Work, outs: seq<Tensor>, pvs: seq<Permute>): (r: (seq<Mapped>, Work))
    requires |outs| == |pvs|
    ensures |r.0| == |outs|
    decreases |outs|
  {
    if outs == [] then ([], w)
    else
      var (d, w1) := CreateOutput(net, w, outs[0], pvs[0]);
      var (ds, w2) := CreateOutputs(net, w1, outs[1..], pvs[1..]);
      ([d] + ds, w2)
  }

  function SetLayouts(w: Work, outs: seq<Tensor>, pvs: seq<Permute>): Work
    requires |outs| == |pvs|
    decreases |outs|
  {
    if outs == [] then w else SetLayouts(w.(pv := w.pv[outs[0] := pvs[0]]), outs[1..], pvs[1..])
  }

  /** Drop the first occurrence. */
  function Erase(ts: seq<Tensor>, t: Tensor): (r: seq<Tensor>)
    ensures forall u :: u in r ==> u in ts
    ensures forall u :: u in ts && u != t ==> u in r
  {
    if ts == [] then [] else if ts[0] == t then ts[1..] else [ts[0]] + Erase(ts[1..], t)
  }

  /** A graph output leaves the new graph in the layout it had in the source. */
  function FinishOutput(net: Network, outputMap: map<Tensor, Mapped>, w: Work, out: Tensor): Work {
    if out !in net.s.outputs then w
    else
      var p := PvOf(w, out);
      var target := if out in outputMap then outputMap[out] else 0;
      var w1 :=
        if Aligned(p) then w
        else
          var w0 := Append(w, Permuted(MappedOf(w, out), Undo(p), target));
          w0.(tensorMap := w0.tensorMap[out := target]);
      if ConsumersOf(net.s.g, out) != [] then w1.(pv := w1.pv[out := DefaultLayout(|p|)]) else w1
  }

  function FinishOutputs(net: Network, outputMap: map<Tensor, Mapped>, w: Work, outs: seq<Tensor>): Work
    decreases |outs|
  {
    if outs == [] then w
    else FinishOutputs(net, outputMap, FinishOutput(net, outputMap, w, outs[0]), outs[1..])
  }

  /** The outputs handed back to the queue: all but the graph outputs nobody reads. */
  function Returned(net: Network, outs: seq<Tensor>, next: seq<Tensor>): (r: seq<Tensor>)
    ensures forall t :: t in r ==> t in next
    ensures forall t :: t in next && ConsumersOf(net.s.g, t) != [] ==> t in r
  {
    if outs == [] then next
    else if outs[0] in net.s.outputs && ConsumersOf(net.s.g, outs[0]) == [] then
      Returned(net, outs[1..], Erase(next, outs[0]))
    else Returned(net, outs[1..], next)
  }

  /** A graph output that nobody reads. */
  predicate Final(net: Network, t: Tensor) {
    t in net.s.outputs && ConsumersOf(net.s.g, t) == []
  }

  /** The outputs in their order without those. */
  function NotFinal(net: Network, outs: seq<Tensor>): seq<Tensor> {
    if outs == [] then [] else (if Final(net, outs[0]) then [] else [outs[0]]) + NotFinal(net, outs[1..])
  }

  lemma {:induction false} EraseBehind(pre: seq<Tensor>, rest: seq<Tensor>, t: Tensor)
    requires t !in pre && rest != [] && rest[0] == t
    ensures Erase(pre + rest, t) == pre + rest[1..]
  {
    if pre == [] {
      assert pre + rest == rest && pre + rest[1..] == rest[1..];
    } else {
      EraseBehind(pre[1..], rest, t);
      var first, more := [pre[0]], pre[1..];
      assert (pre + rest)[0] == pre[0] && (pre + rest)[1..] == more + rest;
      assert Erase(pre + rest, t) == first + (more + rest[1..]);
      hide Erase;
      assert pre == first + more;
      assert (first + more) + rest[1..] == first + (more + rest[1..]);
    }
  }

  lemma {:induction false} ReturnedBehind(net: Network, pre: seq<Tensor>, outs: seq<Tensor>)
    requires forall t | t in pre :: !Final(net, t)
    ensures Returned(net, outs, pre + outs) == pre + NotFinal(net, outs)
    decreases |outs|
  {
    if outs != [] {
      if Final(net, outs[0]) {
        EraseBehind(pre, outs, outs[0]);
        ReturnedBehind(net, pre, outs[1..]);
      } else {
        assert pre + outs == (pre + [outs[0]]) + outs[1..];
        ReturnedBehind(net, pre + [outs[0]], outs[1..]);
      }
    }
  }

  /** Erasing one output after another leaves exactly those to be served, in their order. */
  lemma ReturnedExactly(net: Network, c: Context<Emit>, o: Op)
    requires o in net.s.g.node
    ensures Infer(net, c, o).next == NotFinal(net, net.s.g.node[o].outputs)
  {
    var outs := net.s.g.node[o].outputs;
    ReturnedBehind(net, [], outs);
    assert [] + outs == outs;
  }

  // ---- the handlers ----

  function MappedAll(w: Work, ts: seq<Tensor>): (r: seq<Mapped>)
    ensures |r| == |ts|
  {
    seq(|ts|, i requires 0 <= i < |ts| => MappedOf(w, ts[i]))
  }

  /** The layout of the variable input of largest rank, the first of them on a tie. */
  function ReferenceLayout(net: Network, w: Work, ts: seq<Tensor>, best: Permute, rank: nat): Permute {
    if ts == [] then best
    else if ts[0] !in net.s.constants && RankOf(net, ts[0]) > rank then
      ReferenceLayout(net, w, ts[1..], PvOf(w, ts[0]), RankOf(net, ts[0]))
    else ReferenceLayout(net, w, ts[1..], best, rank)
  }

  /** ts[k] is the first of the variable inputs of largest rank. */
  predicate Largest(net: Network, ts: seq<Tensor>, k: nat) {
    && k < |ts| && ts[k] !in net.s.constants && RankOf(net, ts[k]) > 0
    && (forall j | 0 <= j < k && ts[j] !in net.s.constants :: RankOf(net, ts[j]) < RankOf(net, ts[k]))
    && forall j | k < j < |ts| && ts[j] !in net.s.constants :: RankOf(net, ts[j]) <= RankOf(net, ts[k])
  }

  lemma {:induction false} NoLarger(net: Network, w: Work, ts: seq<Tensor>, best: Permute, rank: nat)
    requires forall t | t in ts && t !in net.s.constants :: RankOf(net, t) <= rank
    ensures ReferenceLayout(net, w, ts, best, rank) == best
    decreases |ts|
  {
    if ts != [] {
      assert ts[0] in ts;
      NoLarger(net, w, ts[1..], best, rank);
    }
  }

  lemma {:induction false} ReferenceIsLargest(net: Network, w: Work, ts: seq<Tensor>, k: nat, best: Permute, rank: nat)
    requires Largest(net, ts, k) && RankOf(net, ts[k]) > rank
    ensures ReferenceLayout(net, w, ts, best, rank) == PvOf(w, ts[k])
    decreases |ts|
  {
    if k == 0 {
      NoLarger(net, w, ts[1..], PvOf(w, ts[0]), RankOf(net, ts[0]));
    } else if ts[0] !in net.s.constants && RankOf(net, ts[0]) > rank {
      ReferenceIsLargest(net, w, ts[1..], k - 1, PvOf(w, ts[0]), RankOf(net, ts[0]));
    } else {
      ReferenceIsLargest(net, w, ts[1..], k - 1, best, rank);
    }
  }

  /** Create the outputs in the given layouts, emit the operation, record the layouts. */
  function Rebuild(net: Network, w: Work, o: Op, ins: seq<Tensor>, outs: seq<Tensor>, pvs: seq<Permute>): Work
    requires |outs| == |pvs|
  {
    var (ds, w1) := CreateOutputs(net, w, outs, pvs);
    SetLayouts(Append(w1, Rebuilt(o, MappedAll(w1, ins), ds)), outs, pvs)
  }

  function DefaultLayouts(net: Network, outs: seq<Tensor>): (pvs: seq<Permute>)
    ensures |pvs| == |outs|
  {
    seq(|outs|, i requires 0 <= i < |outs| => DefaultLayout(RankOf(net, outs[i])))
  }

  function OnDefault(net: Network, w: Work, o: Op, n: Node): Work {
    Rebuild(net, ReverseAll(net, w, n.inputs), o, n.inputs, n.outputs, DefaultLayouts(net, n.outputs))
  }

  /** All inputs are brought into the required layout, which the output then has. */
  function OnElementwise(net: Network, w: Work, o: Op, ins: seq<Tensor>, out: Tensor, required: Permute): Work {
    Rebuild(net, AlignAll(net, w, ins, required), o, ins, [out], [required])
  }

  /** The output takes the layout of the input. */
  function OnSimple(net: Network, w: Work, o: Op, src: Tensor, out: Tensor): Work {
    Rebuild(net, w, o, [src], [out], [PvOf(w, src)])
  }

  predicate OneOutput(n: Node) {
    |n.inputs| >= 1 && |n.outputs| == 1
  }

  function TransposeEmit(net: Network, m: Mapped, final: Permute, out: Tensor, d: Mapped): Emit {
    if Aligned(final) then Reshaped(m, net.shape(out), d)
    else Permuted(m, final, d)
  }

  /** A transpose either disappears into a reshape or absorbs the input's layout; its
      output is aligned. */
  function OnTranspose(net: Network, w: Work, src: Tensor, out: Tensor, perm: Permute): Work {
    var (d, w1) := CreateOutput(net, w, out, Identity(|perm|));
    var w2 := Append(w1, TransposeEmit(net, MappedOf(w, src), Realigned(PvOf(w, src), perm), out, d));
    w2.(pv := w2.pv[out := DefaultLayout(|perm|)])
  }

  function PoolLayout(channelFirst: bool): Permute {
    if channelFirst then CWHN_TO_WHCN else Identity(4)
  }

  function PoolAligned(w: Work, src: Tensor, required: Permute): Work {
    if Aligned(Realigned(PvOf(w, src), required)) then w else AlignVariable(w, src, required)
  }

  function PoolEmitted(net: Network, w: Work, o: Op, src: Tensor, out: Tensor, required: Permute): Work {
    var (d, w1) := CreateOutput(net, w, out, required);
    var w2 := Append(w1, RebuiltWhcn(o, MappedOf(w1, src), d));
    w2.(pv := w2.pv[out := required])
  }

  /** Pooling runs in WHCN order; a channel-first operation gets its input permuted. */
  function OnPool(net: Network, w: Work, o: Op, src: Tensor, out: Tensor, channelFirst: bool): Work {
    PoolEmitted(net, PoolAligned(w, src, PoolLayout(channelFirst)), o, src, out, PoolLayout(channelFirst))
  }

  /** Single-output families. */
  function OnSingle(net: Network, w: Work, o: Op, n: Node, family: Family): Work
    requires OneOutput(n)
  {
    match family
    case Default => OnDefault(net, w, o, n)
    case Simple => OnSimple(net, w, o, n.inputs[0], n.outputs[0])
    case Transposing(perm) => OnTranspose(net, w, n.inputs[0], n.outputs[0], perm)
    case Elementwise => OnElementwise(net, w, o, n.inputs, n.outputs[0], ReferenceLayout(net, w, n.inputs, [], 0))
    case Pooling(channelFirst) => OnPool(net, w, o, n.inputs[0], n.outputs[0], channelFirst)
  }

  function OnInputs(net: Network, w: Work, o: Op, n: Node): Work {
    if o in net.family && OneOutput(n)
    then OnSingle(net, w, o, n, net.family[o])
    else OnDefault(net, w, o, n)
  }

  function Infer(net: Network, c: Context<Emit>, o: Op): Effect<Emit> {
    if o !in net.s.g.node then Effect(c.pv, c.tensorMap, c.infer, [])
    else
      var n := net.s.g.node[o];
      var w1 := OnInputs(net, Work(c.pv, c.tensorMap, c.infer), o, n);
      var w2 := FinishOutputs(net, c.outputMap, w1, n.outputs);
      Effect(w2.pv, w2.tensorMap, w2.infer, Returned(net, n.outputs, n.outputs))
  }

  function HandlerFor(net: Network): Handler<Emit> {
    (c: Context<Emit>, o: Op) => Infer(net, c, o)
  }

  // ---- which tensors have layouts ----

  /** Layouts are only added, to every tensor in must and to none outside may. */
  ghost predicate LaidOut(w: Work, r: Work, must: seq<Tensor>, may: seq<Tensor>) {
    && (forall t :: t in w.pv || t in must ==> t in r.pv)
    && (forall t :: t in r.pv ==> t in w.pv || t in may)
  }

  lemma LaidOutMore(w: Work, w1: Work, r: Work, a: seq<Tensor>, b: seq<Tensor>, c: seq<Tensor>, d: seq<Tensor>)
    requires LaidOut(w, w1, a, b) && LaidOut(w1, r, c, d)
    ensures LaidOut(w, r, c, b + d)
  {
  }

  lemma {:induction false} AlignAllLays(net: Network, w: Work, ts: seq<Tensor>, required: Permute)
    ensures LaidOut(w, AlignAll(net, w, ts, required), ts, ts)
    decreases |ts|
  {
    if ts != [] {
      assert ts == [ts[0]] + ts[1..];
      assert AlignOne(net, w, ts[0], required).pv == w.pv[ts[0] := required];
      AlignAllLays(net, AlignOne(net, w, ts[0], required), ts[1..], required);
    }
  }

  lemma {:induction false} ReverseAllLays(net: Network, w: Work, ts: seq<Tensor>)
    ensures LaidOut(w, ReverseAll(net, w, ts), [], ts)
    decreases |ts|
  {
    if ts != [] {
      assert ts == [ts[0]] + ts[1..];
      ReverseAllLays(net, ReverseOne(net, w, ts[0]), ts[1..]);
    }
  }

  lemma {:induction false} CreateKeepsLayouts(net: Network, w: Work, outs: seq<Tensor>, pvs: seq<Permute>)
    requires |outs| == |pvs|
    ensures CreateOutputs(net, w, outs, pvs).1.pv == w.pv
    decreases |outs|
  {
    if outs != [] { CreateKeepsLayouts(net, CreateOutput(net, w, outs[0], pvs[0]).1, outs[1..], pvs[1..]); }
  }

  lemma {:induction false} SetLays(w: Work, outs: seq<Tensor>, pvs: seq<Permute>)
    requires |outs| == |pvs|
    ensures LaidOut(w, SetLayouts(w, outs, pvs), outs, outs)
    ensures SetLayouts(w, outs, pvs).tensorMap == w.tensorMap && SetLayouts(w, outs, pvs).infer == w.infer
    decreases |outs|
  {
    if outs != [] {
      assert outs == [outs[0]] + outs[1..];
      SetLays(w.(pv := w.pv[outs[0] := pvs[0]]), outs[1..], pvs[1..]);
    }
  }

  lemma RebuildLays(net: Network, w: Work, o: Op, ins: seq<Tensor>, outs: seq<Tensor>, pvs: seq<Permute>)
    requires |outs| == |pvs|
    ensures LaidOut(w, Rebuild(net, w, o, ins, outs, pvs), outs, outs)
  {
    var (ds, w1) := CreateOutputs(net, w, outs, pvs);
    CreateKeepsLayouts(net, w, outs, pvs);
    SetLays(Append(w1, Rebuilt(o, MappedAll(w1, ins), ds)), outs, pvs);
  }

  lemma DefaultLays(net: Network, w: Work, o: Op, n: Node)
    ensures LaidOut(w, OnDefault(net, w, o, n), n.outputs, n.inputs + n.outputs)
  {
    var w1 := ReverseAll(net, w, n.inputs);
    ReverseAllLays(net, w, n.inputs);
    RebuildLays(net, w1, o, n.inputs, n.outputs, DefaultLayouts(net, n.outputs));
    LaidOutMore(w, w1, OnDefault(net, w, o, n), [], n.inputs, n.outputs, n.outputs);
  }

  lemma ElementwiseLays(net: Network, w: Work, o: Op, ins: seq<Tensor>, out: Tensor, required: Permute)
    ensures LaidOut(w, OnElementwise(net, w, o, ins, out, required), [out], ins + [out])
  {
    var w1 := AlignAll(net, w, ins, required);
    AlignAllLays(net, w, ins, required);
    RebuildLays(net, w1, o, ins, [out], [required]);
    LaidOutMore(w, w1, OnElementwise(net, w, o, ins, out, required), ins, ins, [out], [out]);
  }

  lemma PoolLays(net: Network, w: Work, o: Op, src: Tensor, out: Tensor, channelFirst: bool)
    ensures LaidOut(w, OnPool(net, w, o, src, out, channelFirst), [out], [src, out])
  {
  }

  lemma TransposeLays(net: Network, w: Work, src: Tensor, out: Tensor, perm: Permute)
    ensures LaidOut(w, OnTranspose(net, w, src, out, perm), [out], [out])
  {
  }

  /** Before graph outputs are seen to, every output has a layout and besides only inputs got one. */
  lemma InputsLay(net: Network, w: Work, o: Op, n: Node)
    ensures LaidOut(w, OnInputs(net, w, o, n), n.outputs, n.inputs + n.outputs)
  {
    DefaultLays(net, w, o, n);
    if o in net.family && OneOutput(n) {
      var src, out := n.inputs[0], n.outputs[0];
      assert n.outputs == [out];
      match net.family[o]
      case Default =>
      case Simple => RebuildLays(net, w, o, [src], [out], [PvOf(w, src)]);
      case Transposing(perm) => TransposeLays(net, w, src, out, perm);
      case Elementwise => ElementwiseLays(net, w, o, n.inputs, out, ReferenceLayout(net, w, n.inputs, [], 0));
      case Pooling(channelFirst) => PoolLays(net, w, o, src, out, channelFirst);
    }
  }

  lemma {:induction false} FinishLays(net: Network, outputMap: map<Tensor, Mapped>, w: Work, outs: seq<Tensor>)
    ensures LaidOut(w, FinishOutputs(net, outputMap, w, outs), [], outs)
    decreases |outs|
  {
    if outs != [] {
      assert outs == [outs[0]] + outs[1..];
      FinishLays(net, outputMap, FinishOutput(net, outputMap, w, outs[0]), outs[1..]);
    }
  }

  lemma InferMeetsContract(net: Network, c: Context<Emit>, o: Op)
    requires o in net.s.g.node
    ensures EffectOk(net.s, c, o, Infer(net, c, o))
  {
    var n, w := net.s.g.node[o], Work(c.pv, c.tensorMap, c.infer);
    InputsLay(net, w, o, n);
    FinishLays(net, c.outputMap, OnInputs(net, w, o, n), n.outputs);
  }

  /** These handlers keep the bargain the worklist theorems ask for. */
  lemma HandlersMeetContract(net: Network)
    requires HasNodes(net.s.g)
    ensures Contract(net.s, HandlerFor(net))
  {
    var h := HandlerFor(net);
    forall c: Context<Emit>, o: Op | o in net.s.g.ops && IsReady(net.s, c, o) ensures EffectOk(net.s, c, o, h(c, o)) {
      assert h(c, o) == Infer(net, c, o);
      InferMeetsContract(net, c, o);
    }
  }

  // ---- the set-up loops ----

  /** The caller's layout for a tensor, or the default one. */
  function InitialLayout(net: Network, given: map<Tensor, Permute>, t: Tensor): Permute {
    if t in given then given[t] else DefaultLayout(RankOf(net, t))
  }

  function DataOf(net: Network, t: Tensor): Data {
    if t in net.data then net.data[t] else Dense([0], [])
  }

  function AddInput(net: Network, given: map<Tensor, Permute>, c: Context<Emit>, t: Tensor): Context<Emit> {
    var m := c.infer.next;
    c.(tensorMap := c.tensorMap[t := m], inputMap := c.inputMap[t := m],
       pv := c.pv[t := InitialLayout(net, given, t)], infer := c.infer.(next := m + 1))
  }

  function AddInputs(net: Network, given: map<Tensor, Permute>, c: Context<Emit>, ts: seq<Tensor>): Context<Emit>
    decreases |ts|
  {
    if ts == [] then c else AddInputs(net, given, AddInput(net, given, c, ts[0]), ts[1..])
  }

  function AddSource(net: Network, given: map<Tensor, Permute>, c: Context<Emit>, t: Tensor): Context<Emit> {
    var m := c.infer.next;
    c.(tensorMap := c.tensorMap[t := m], pv := c.pv[t := InitialLayout(net, given, t)],
       infer := Inferred(m + 1, c.infer.emitted + [Constant(DataOf(net, t), m)]))
  }

  function AddSources(net: Network, given: map<Tensor, Permute>, c: Context<Emit>, ts: seq<Tensor>): Context<Emit>
    decreases |ts|
  {
    if ts == [] then c else AddSources(net, given, AddSource(net, given, c, ts[0]), ts[1..])
  }

  function AddOutput(net: Network, given: map<Tensor, Permute>, c: Context<Emit>, t: Tensor): Context<Emit> {
    var m := c.infer.next;
    c.(tensorMap := c.tensorMap[t := m], outputMap := c.outputMap[t := m],
       pv := c.pv[t := InitialLayout(net, given, t)], infer := c.infer.(next := m + 1))
  }

  function AddOutputs(net: Network, given: map<Tensor, Permute>, c: Context<Emit>, ts: seq<Tensor>): Context<Emit>
    decreases |ts|
  {
    if ts == [] then c else AddOutputs(net, given, AddOutput(net, given, c, ts[0]), ts[1..])
  }

  function FreshContext(s: Source): Context<Emit> {
    Context(map o | o in s.g.ops :: false, map[], map[], map[], map[], Inferred(0, []), [])
  }

  function SetUp(net: Network, given: map<Tensor, Permute>): Context<Emit>
    requires HasNodes(net.s.g)
  {
    AddOutputs(net, given,
               AddSources(net, given, AddInputs(net, given, FreshContext(net.s), net.s.inputs),
                          ConstantInputs(net.s, net.s.g.ops)),
               net.s.outputs)
  }

  /** What the set-up loops change and what they keep. */
  lemma {:induction false} AddInputsFrame(net: Network, given: map<Tensor, Permute>, c: Context<Emit>, ts: seq<Tensor>)
    ensures var r := AddInputs(net, given, c, ts);
            && r.visited == c.visited && r.order == c.order && r.infer.emitted == c.infer.emitted
            && r.outputMap == c.outputMap
            && forall t :: t in r.pv <==> t in c.pv || t in ts
    decreases |ts|
  {
    if ts != [] {
      AddInputsFrame(net, given, AddInput(net, given, c, ts[0]), ts[1..]);
      assert ts == [ts[0]] + ts[1..];
    }
  }

  lemma {:induction false} AddSourcesFrame(net: Network, given: map<Tensor, Permute>, c: Context<Emit>, ts: seq<Tensor>)
    ensures var r := AddSources(net, given, c, ts);
            && r.visited == c.visited && r.order == c.order && c.infer.emitted <= r.infer.emitted
            && r.inputMap == c.inputMap && r.outputMap == c.outputMap
            && forall t :: t in r.pv <==> t in c.pv || t in ts
    decreases |ts|
  {
    if ts != [] {
      AddSourcesFrame(net, given, AddSource(net, given, c, ts[0]), ts[1..]);
      assert ts == [ts[0]] + ts[1..];
    }
  }

  lemma {:induction false} AddOutputsFrame(net: Network, given: map<Tensor, Permute>, c: Context<Emit>, ts: seq<Tensor>)
    ensures var r := AddOutputs(net, given, c, ts);
            && r.visited == c.visited && r.order == c.order && r.infer.emitted == c.infer.emitted
            && r.inputMap == c.inputMap
            && forall t :: t in r.pv <==> t in c.pv || t in ts
    decreases |ts|
  {
    if ts != [] {
      AddOutputsFrame(net, given, AddOutput(net, given, c, ts[0]), ts[1..]);
      assert ts == [ts[0]] + ts[1..];
    }
  }

  /** The set-up loops leave a state the worklist theorems start from. */
  lemma SetUpStarts(net: Network, given: map<Tensor, Permute>)
    requires HasNodes(net.s.g)
    ensures Start(net.s, SetUp(net, given), QueueOf(net.s))
  {
    var c1 := AddInputs(net, given, FreshContext(net.s), net.s.inputs);
    var c2 := AddSources(net, given, c1, ConstantInputs(net.s, net.s.g.ops));
    AddInputsFrame(net, given, FreshContext(net.s), net.s.inputs);
    AddSourcesFrame(net, given, c1, ConstantInputs(net.s, net.s.g.ops));
    AddOutputsFrame(net, given, c2, net.s.outputs);
    var c := SetUp(net, given);
    assert c == AddOutputs(net, given, c2, net.s.outputs);
    assert c.visited == FreshContext(net.s).visited && c.order == [];
    forall t ensures t in c.pv <==> Seed(net.s, t) || t in net.s.outputs {
      assert t in c1.pv <==> t in net.s.inputs;
    }
  }

  /** The whole pass. */
  function InferLayout(net: Network, given: map<Tensor, Permute>): Context<Emit>
    requires WellLinked(net.s)
  {
    SetUpStarts(net, given);
    Drain(net.s, HandlerFor(net), SetUp(net, given), QueueOf(net.s))
  }

  /** Where the source's inputs and outputs went. */
  function IoMap(c: Context<Emit>): map<Tensor, Mapped> {
    c.inputMap + c.outputMap
  }
}
