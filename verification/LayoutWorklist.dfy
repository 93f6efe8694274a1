/** The worklist of layout inference as a function, and what every run of it computes.  The
    per-operation handlers are a parameter: a function from the context and an operation to
    its effect. */
module LayoutWorklist {
  import opened GraphModel

  /** Handle of a tensor of the graph being built. */
  type Mapped = nat
  type Permute = seq<nat>

  /** The graph being built: the next unused tensor handle and the operations emitted so
      far (Emit is left to the handlers). */
  datatype Inferred<E> = Inferred(next: nat, emitted: seq<E>)

  /** What the pass reads of the source graph. */
  datatype Source = Source(
    g: Graph,
    inputs: seq<Tensor>,
    outputs: seq<Tensor>,
    constants: set<Tensor>,
    placeholders: set<Tensor>)

  /** The state of the pass.  order is the history of handled operations. */
  datatype Context<E> = Context(
    visited: map<Op, bool>,
    pv: map<Tensor, Permute>,
    tensorMap: map<Tensor, Mapped>,
    inputMap: map<Tensor, Mapped>,
    outputMap: map<Tensor, Mapped>,
    infer: Inferred<E>,
    order: seq<Op>)

  /** What handling one operation does to the context, and the tensors it returns. */
  datatype Effect<E> = Effect(
    pv: map<Tensor, Permute>,
    tensorMap: map<Tensor, Mapped>,
    infer: Inferred<E>,
    next: seq<Tensor>)

  type Handler<!E> = (Context<E>, Op) -> Effect<E>

  // ---- the pass ----

  /** As sets, the consumer lists are the operations that bind the tensor as an input. */
  ghost predicate WellLinked(s: Source) {
    && HasNodes(s.g)
    && (forall t: Tensor, o: Op :: o in ConsumersOf(s.g, t) ==> o in s.g.ops && t in s.g.node[o].inputs)
    && (forall t: Tensor, o: Op :: o in s.g.ops && t in s.g.node[o].inputs ==> o in ConsumersOf(s.g, t))
  }

  predicate Covers<E>(s: Source, c: Context<E>) {
    forall o | o in s.g.ops :: o in c.visited
  }

  function AllConstant(s: Source, o: Op): bool
    requires o in s.g.node
  {
    forall t | t in s.g.node[o].inputs :: t in s.constants
  }

  /** The driver's number for a two-dimensional convolution. */
  const CONV2D: int := 2

  /** What an operation that reads nothing but constants enqueues: all its inputs, of a
      two-dimensional convolution only the first. */
  function ConstantsOf(s: Source, o: Op): (ts: seq<Tensor>)
    requires o in s.g.node
    ensures forall t | t in ts :: AllConstant(s, o) && t in s.g.node[o].inputs
  {
    var n := s.g.node[o];
    if !AllConstant(s, o) then [] else if n.kind == CONV2D && n.inputs != [] then [n.inputs[0]] else n.inputs
  }

  /** What all operations enqueue, in operation order. */
  function ConstantInputs(s: Source, ops: seq<Op>): (ts: seq<Tensor>)
    requires forall o | o in ops :: o in s.g.node
    ensures forall t :: t in ts <==> exists o :: o in ops && t in ConstantsOf(s, o)
  {
    if ops == [] then [] else ConstantsOf(s, ops[0]) + ConstantInputs(s, ops[1..])
  }

  /** Constants and placeholders do not hold an operation back. */
  predicate Relevant(s: Source, t: Tensor) {
    t !in s.constants && t !in s.placeholders
  }

  predicate IsReady<E>(s: Source, c: Context<E>, o: Op)
    requires o in s.g.node
  {
    forall t | t in s.g.node[o].inputs :: Relevant(s, t) ==> t in c.pv
  }

  predicate Fires<E>(s: Source, c: Context<E>, o: Op)
    requires o in s.g.node && o in c.visited
  {
    !c.visited[o] && s.g.node[o].kind != -1 && IsReady(s, c, o)
  }

  function Handle<E>(h: Handler<E>, c: Context<E>, o: Op): (r: (Context<E>, seq<Tensor>))
  {
    var marked := c.(visited := c.visited[o := true]);
    var e := h(marked, o);
    (marked.(pv := e.pv, tensorMap := e.tensorMap, infer := e.infer, order := c.order + [o]), e.next)
  }

  function Unvisited<E>(c: Context<E>): set<Op> {
    set o | o in c.visited && !c.visited[o]
  }

  /** One pass over a consumer list. */
  function Serve<E>(s: Source, h: Handler<E>, ops: seq<Op>, c: Context<E>, q: seq<Tensor>)
    : (r: (Context<E>, seq<Tensor>))
    requires HasNodes(s.g) && Covers(s, c) && forall o | o in ops :: o in s.g.ops
    ensures Covers(s, r.0)
    ensures |Unvisited(r.0)| < |Unvisited(c)| || (|Unvisited(r.0)| == |Unvisited(c)| && |r.1| == |q|)
  {
    if ops == [] then (c, q)
    else if Fires(s, c, ops[0]) then
      var (c', next) := Handle(h, c, ops[0]);
      assert Unvisited(c') == Unvisited(c) - {ops[0]} && ops[0] in Unvisited(c);
      Serve(s, h, ops[1..], c', q + next)
    else Serve(s, h, ops[1..], c, q)
  }

  /** The whole loop.  It terminates because each turn either handles an operation or
      shortens the queue. */
  function Drain<E>(s: Source, h: Handler<E>, c: Context<E>, q: seq<Tensor>): (r: Context<E>)
    requires WellLinked(s) && Covers(s, c)
    ensures Covers(s, r)
    decreases |Unvisited(c)|, |q|
  {
    if q == [] then c
    else
      var (c', q') := Serve(s, h, ConsumersOf(s.g, q[0]), c, q[1..]);
      Drain(s, h, c', q')
  }

  lemma {:induction false} ConstantInputsApart(s: Source, xs: seq<Op>, ys: seq<Op>)
    requires forall o | o in xs + ys :: o in s.g.node
    ensures ConstantInputs(s, xs + ys) == ConstantInputs(s, xs) + ConstantInputs(s, ys)
  {
    if xs == [] {
      assert xs + ys == ys;
    } else {
      assert forall o | o in xs[1..] + ys :: o in xs + ys;
      ConstantInputsApart(s, xs[1..], ys);
      assert (xs + ys)[0] == xs[0] && (xs + ys)[1..] == xs[1..] + ys;
      assert ConstantInputs(s, xs + ys) == ConstantsOf(s, xs[0]) + ConstantInputs(s, xs[1..] + ys);
      hide *;
      Regroup(ConstantsOf(s, xs[0]), ConstantInputs(s, xs[1..]), ConstantInputs(s, ys));
    }
  }

  // ---- a run, operation by operation ----

  /** The context after the operations have been handled one after another. */
  function Replay<E>(h: Handler<E>, c: Context<E>, ops: seq<Op>): Context<E> {
    if ops == [] then c else Handle(h, Replay(h, c, ops[..|ops| - 1]), ops[|ops| - 1]).0
  }

  /** Each operation may be handled when its turn comes. */
  ghost predicate Played<E>(s: Source, h: Handler<E>, c: Context<E>, ops: seq<Op>)
    requires HasNodes(s.g)
  {
    forall i | 0 <= i < |ops| :: PlayedAt(s, h, c, ops, i)
  }

  ghost predicate PlayedAt<E>(s: Source, h: Handler<E>, c: Context<E>, ops: seq<Op>, i: nat)
    requires HasNodes(s.g) && i < |ops|
  {
    ops[i] in s.g.ops && Covers(s, Replay(h, c, ops[..i])) && Fires(s, Replay(h, c, ops[..i]), ops[i])
  }

  lemma {:induction false} ReplayMore<E>(h: Handler<E>, c: Context<E>, xs: seq<Op>, ys: seq<Op>)
    ensures Replay(h, Replay(h, c, xs), ys) == Replay(h, c, xs + ys)
  {
    if ys == [] {
      assert xs + ys == xs;
    } else {
      ReplayMore(h, c, xs, ys[..|ys| - 1]);
      assert (xs + ys)[..|xs + ys| - 1] == xs + ys[..|ys| - 1];
    }
  }

  lemma PlayedMore<E>(s: Source, h: Handler<E>, c: Context<E>, xs: seq<Op>, ys: seq<Op>)
    requires HasNodes(s.g) && Played(s, h, c, xs) && Played(s, h, Replay(h, c, xs), ys)
    ensures Played(s, h, c, xs + ys)
  {
    forall i | 0 <= i < |xs + ys| ensures PlayedAt(s, h, c, xs + ys, i) {
      if i < |xs| {
        assert (xs + ys)[..i] == xs[..i] && PlayedAt(s, h, c, xs, i);
      } else {
        assert (xs + ys)[..i] == xs + ys[..i - |xs|] && PlayedAt(s, h, Replay(h, c, xs), ys, i - |xs|);
        ReplayMore(h, c, xs, ys[..i - |xs|]);
      }
    }
  }

  lemma OnePlayed<E>(s: Source, h: Handler<E>, c: Context<E>, o: Op)
    requires HasNodes(s.g) && o in s.g.ops && Covers(s, c) && Fires(s, c, o)
    ensures Played(s, h, c, [o]) && Replay(h, c, [o]) == Handle(h, c, o).0
  {
    assert [o][..0] == [];
    assert Replay(h, c, [o][..0]) == c;
    assert PlayedAt(s, h, c, [o], 0);
  }

  /** The tensors the handlers return along a replay, in that order. */
  function ReturnedAlong<E>(h: Handler<E>, c: Context<E>, ops: seq<Op>): seq<Tensor> {
    if ops == [] then []
    else ReturnedAlong(h, c, ops[..|ops| - 1]) + Handle(h, Replay(h, c, ops[..|ops| - 1]), ops[|ops| - 1]).1
  }

  lemma Regroup<T>(a: seq<T>, b: seq<T>, c: seq<T>)
    ensures a + (b + c) == (a + b) + c
  {
  }

  lemma ReturnedLast<E>(h: Handler<E>, c: Context<E>, ops: seq<Op>, o: Op)
    ensures ReturnedAlong(h, c, ops + [o]) == ReturnedAlong(h, c, ops) + Handle(h, Replay(h, c, ops), o).1
  {
    assert (ops + [o])[..|ops|] == ops;
  }

  lemma {:induction false} ReturnedMore<E>(h: Handler<E>, c: Context<E>, xs: seq<Op>, ys: seq<Op>)
    ensures ReturnedAlong(h, c, xs + ys) == ReturnedAlong(h, c, xs) + ReturnedAlong(h, Replay(h, c, xs), ys)
  {
    if ys == [] {
      assert xs + ys == xs;
    } else {
      hide *;
      var front, o := ys[..|ys| - 1], ys[|ys| - 1];
      ReturnedMore(h, c, xs, front);
      ReplayMore(h, c, xs, front);
      ReturnedLast(h, c, xs + front, o);
      ReturnedLast(h, Replay(h, c, xs), front, o);
      assert ys == front + [o];
      Regroup(xs, front, [o]);
      Regroup(ReturnedAlong(h, c, xs), ReturnedAlong(h, Replay(h, c, xs), front), Handle(h, Replay(h, c, xs + front), o).1);
    }
  }

  lemma OneReturned<E>(h: Handler<E>, c: Context<E>, o: Op)
    ensures ReturnedAlong(h, c, [o]) == Handle(h, c, o).1
  {
    assert [o][..0] == [];
    assert Replay(h, c, [o][..0]) == c && ReturnedAlong(h, c, [o][..0]) == [];
  }

  /** xs leaves some of ys out. */
  predicate InOrder(xs: seq<Op>, ys: seq<Op>) {
    xs == [] || (ys != [] && ((xs[0] == ys[0] && InOrder(xs[1..], ys[1..])) || InOrder(xs, ys[1..])))
  }

  lemma FiredReplays<E>(s: Source, h: Handler<E>, c: Context<E>, o: Op, q: seq<Tensor>, r: Context<E>, q': seq<Tensor>, ys: seq<Op>)
    requires HasNodes(s.g) && o in s.g.ops && Covers(s, c) && Fires(s, c, o)
    requires r == Replay(h, Handle(h, c, o).0, ys) && Played(s, h, Handle(h, c, o).0, ys)
    requires q' == q + Handle(h, c, o).1 + ReturnedAlong(h, Handle(h, c, o).0, ys)
    ensures r == Replay(h, c, [o] + ys) && Played(s, h, c, [o] + ys) && q' == q + ReturnedAlong(h, c, [o] + ys)
  {
    OnePlayed(s, h, c, o);
    OneReturned(h, c, o);
    ReplayMore(h, c, [o], ys);
    ReturnedMore(h, c, [o], ys);
    PlayedMore(s, h, c, [o], ys);
    hide *;
  }

  lemma {:induction false} ServeReplays<E>(s: Source, h: Handler<E>, ops: seq<Op>, c: Context<E>, q: seq<Tensor>) returns (xs: seq<Op>)
    requires HasNodes(s.g) && Covers(s, c) && forall o | o in ops :: o in s.g.ops
    ensures Serve(s, h, ops, c, q).0 == Replay(h, c, xs) && Played(s, h, c, xs)
    ensures Serve(s, h, ops, c, q).1 == q + ReturnedAlong(h, c, xs) && InOrder(xs, ops)
    decreases |ops|
  {
    if ops == [] {
      xs := [];
    } else if Fires(s, c, ops[0]) {
      var (c', next) := Handle(h, c, ops[0]);
      var ys := ServeReplays(s, h, ops[1..], c', q + next);
      FiredReplays(s, h, c, ops[0], q, Serve(s, h, ops, c, q).0, Serve(s, h, ops, c, q).1, ys);
      xs := [ops[0]] + ys;
      assert xs[1..] == ys;
    } else {
      xs := ServeReplays(s, h, ops[1..], c, q);
    }
  }

  lemma {:induction false} DrainReplays<E>(s: Source, h: Handler<E>, c: Context<E>, q: seq<Tensor>) returns (xs: seq<Op>)
    requires WellLinked(s) && Covers(s, c)
    ensures Drain(s, h, c, q) == Replay(h, c, xs) && Played(s, h, c, xs)
    decreases |Unvisited(c)|, |q|
  {
    if q == [] {
      xs := [];
    } else {
      var (c', q') := Serve(s, h, ConsumersOf(s.g, q[0]), c, q[1..]);
      var ys := ServeReplays(s, h, ConsumersOf(s.g, q[0]), c, q[1..]);
      var zs := DrainReplays(s, h, c', q');
      ReplayMore(h, c, ys, zs);
      PlayedMore(s, h, c, ys, zs);
      xs := ys + zs;
    }
  }

  /** The history after a replay, and what it leaves alone. */
  lemma {:induction false} ReplayFrame<E>(h: Handler<E>, c: Context<E>, ops: seq<Op>)
    ensures var r := Replay(h, c, ops);
            r.order == c.order + ops && r.inputMap == c.inputMap && r.outputMap == c.outputMap
            && r.visited.Keys == c.visited.Keys + (set o | o in ops)
  {
    if ops != [] {
      ReplayFrame(h, c, ops[..|ops| - 1]);
      assert ops == ops[..|ops| - 1] + [ops[|ops| - 1]];
    }
  }

  /** A run from a fresh context is the replay of its order. */
  lemma RunReplays<E>(s: Source, h: Handler<E>, c: Context<E>, q: seq<Tensor>)
    requires WellLinked(s) && Covers(s, c) && c.order == []
    ensures Drain(s, h, c, q) == Replay(h, c, Drain(s, h, c, q).order) && Played(s, h, c, Drain(s, h, c, q).order)
  {
    var xs := DrainReplays(s, h, c, q);
    ReplayFrame(h, c, xs);
    assert [] + xs == xs;
  }

  /** The tensors taken from the queue, in that order. */
  ghost function Served<E>(s: Source, h: Handler<E>, c: Context<E>, q: seq<Tensor>): seq<Tensor>
    requires WellLinked(s) && Covers(s, c)
    decreases |Unvisited(c)|, |q|
  {
    if q == [] then []
    else
      var (c', q') := Serve(s, h, ConsumersOf(s.g, q[0]), c, q[1..]);
      [q[0]] + Served(s, h, c', q')
  }

  /** The operations fall into one run of consumers for each tensor, in the order of its list. */
  ghost predicate Rounds(s: Source, ts: seq<Tensor>, xs: seq<Op>)
    decreases |ts|
  {
    if ts == [] then xs == []
    else exists i: nat | i <= |xs| :: InOrder(xs[..i], ConsumersOf(s.g, ts[0])) && Rounds(s, ts[1..], xs[i..])
  }

  lemma RoundsMore(s: Source, t: Tensor, ts: seq<Tensor>, ys: seq<Op>, zs: seq<Op>)
    requires InOrder(ys, ConsumersOf(s.g, t)) && Rounds(s, ts, zs)
    ensures Rounds(s, [t] + ts, ys + zs)
  {
    assert (ys + zs)[..|ys|] == ys && (ys + zs)[|ys|..] == zs && ([t] + ts)[1..] == ts;
  }

  /** Three parts of a queue's history. */
  lemma QueueGrows(t: Tensor, rest: seq<Tensor>, ys: seq<Tensor>, zs: seq<Tensor>, q: seq<Tensor>)
    requires q != [] && q[0] == t && q[1..] == rest
    ensures [t] + ((rest + ys) + zs) == q + (ys + zs)
  {
  }

  lemma {:induction false} DrainRounds<E>(s: Source, h: Handler<E>, c: Context<E>, q: seq<Tensor>) returns (xs: seq<Op>)
    requires WellLinked(s) && Covers(s, c)
    ensures Drain(s, h, c, q) == Replay(h, c, xs)
    ensures Served(s, h, c, q) == q + ReturnedAlong(h, c, xs) && Rounds(s, Served(s, h, c, q), xs)
    decreases |Unvisited(c)|, |q|
  {
    if q == [] {
      xs := [];
    } else {
      var (c', q') := Serve(s, h, ConsumersOf(s.g, q[0]), c, q[1..]);
      var ys := ServeReplays(s, h, ConsumersOf(s.g, q[0]), c, q[1..]);
      var zs := DrainRounds(s, h, c', q');
      assert Drain(s, h, c, q) == Drain(s, h, c', q') && Served(s, h, c, q) == [q[0]] + Served(s, h, c', q');
      hide *;
      ReplayMore(h, c, ys, zs);
      ReturnedMore(h, c, ys, zs);
      RoundsMore(s, q[0], Served(s, h, c', q'), ys, zs);
      QueueGrows(q[0], q[1..], ReturnedAlong(h, c, ys), ReturnedAlong(h, c', zs), q);
      xs := ys + zs;
    }
  }

  /** First in, first out: the tensors served are those enqueued before the loop, then what the
      handlers returned in the order of handling; and each is served by its consumers in the
      order they are listed. */
  lemma FirstInFirstOut<E>(s: Source, h: Handler<E>, c: Context<E>, q: seq<Tensor>)
    requires WellLinked(s) && Covers(s, c) && c.order == []
    ensures var order := Drain(s, h, c, q).order;
            Served(s, h, c, q) == q + ReturnedAlong(h, c, order) && Rounds(s, Served(s, h, c, q), order)
  {
    var xs := DrainRounds(s, h, c, q);
    ReplayFrame(h, c, xs);
    assert [] + xs == xs;
  }

  // ---- the declarative reading ----

  /** Tensors enqueued before the loop. */
  ghost predicate Seed(s: Source, t: Tensor)
    requires HasNodes(s.g)
  {
    t in s.inputs || t in ConstantInputs(s, s.g.ops)
  }

  /** A tensor is enqueued before the loop exactly if it is a graph input or read by an operation
      that reads nothing but constants; a two-dimensional convolution enqueues its first input. */
  lemma SeedExactlyWhen(s: Source, t: Tensor)
    requires HasNodes(s.g)
    ensures Seed(s, t) <==>
            t in s.inputs
            || exists o | o in s.g.ops ::
                 (forall u | u in s.g.node[o].inputs :: u in s.constants)
                 && (if s.g.node[o].kind == 2 then s.g.node[o].inputs != [] && t == s.g.node[o].inputs[0] else t in s.g.node[o].inputs)
  {
    if o :| o in s.g.ops && t in ConstantsOf(s, o) {
      assert AllConstant(s, o);
    }
    forall o | o in s.g.ops && AllConstant(s, o)
               && (if s.g.node[o].kind == 2 then s.g.node[o].inputs != [] && t == s.g.node[o].inputs[0] else t in s.g.node[o].inputs)
      ensures t in ConstantsOf(s, o) { }
  }

  ghost predicate WrittenBy(s: Source, done: set<Op>, t: Tensor)
    requires HasNodes(s.g)
  {
    exists o :: o in done && o in s.g.ops && t in s.g.node[o].outputs
  }

  /** Enqueued at some point, if exactly the operations in done are handled. */
  ghost predicate Queued(s: Source, done: set<Op>, t: Tensor)
    requires HasNodes(s.g)
  {
    Seed(s, t) || WrittenBy(s, done, t)
  }

  /** Has a permute vector, if exactly the operations in done are handled.  A graph output
      has one from the start although nothing has produced it. */
  ghost predicate Known(s: Source, done: set<Op>, t: Tensor)
    requires HasNodes(s.g)
  {
    Queued(s, done, t) || t in s.outputs
  }

  ghost predicate ConsumesQueued(s: Source, done: set<Op>, o: Op)
    requires HasNodes(s.g)
  {
    exists t :: Queued(s, done, t) && o in ConsumersOf(s.g, t)
  }

  ghost predicate Enabled(s: Source, done: set<Op>, o: Op)
    requires HasNodes(s.g)
  {
    && o in s.g.ops
    && s.g.node[o].kind != -1
    && ConsumesQueued(s, done, o)
    && forall t | t in s.g.node[o].inputs && t !in s.constants && t !in s.placeholders :: Known(s, done, t)
  }

  ghost predicate Closed(s: Source, done: set<Op>)
    requires HasNodes(s.g)
  {
    forall o :: Enabled(s, done, o) ==> o in done
  }

  ghost function HandledOps<E>(s: Source, c: Context<E>): (done: set<Op>)
    requires Covers(s, c)
  {
    set o | o in s.g.ops && c.visited[o]
  }

  // ---- what a handler promises ----

  /** The handler's part of the bargain: it gives every output a permute vector (and may
      re-lay its inputs), and it returns outputs only, among them every one that some
      operation reads. */
  predicate EffectOk<E>(s: Source, c: Context<E>, o: Op, e: Effect<E>)
    requires o in s.g.node
  {
    var n := s.g.node[o];
    && (forall t | t in c.pv :: t in e.pv)
    && (forall t | t in n.outputs :: t in e.pv)
    && (forall t | t in e.pv :: t in c.pv || t in n.inputs || t in n.outputs)
    && (forall t | t in e.next :: t in n.outputs)
    && (forall t | t in n.outputs && ConsumersOf(s.g, t) != [] :: t in e.next)
  }

  ghost predicate Contract<E(!new)>(s: Source, h: Handler<E>)
    requires HasNodes(s.g)
  {
    forall c: Context<E>, o: Op {:trigger h(c, o)} ::
      o in s.g.ops && IsReady(s, c, o) ==> EffectOk(s, c, o, h(c, o))
  }

  // ---- the invariant of a run ----

  /** An operation that is enabled but not handled is still to be looked at: it is in the
      rest of the consumer list being served, or reads a tensor in the queue. */
  ghost predicate Pending(s: Source, q: seq<Tensor>, rest: seq<Op>, o: Op)
  {
    o in rest || exists t :: t in q && o in ConsumersOf(s.g, t)
  }

  ghost predicate LayoutsKnown<E>(s: Source, c: Context<E>)
    requires HasNodes(s.g) && Covers(s, c)
  {
    forall t: Tensor | Relevant(s, t) :: t in c.pv <==> Known(s, HandledOps(s, c), t)
  }

  /** The order lists exactly the handled operations. */
  ghost predicate IsHistory<E>(s: Source, c: Context<E>)
    requires Covers(s, c)
  {
    forall o :: o in c.order <==> o in HandledOps(s, c)
  }

  ghost predicate OrderIsHistory<E>(s: Source, c: Context<E>)
    requires Covers(s, c)
  {
    NoDuplicates(c.order) && IsHistory(s, c)
  }

  /** Each handled operation was enabled by those handled before it. */
  ghost predicate EnabledFirst(s: Source, order: seq<Op>)
    requires HasNodes(s.g)
  {
    forall i | 0 <= i < |order| :: Enabled(s, Before(order, i), order[i])
  }

  ghost function Before(order: seq<Op>, i: nat): set<Op>
    requires i <= |order|
  {
    set o | o in order[..i]
  }

  ghost predicate Invariant<E>(s: Source, c: Context<E>, q: seq<Tensor>, rest: seq<Op>) {
    && HasNodes(s.g) && Covers(s, c)
    && LayoutsKnown(s, c)
    && OrderIsHistory(s, c)
    && EnabledFirst(s, c.order)
    && (forall t | t in q :: Queued(s, HandledOps(s, c), t))
    && (forall o | o in rest :: ConsumesQueued(s, HandledOps(s, c), o))
    && (forall o :: Enabled(s, HandledOps(s, c), o) && o !in HandledOps(s, c) ==> Pending(s, q, rest, o))
  }

  lemma HandleWrites(s: Source, done: set<Op>, o: Op, t: Tensor)
    requires HasNodes(s.g) && o in s.g.ops
    ensures WrittenBy(s, done + {o}, t) <==> WrittenBy(s, done, t) || t in s.g.node[o].outputs
  {
  }

  lemma HandleKeepsLayouts<E>(s: Source, c: Context<E>, o: Op, e: Effect<E>, t: Tensor)
    requires HasNodes(s.g) && Covers(s, c) && LayoutsKnown(s, c) && o in s.g.ops && EffectOk(s, c, o, e) && Fires(s, c, o)
    requires Relevant(s, t)
    ensures t in e.pv <==> Known(s, HandledOps(s, c) + {o}, t)
  {
    HandleWrites(s, HandledOps(s, c), o, t);
    if t in s.g.node[o].inputs { assert t in c.pv; }
  }

  lemma HandleDone<E>(s: Source, h: Handler<E>, c: Context<E>, o: Op)
    requires Covers(s, c) && o in s.g.ops
    ensures Covers(s, Handle(h, c, o).0) && HandledOps(s, Handle(h, c, o).0) == HandledOps(s, c) + {o}
  {
  }

  lemma HandleKeepsQueue<E>(s: Source, c: Context<E>, q: seq<Tensor>, o: Op, next: seq<Tensor>)
    requires HasNodes(s.g) && Covers(s, c) && o in s.g.ops && forall t | t in next :: t in s.g.node[o].outputs
    requires forall t | t in q :: Queued(s, HandledOps(s, c), t)
    ensures forall t | t in q + next :: Queued(s, HandledOps(s, c) + {o}, t)
  {
    forall t | t in q + next ensures Queued(s, HandledOps(s, c) + {o}, t) { HandleWrites(s, HandledOps(s, c), o, t); }
  }

  /** Handling the head of the consumer list keeps the invariant. */
  lemma HandleKeeps<E(!new)>(s: Source, h: Handler<E>, c: Context<E>, q: seq<Tensor>, rest: seq<Op>)
    requires WellLinked(s) && Contract(s, h)
    requires rest != [] && rest[0] in s.g.ops && Invariant(s, c, q, rest) && Fires(s, c, rest[0])
    ensures var (c', next) := Handle(h, c, rest[0]); Invariant(s, c', q + next, rest[1..])
    ensures HandledOps(s, Handle(h, c, rest[0]).0) == HandledOps(s, c) + {rest[0]}
  {
    var o := rest[0];
    var marked := c.(visited := c.visited[o := true]);
    var (c', next) := Handle(h, c, o);
    var done := HandledOps(s, c);
    hide Pending; hide ConsumesQueued; hide Known; hide Enabled;
    assert IsReady(s, marked, o);
    assert EffectOk(s, marked, o, h(marked, o));
    HandleDone(s, h, c, o);
    forall t: Tensor | Relevant(s, t) ensures t in c'.pv <==> Known(s, done + {o}, t) {
      HandleKeepsLayouts(s, c, o, h(marked, o), t);
    }
    HandleKeepsQueue(s, c, q, o, next);
    HandleKeepsOrder(s, c, q, rest);
    forall x | x in rest[1..] ensures ConsumesQueued(s, done + {o}, x) { StillConsumes(s, done, done + {o}, x); }
    forall x | Enabled(s, done + {o}, x) && x !in done + {o} ensures Pending(s, q + next, rest[1..], x) {
      HandleKeepsPending(s, q, rest, done, next, x);
    }
  }

  lemma StillConsumes(s: Source, done: set<Op>, done': set<Op>, o: Op)
    requires HasNodes(s.g) && done <= done' && ConsumesQueued(s, done, o)
    ensures ConsumesQueued(s, done', o)
  {
    var t :| Queued(s, done, t) && o in ConsumersOf(s.g, t);
    assert Queued(s, done', t);
  }

  lemma FiresEnabled<E>(s: Source, c: Context<E>, q: seq<Tensor>, rest: seq<Op>)
    requires WellLinked(s) && rest != [] && rest[0] in s.g.ops && Invariant(s, c, q, rest) && Fires(s, c, rest[0])
    ensures Enabled(s, HandledOps(s, c), rest[0])
  {
  }

  lemma HandleKeepsOrder<E>(s: Source, c: Context<E>, q: seq<Tensor>, rest: seq<Op>)
    requires WellLinked(s)
    requires rest != [] && rest[0] in s.g.ops && Invariant(s, c, q, rest) && Fires(s, c, rest[0])
    ensures EnabledFirst(s, c.order + [rest[0]])
  {
    var order' := c.order + [rest[0]];
    FiresEnabled(s, c, q, rest);
    forall i | 0 <= i < |order'| ensures Enabled(s, Before(order', i), order'[i]) {
      assert order'[..i] == c.order[..i];
      if i == |c.order| {
        assert Before(order', i) == HandledOps(s, c);
      } else {
        assert Before(order', i) == Before(c.order, i);
      }
    }
  }

  lemma HandleKeepsPending(s: Source, q: seq<Tensor>, rest: seq<Op>, done: set<Op>, next: seq<Tensor>, x: Op)
    requires WellLinked(s) && rest != [] && rest[0] in s.g.ops
    requires Enabled(s, done, x) && x !in done ==> Pending(s, q, rest, x)
    requires forall t | t in s.g.node[rest[0]].outputs && ConsumersOf(s.g, t) != [] :: t in next
    requires Enabled(s, done + {rest[0]}, x) && x !in done + {rest[0]}
    ensures Pending(s, q + next, rest[1..], x)
  {
    var done' := done + {rest[0]};
    forall t ensures WrittenBy(s, done', t) <==> WrittenBy(s, done, t) || t in s.g.node[rest[0]].outputs {
      HandleWrites(s, done, rest[0], t);
    }
    if Enabled(s, done, x) {
      assert Pending(s, q, rest, x);
      if x !in rest {
        var t :| t in q && x in ConsumersOf(s.g, t);
        assert t in q + next;
      } else {
        assert rest == [rest[0]] + rest[1..];
      }
    } else if !ConsumesQueued(s, done, x) {
      // x became enabled through a newly queued tensor
      var t :| Queued(s, done', t) && x in ConsumersOf(s.g, t);
      assert t in s.g.node[rest[0]].outputs;
      assert t in q + next;
    } else {
      // x only waited for outputs of the operation just handled
      var t :| t in s.g.node[x].inputs && t !in s.constants && t !in s.placeholders && !Known(s, done, t);
      assert Known(s, done', t);
      assert t in s.g.node[rest[0]].outputs && x in ConsumersOf(s.g, t);
      assert t in q + next;
    }
  }

  lemma {:induction false} ServeKeeps<E(!new)>(s: Source, h: Handler<E>, ops: seq<Op>, c: Context<E>, q: seq<Tensor>)
    requires WellLinked(s) && Contract(s, h) && Covers(s, c) && forall o | o in ops :: o in s.g.ops
    requires Invariant(s, c, q, ops)
    ensures var (c', q') := Serve(s, h, ops, c, q);
            Invariant(s, c', q', []) && HandledOps(s, c) <= HandledOps(s, c')
    decreases |ops|
  {
    if ops == [] {
    } else if Fires(s, c, ops[0]) {
      HandleKeeps(s, h, c, q, ops);
      var (c', next) := Handle(h, c, ops[0]);
      ServeKeeps(s, h, ops[1..], c', q + next);
    } else {
      ServeKeeps(s, h, ops[1..], c, q);
    }
  }

  lemma {:induction false} DrainKeeps<E(!new)>(s: Source, h: Handler<E>, c: Context<E>, q: seq<Tensor>)
    requires WellLinked(s) && Contract(s, h) && Covers(s, c) && Invariant(s, c, q, [])
    ensures Invariant(s, Drain(s, h, c, q), [], [])
    decreases |Unvisited(c)|, |q|
  {
    if q != [] {
      DequeueKeeps(s, c, q);
      ServeKeeps(s, h, ConsumersOf(s.g, q[0]), c, q[1..]);
      var (c', q') := Serve(s, h, ConsumersOf(s.g, q[0]), c, q[1..]);
      DrainKeeps(s, h, c', q');
    }
  }

  /** Taking a tensor from the queue puts its consumers up to be looked at. */
  lemma DequeueKeeps<E>(s: Source, c: Context<E>, q: seq<Tensor>)
    requires WellLinked(s) && q != [] && Invariant(s, c, q, [])
    ensures Invariant(s, c, q[1..], ConsumersOf(s.g, q[0]))
  {
    assert q == [q[0]] + q[1..];
    assert Queued(s, HandledOps(s, c), q[0]);
    forall o | Enabled(s, HandledOps(s, c), o) && o !in HandledOps(s, c) ensures Pending(s, q[1..], ConsumersOf(s.g, q[0]), o) {
      assert Pending(s, q, [], o);
    }
  }

  // ---- leastness ----

  /** Closed under the firing rule, as far as operations other than p are concerned. */
  ghost predicate ClosedBut(s: Source, p: Op, bound: set<Op>)
    requires HasNodes(s.g)
  {
    forall o :: Enabled(s, bound, o) && o != p ==> o in bound
  }

  lemma EnabledMore(s: Source, done: set<Op>, bound: set<Op>, o: Op)
    requires HasNodes(s.g) && done <= bound && Enabled(s, done, o)
    ensures Enabled(s, bound, o)
  {
    StillConsumes(s, done, bound, o);
    assert forall t :: Known(s, done, t) ==> Known(s, bound, t);
  }

  /** As long as p has not been handled, only operations of the bound have been. */
  lemma {:induction false} OrderWithin(s: Source, order: seq<Op>, p: Op, bound: set<Op>, i: nat)
    requires HasNodes(s.g) && EnabledFirst(s, order) && ClosedBut(s, p, bound) && i <= |order| && p !in order[..i]
    ensures Before(order, i) <= bound
    decreases i
  {
    if i > 0 {
      assert order[..i] == order[..i - 1] + [order[i - 1]];
      OrderWithin(s, order, p, bound, i - 1);
      EnabledMore(s, Before(order, i - 1), bound, order[i - 1]);
    }
  }

  // ---- the theorems about a whole run ----

  /** The state the set-up loops leave: nothing visited, a permute vector for exactly the
      seeds and the graph outputs. */
  ghost predicate Start<E>(s: Source, c: Context<E>, q: seq<Tensor>)
    requires HasNodes(s.g)
  {
    && (forall o :: o in c.visited <==> o in s.g.ops)
    && (forall o | o in c.visited :: !c.visited[o])
    && c.order == []
    && (forall t :: t in q <==> Seed(s, t))
    && (forall t :: t in c.pv <==> Seed(s, t) || t in s.outputs)
  }

  lemma StartInvariant<E>(s: Source, c: Context<E>, q: seq<Tensor>)
    requires WellLinked(s) && Start(s, c, q)
    ensures Invariant(s, c, q, []) && HandledOps(s, c) == {}
  {
    assert HandledOps(s, c) == {};
  }

  lemma HistoryWithin<E>(s: Source, c: Context<E>, bound: set<Op>)
    requires HasNodes(s.g) && Covers(s, c) && OrderIsHistory(s, c) && EnabledFirst(s, c.order) && Closed(s, bound)
    ensures HandledOps(s, c) <= bound
  {
    assert c.order[..|c.order|] == c.order;
    OrderWithin(s, c.order, Outside(c.order), bound, |c.order|);
  }

  /** An operation that is not in the list. */
  function Outside(order: seq<Op>): (o: Op)
    ensures forall x | x in order :: x < o
  {
    if order == [] then 0
    else
      var o := Outside(order[1..]);
      assert order == [order[0]] + order[1..];
      if order[0] < o then o else order[0] + 1
  }

  /** The handled operations are the least set closed under "has a node, reads a queued
      tensor, and every relevant input has a permute vector". */
  lemma HandledIsLeastFixpoint<E(!new)>(s: Source, h: Handler<E>, c: Context<E>, q: seq<Tensor>)
    requires WellLinked(s) && Contract(s, h) && Start(s, c, q)
    ensures Closed(s, HandledOps(s, Drain(s, h, c, q)))
    ensures forall bound: set<Op> | Closed(s, bound) :: HandledOps(s, Drain(s, h, c, q)) <= bound
  {
    StartInvariant(s, c, q);
    DrainKeeps(s, h, c, q);
    var done := HandledOps(s, Drain(s, h, c, q));
    forall o | Enabled(s, done, o) ensures o in done {
      assert o in done || Pending(s, [], [], o);
    }
    forall bound: set<Op> | Closed(s, bound) ensures done <= bound {
      HistoryWithin(s, Drain(s, h, c, q), bound);
    }
  }

  /** Two sources that differ only in the order of their lists. */
  ghost predicate SameUpToOrder(s: Source, z: Source)
    requires WellLinked(s) && WellLinked(z)
  {
    && s.g.node == z.g.node
    && (forall o :: o in s.g.ops <==> o in z.g.ops)
    && (forall t :: t in s.inputs <==> t in z.inputs)
    && (forall t :: t in s.outputs <==> t in z.outputs)
    && s.constants == z.constants && s.placeholders == z.placeholders
  }

  lemma {:induction false} SeedsSame(s: Source, z: Source, t: Tensor)
    requires WellLinked(s) && WellLinked(z) && SameUpToOrder(s, z)
    ensures Seed(s, t) <==> Seed(z, t)
  {
    assert forall o | o in s.g.ops :: ConstantsOf(s, o) == ConstantsOf(z, o);
  }

  lemma SameEnabled(s: Source, z: Source, done: set<Op>, o: Op)
    requires WellLinked(s) && WellLinked(z) && SameUpToOrder(s, z)
    ensures Enabled(s, done, o) ==> Enabled(z, done, o)
  {
    if Enabled(s, done, o) {
      forall t | Seed(s, t) ensures Seed(z, t) { SeedsSame(s, z, t); }
      assert forall t :: WrittenBy(s, done, t) ==> WrittenBy(z, done, t);
      var t :| Queued(s, done, t) && o in ConsumersOf(s.g, t);
      assert Queued(z, done, t) && o in ConsumersOf(z.g, t);
    }
  }

  /** Which operations are handled does not depend on the order of the queue, of the
      consumer lists, of the operations, or on the handlers. */
  lemma HandledIndependentOfOrder<E(!new)>(s: Source, h: Handler<E>, c: Context<E>, q: seq<Tensor>,
                                           z: Source, k: Handler<E>, d: Context<E>, r: seq<Tensor>)
    requires WellLinked(s) && Contract(s, h) && Start(s, c, q)
    requires WellLinked(z) && Contract(z, k) && Start(z, d, r)
    requires SameUpToOrder(s, z)
    ensures HandledOps(s, Drain(s, h, c, q)) == HandledOps(z, Drain(z, k, d, r))
  {
    var a, b := HandledOps(s, Drain(s, h, c, q)), HandledOps(z, Drain(z, k, d, r));
    HandledIsLeastFixpoint(s, h, c, q);
    HandledIsLeastFixpoint(z, k, d, r);
    forall o | Enabled(s, b, o) ensures o in b { SameEnabled(s, z, b, o); }
    forall o | Enabled(z, a, o) ensures o in a { SameEnabled(z, s, a, o); }
    assert Closed(s, b) && Closed(z, a);
  }

  /** Each operation is handled at most once, however often it is listed or queued, and
      everything handled is recorded. */
  lemma HandledOnce<E(!new)>(s: Source, h: Handler<E>, c: Context<E>, q: seq<Tensor>)
    requires WellLinked(s) && Contract(s, h) && Start(s, c, q)
    ensures NoDuplicates(Drain(s, h, c, q).order)
    ensures forall o :: o in Drain(s, h, c, q).order <==> o in HandledOps(s, Drain(s, h, c, q))
  {
    StartInvariant(s, c, q);
    DrainKeeps(s, h, c, q);
  }

  // ---- completeness and order ----

  /** The operation can be handled once everything upstream of it is: it has a node, reads
      something that is enqueued, and every relevant input is enqueued or a graph output. */
  ghost predicate Live(s: Source, rank: Op -> nat, o: Op)
    requires HasNodes(s.g) && o in s.g.ops
    decreases rank(o), 1
  {
    && s.g.node[o].kind != -1
    && (exists t :: t in s.g.node[o].inputs && LiveInput(s, rank, o, t))
    && (forall t | t in s.g.node[o].inputs && t !in s.constants && t !in s.placeholders :: t in s.outputs || LiveInput(s, rank, o, t))
  }

  /** The input is a seed or written by a live operation. */
  ghost predicate LiveInput(s: Source, rank: Op -> nat, o: Op, t: Tensor)
    requires HasNodes(s.g)
    decreases rank(o), 0
  {
    Seed(s, t) || exists p :: p in s.g.ops && t in s.g.node[p].outputs && rank(p) < rank(o) && Live(s, rank, p)
  }

  lemma {:induction false} LiveIsHandled<E>(s: Source, rank: Op -> nat, c: Context<E>, o: Op)
    requires WellLinked(s) && Covers(s, c) && o in s.g.ops
    requires Closed(s, HandledOps(s, c)) && Live(s, rank, o)
    ensures o in HandledOps(s, c)
    decreases rank(o)
  {
    var done := HandledOps(s, c);
    forall t | t in s.g.node[o].inputs && LiveInput(s, rank, o, t) ensures Queued(s, done, t) {
      if !Seed(s, t) {
        var p :| p in s.g.ops && t in s.g.node[p].outputs && rank(p) < rank(o) && Live(s, rank, p);
        LiveIsHandled(s, rank, c, p);
      }
    }
    var t :| t in s.g.node[o].inputs && LiveInput(s, rank, o, t);
    assert Queued(s, done, t) && o in ConsumersOf(s.g, t);
    assert Enabled(s, done, o);
  }

  lemma LiveIsClosed(s: Source, rank: Op -> nat, live: set<Op>)
    requires WellLinked(s) && Ordered(s.g, rank)
    requires forall o :: o in live <==> o in s.g.ops && Live(s, rank, o)
    ensures Closed(s, live)
  {
    forall o | Enabled(s, live, o) ensures o in live {
      forall t | t in s.g.node[o].inputs && Queued(s, live, t) ensures LiveInput(s, rank, o, t) {
        if !Seed(s, t) {
          var p :| p in live && p in s.g.ops && t in s.g.node[p].outputs;
          assert rank(p) < rank(o);
        }
      }
      var t :| Queued(s, live, t) && o in ConsumersOf(s.g, t);
      assert t in s.g.node[o].inputs && LiveInput(s, rank, o, t);
    }
  }

  /** On an acyclic graph an operation is handled exactly when it is live. */
  lemma HandledExactlyLive<E(!new)>(s: Source, h: Handler<E>, c: Context<E>, q: seq<Tensor>, rank: Op -> nat)
    requires WellLinked(s) && Contract(s, h) && Start(s, c, q) && Ordered(s.g, rank)
    ensures forall o | o in s.g.ops :: o in HandledOps(s, Drain(s, h, c, q)) <==> Live(s, rank, o)
  {
    HandledIsLeastFixpoint(s, h, c, q);
    var live := set o | o in s.g.ops && Live(s, rank, o);
    LiveIsClosed(s, rank, live);
    forall o | o in s.g.ops && Live(s, rank, o) ensures o in HandledOps(s, Drain(s, h, c, q)) {
      LiveIsHandled(s, rank, Drain(s, h, c, q), o);
    }
  }

  /** Something can wake the operation: a relevant input, or constants that are seeds. */
  predicate Fed(s: Source, o: Op)
    requires o in s.g.node
  {
    (exists t :: t in s.g.node[o].inputs && Relevant(s, t)) || (s.g.node[o].inputs != [] && AllConstant(s, o))
  }

  /** Nothing is missed: on an acyclic graph where every tensor comes from somewhere and
      every operation has a node and can be woken, every operation is handled.  Graph
      outputs may be read here. */
  lemma EverythingHandled<E(!new)>(s: Source, h: Handler<E>, c: Context<E>, q: seq<Tensor>, rank: Op -> nat)
    requires WellLinked(s) && Contract(s, h) && Start(s, c, q) && Ordered(s.g, rank)
    requires forall o | o in s.g.ops :: s.g.node[o].kind != -1 && Fed(s, o)
    requires forall o, t | o in s.g.ops && t in s.g.node[o].inputs && Relevant(s, t) ::
               t in s.inputs || exists p :: p in s.g.ops && t in s.g.node[p].outputs
    ensures forall o | o in s.g.ops :: o in HandledOps(s, Drain(s, h, c, q))
  {
    HandledIsLeastFixpoint(s, h, c, q);
    forall o | o in s.g.ops ensures o in HandledOps(s, Drain(s, h, c, q)) {
      AllLive(s, rank, o);
      LiveIsHandled(s, rank, Drain(s, h, c, q), o);
    }
  }

  lemma {:induction false} AllLive(s: Source, rank: Op -> nat, o: Op)
    requires WellLinked(s) && Ordered(s.g, rank) && o in s.g.ops
    requires forall o | o in s.g.ops :: s.g.node[o].kind != -1 && Fed(s, o)
    requires forall o, t | o in s.g.ops && t in s.g.node[o].inputs && Relevant(s, t) ::
               t in s.inputs || exists p :: p in s.g.ops && t in s.g.node[p].outputs
    ensures Live(s, rank, o)
    decreases rank(o)
  {
    forall t | t in s.g.node[o].inputs && Relevant(s, t) ensures LiveInput(s, rank, o, t) {
      if t !in s.inputs {
        var p :| p in s.g.ops && t in s.g.node[p].outputs;
        assert rank(p) < rank(o);
        AllLive(s, rank, p);
      }
    }
    if AllConstant(s, o) && s.g.node[o].inputs != [] {
      var t := s.g.node[o].inputs[0];
      assert t in ConstantsOf(s, o) && t in s.g.node[o].inputs && Seed(s, t);
    }
  }

  /** p comes before r in the order, if r comes at all. */
  ghost predicate Precedes(order: seq<Op>, p: Op, r: Op) {
    forall i | 0 <= i < |order| && order[i] == r :: p in order[..i]
  }

  /** p is handled before everything that cannot be reached without it: whatever set of
      operations is closed under the firing rule for all but p, p precedes what is outside. */
  lemma PrecedesOutside<E(!new)>(s: Source, h: Handler<E>, c: Context<E>, q: seq<Tensor>, p: Op, bound: set<Op>, r: Op)
    requires WellLinked(s) && Contract(s, h) && Start(s, c, q)
    requires ClosedBut(s, p, bound) && r !in bound && r != p
    ensures Precedes(Drain(s, h, c, q).order, p, r)
  {
    StartInvariant(s, c, q);
    DrainKeeps(s, h, c, q);
    var order := Drain(s, h, c, q).order;
    forall i | 0 <= i < |order| && order[i] == r ensures p in order[..i] {
      if p !in order[..i] {
        OrderWithin(s, order, p, bound, i);
        EnabledMore(s, Before(order, i), bound, r);
      }
    }
  }

  /** A tensor that is no graph output and has one writer is written before it is read. */
  lemma ProducersFirst<E(!new)>(s: Source, h: Handler<E>, c: Context<E>, q: seq<Tensor>, t: Tensor, p: Op, r: Op)
    requires WellLinked(s) && Contract(s, h) && Start(s, c, q) && SingleWriter(s.g)
    requires p in s.g.ops && t in s.g.node[p].outputs && t !in s.outputs && !Seed(s, t)
    requires r in s.g.ops && t in s.g.node[r].inputs && Relevant(s, t)
    ensures Precedes(Drain(s, h, c, q).order, p, r)
  {
    StartInvariant(s, c, q);
    DrainKeeps(s, h, c, q);
    var order := Drain(s, h, c, q).order;
    forall i | 0 <= i < |order| && order[i] == r ensures p in order[..i] {
      assert Enabled(s, Before(order, i), r) && Known(s, Before(order, i), t);
      var w :| w in Before(order, i) && w in s.g.ops && t in s.g.node[w].outputs;
      assert w == p;
    }
  }

  // ---- graph outputs that are read ----

  /** When o is handled, the graph outputs it reads are written and those it writes that somebody
      reads are not. */
  ghost predicate OutputsInOrder(s: Source, done: set<Op>, o: Op)
    requires HasNodes(s.g) && o in s.g.node
  {
    forall t | t in s.outputs && ConsumersOf(s.g, t) != [] ::
      (t in s.g.node[o].inputs ==> WrittenBy(s, done, t)) && (t in s.g.node[o].outputs ==> !WrittenBy(s, done, t))
  }

  /** In this order every graph output that is read is written once, before it is read. */
  ghost predicate WritesFirst(s: Source, order: seq<Op>)
    requires HasNodes(s.g)
  {
    forall i | 0 <= i < |order| :: order[i] in s.g.node && OutputsInOrder(s, Before(order, i), order[i])
  }

  ghost predicate PrecedesReaders(s: Source, order: seq<Op>, p: Op, t: Tensor)
    requires HasNodes(s.g)
  {
    forall r | r in s.g.ops && t in s.g.node[r].inputs :: Precedes(order, p, r)
  }

  lemma PrecedesWritesFirst(s: Source, order: seq<Op>)
    requires WellLinked(s) && SingleWriter(s.g) && NoDuplicates(order) && forall o | o in order :: o in s.g.ops
    requires forall t | t in s.outputs && ConsumersOf(s.g, t) != [] ::
               exists p :: p in s.g.ops && t in s.g.node[p].outputs && PrecedesReaders(s, order, p, t)
    ensures WritesFirst(s, order)
  {
    forall i | 0 <= i < |order| ensures order[i] in s.g.node && OutputsInOrder(s, Before(order, i), order[i]) {
      assert order[i] in order;
      forall t | t in s.outputs && ConsumersOf(s.g, t) != []
        ensures t in s.g.node[order[i]].inputs ==> WrittenBy(s, Before(order, i), t)
        ensures t in s.g.node[order[i]].outputs ==> !WrittenBy(s, Before(order, i), t)
      {
        var p :| p in s.g.ops && t in s.g.node[p].outputs && PrecedesReaders(s, order, p, t);
      }
    }
  }

  ghost predicate ReadersOutside(s: Source, p: Op, bound: set<Op>, t: Tensor)
    requires HasNodes(s.g)
  {
    ClosedBut(s, p, bound) && forall r | r in s.g.ops && t in s.g.node[r].inputs :: r !in bound && r != p
  }

  /** The readers of t cannot be reached without its writer: they are outside some set that is
      closed under the firing rule for all operations but the writer. */
  ghost predicate ReachedThroughWriter(s: Source, t: Tensor)
    requires HasNodes(s.g)
  {
    exists p, bound :: p in s.g.ops && t in s.g.node[p].outputs && ReadersOutside(s, p, bound, t)
  }

  /** Then every run writes the graph outputs that are read before they are read. */
  lemma ReachedWritesFirst<E(!new)>(s: Source, h: Handler<E>, c: Context<E>, q: seq<Tensor>)
    requires WellLinked(s) && Contract(s, h) && Start(s, c, q) && SingleWriter(s.g)
    requires forall t | t in s.outputs && ConsumersOf(s.g, t) != [] :: ReachedThroughWriter(s, t)
    ensures WritesFirst(s, Drain(s, h, c, q).order)
  {
    var order := Drain(s, h, c, q).order;
    StartInvariant(s, c, q);
    DrainKeeps(s, h, c, q);
    forall t | t in s.outputs && ConsumersOf(s.g, t) != []
      ensures exists p :: p in s.g.ops && t in s.g.node[p].outputs && PrecedesReaders(s, order, p, t)
    {
      var p, bound :| p in s.g.ops && t in s.g.node[p].outputs && ReadersOutside(s, p, bound, t);
      forall r | r in s.g.ops && t in s.g.node[r].inputs ensures Precedes(order, p, r) {
        PrecedesOutside(s, h, c, q, p, bound, r);
      }
      assert PrecedesReaders(s, order, p, t);
    }
    PrecedesWritesFirst(s, order);
  }

  // ---- a consumed graph output breaks the order ----

  lemma {:induction false} OrderGrows<E>(s: Source, h: Handler<E>, ops: seq<Op>, c: Context<E>, q: seq<Tensor>)
    requires HasNodes(s.g) && Covers(s, c) && forall o | o in ops :: o in s.g.ops
    ensures c.order <= Serve(s, h, ops, c, q).0.order
    decreases |ops|
  {
    if ops != [] {
      if Fires(s, c, ops[0]) {
        var (c', next) := Handle(h, c, ops[0]);
        OrderGrows(s, h, ops[1..], c', q + next);
      } else {
        OrderGrows(s, h, ops[1..], c, q);
      }
    }
  }

  lemma {:induction false} DrainOrderGrows<E>(s: Source, h: Handler<E>, c: Context<E>, q: seq<Tensor>)
    requires WellLinked(s) && Covers(s, c)
    ensures c.order <= Drain(s, h, c, q).order
    decreases |Unvisited(c)|, |q|
  {
    if q != [] {
      OrderGrows(s, h, ConsumersOf(s.g, q[0]), c, q[1..]);
      var (c', q') := Serve(s, h, ConsumersOf(s.g, q[0]), c, q[1..]);
      DrainOrderGrows(s, h, c', q');
    }
  }

  /** A ready reader at the head of the first consumer list is handled first. */
  lemma FirstReaderWins<E>(s: Source, h: Handler<E>, c: Context<E>, q: seq<Tensor>)
    requires WellLinked(s) && Covers(s, c) && c.order == [] && q != []
    requires ConsumersOf(s.g, q[0]) != [] && Fires(s, c, ConsumersOf(s.g, q[0])[0])
    ensures [ConsumersOf(s.g, q[0])[0]] <= Drain(s, h, c, q).order
  {
    var ops := ConsumersOf(s.g, q[0]);
    var (c', next) := Handle(h, c, ops[0]);
    OrderGrows(s, h, ops[1..], c', q[1..] + next);
    var (d, r) := Serve(s, h, ops, c, q[1..]);
    DrainOrderGrows(s, h, d, r);
    assert c'.order == [ops[0]];
    assert c'.order <= d.order <= Drain(s, h, c, q).order;
  }

  /** The entry at i moved to the front. */
  function ToFront(xs: seq<nat>, i: nat): (ys: seq<nat>)
    requires i < |xs|
    ensures ys != [] && ys[0] == xs[i] && multiset(ys) == multiset(xs) && forall x :: x in ys <==> x in xs
  {
    assert xs == xs[..i] + [xs[i]] + xs[i + 1..];
    var ys := [xs[i]] + xs[..i] + xs[i + 1..];
    assert multiset(ys) == multiset(xs);
    assert forall x :: x in ys <==> x in multiset(ys);
    ys
  }

  /** The source with one reader of u bound first. */
  function Fronted(s: Source, u: Tensor, i: nat): Source
    requires i < |ConsumersOf(s.g, u)|
  {
    s.(g := s.g.(consumers := s.g.consumers[u := ToFront(ConsumersOf(s.g, u), i)]))
  }

  lemma FrontedSame(s: Source, u: Tensor, i: nat)
    requires WellLinked(s) && i < |ConsumersOf(s.g, u)|
    ensures WellLinked(Fronted(s, u, i)) && SameUpToOrder(s, Fronted(s, u, i))
  {
    var z := Fronted(s, u, i);
    assert forall t: Tensor, o: Op :: o in ConsumersOf(z.g, t) <==> o in ConsumersOf(s.g, t);
  }

  /** The graph inputs first, then the constants: the queue the pass starts with. */
  function QueueOf(s: Source): seq<Tensor>
    requires HasNodes(s.g)
  {
    s.inputs + ConstantInputs(s, s.g.ops)
  }

  lemma ConstantsListed(s: Source, o: Op)
    requires o in s.g.node
    ensures ConstantsOf(s, o) == var n := s.g.node[o];
                                 if exists t :: t in n.inputs && t !in s.constants then []
                                 else if n.kind == 2 && n.inputs != [] then [n.inputs[0]] else n.inputs
  {
    assert AllConstant(s, o) <==> !exists t :: t in s.g.node[o].inputs && t !in s.constants;
  }

  /** Where the constants of operation i stand in the queue: behind the graph inputs and what the
      operations before it enqueue. */
  lemma QueueListed(s: Source, i: nat)
    requires HasNodes(s.g) && i < |s.g.ops|
    ensures forall o | o in s.g.ops[..i] || o in s.g.ops[i + 1..] :: o in s.g.node
    ensures var n := s.g.node[s.g.ops[i]];
            QueueOf(s) == s.inputs + ConstantInputs(s, s.g.ops[..i])
                          + (if exists t :: t in n.inputs && t !in s.constants then []
                             else if n.kind == 2 && n.inputs != [] then [n.inputs[0]] else n.inputs)
                          + ConstantInputs(s, s.g.ops[i + 1..])
  {
    var xs, o, ys := s.g.ops[..i], s.g.ops[i], s.g.ops[i + 1..];
    assert s.g.ops == xs + ([o] + ys);
    assert forall x | x in xs + ([o] + ys) :: x in s.g.node;
    assert ([o] + ys)[0] == o && ([o] + ys)[1..] == ys;
    ConstantInputsApart(s, xs, [o] + ys);
    assert ConstantInputs(s, [o] + ys) == ConstantsOf(s, o) + ConstantInputs(s, ys);
    ConstantsListed(s, o);
    hide *;
    Regroup(s.inputs, ConstantInputs(s, xs), ConstantsOf(s, o) + ConstantInputs(s, ys));
    Regroup(s.inputs + ConstantInputs(s, xs), ConstantsOf(s, o), ConstantInputs(s, ys));
  }

  /** The operation can be handled as soon as a graph input it reads is dequeued: every relevant
      input is a seed or a graph output. */
  ghost predicate ReadyAtStart(s: Source, o: Op)
    requires HasNodes(s.g) && o in s.g.ops
  {
    && s.g.node[o].kind != -1
    && (exists u :: u in s.g.node[o].inputs && u in s.inputs)
    && forall t | t in s.g.node[o].inputs && Relevant(s, t) :: Seed(s, t) || t in s.outputs
  }

  /** The source with the j-th graph input, and among its readers the i-th, put first. */
  function Favouring(s: Source, i: nat, j: nat): Source
    requires j < |s.inputs| && i < |ConsumersOf(s.g, s.inputs[j])|
  {
    Fronted(s, s.inputs[j], i).(inputs := ToFront(s.inputs, j))
  }

  lemma InputsReordered(s: Source, z: Source, inputs: seq<Tensor>)
    requires WellLinked(s) && WellLinked(z) && SameUpToOrder(s, z) && forall t :: t in inputs <==> t in s.inputs
    ensures WellLinked(z.(inputs := inputs)) && SameUpToOrder(s, z.(inputs := inputs))
  {
  }

  lemma FavouringSame(s: Source, i: nat, j: nat)
    requires WellLinked(s) && j < |s.inputs| && i < |ConsumersOf(s.g, s.inputs[j])|
    ensures WellLinked(Favouring(s, i, j)) && SameUpToOrder(s, Favouring(s, i, j))
  {
    FrontedSame(s, s.inputs[j], i);
    InputsReordered(s, Fronted(s, s.inputs[j], i), ToFront(s.inputs, j));
  }

  lemma FavouredFirst(s: Source, i: nat, j: nat)
    requires j < |s.inputs| && i < |ConsumersOf(s.g, s.inputs[j])|
    ensures var z := Favouring(s, i, j);
            z.inputs != [] && ConsumersOf(z.g, z.inputs[0]) != [] && ConsumersOf(z.g, z.inputs[0])[0] == ConsumersOf(s.g, s.inputs[j])[i]
            && z.outputs == s.outputs
  {
  }

  /** Such an operation is the first to be handled if the graph input and, among its readers, the
      operation come first, whatever the handlers do. */
  lemma ReadyGoesFirst<E>(s: Source, h: Handler<E>, c: Context<E>, q: seq<Tensor>, r: Op) returns (z: Source)
    requires WellLinked(s) && Start(s, c, q) && r in s.g.ops && ReadyAtStart(s, r)
    ensures WellLinked(z) && SameUpToOrder(s, z) && Start(z, c, QueueOf(z)) && [r] <= Drain(z, h, c, QueueOf(z)).order
  {
    var u :| u in s.g.node[r].inputs && u in s.inputs;
    var i :| 0 <= i < |ConsumersOf(s.g, u)| && ConsumersOf(s.g, u)[i] == r;
    var j :| 0 <= j < |s.inputs| && s.inputs[j] == u;
    z := Favouring(s, i, j);
    FavouringSame(s, i, j);
    FavouredFirst(s, i, j);
    FavouredStart(s, z, c, q, r);
    FirstReaderWins(z, h, c, QueueOf(z));
  }

  lemma FavouredStart<E>(s: Source, z: Source, c: Context<E>, q: seq<Tensor>, r: Op)
    requires WellLinked(s) && WellLinked(z) && SameUpToOrder(s, z) && Start(s, c, q) && r in s.g.ops && ReadyAtStart(s, r)
    ensures Start(z, c, QueueOf(z)) && Fires(z, c, r)
  {
    forall t ensures Seed(s, t) <==> Seed(z, t) { SeedsSame(s, z, t); }
  }

  lemma ContractSame<E(!new)>(s: Source, z: Source, h: Handler<E>)
    requires WellLinked(s) && WellLinked(z) && SameUpToOrder(s, z) && Contract(s, h)
    ensures Contract(z, h)
  {
    forall c: Context<E>, o: Op | o in z.g.ops && IsReady(z, c, o) ensures EffectOk(z, c, o, h(c, o)) {
      assert IsReady(s, c, o) && EffectOk(s, c, o, h(c, o));
      forall t | ConsumersOf(z.g, t) != [] ensures ConsumersOf(s.g, t) != [] {
        var x := ConsumersOf(z.g, t)[0];
        assert x in ConsumersOf(z.g, t);
        assert x in s.g.ops && t in s.g.node[x].inputs;
      }
    }
  }

  /** In every order of the graph inputs, the operations and the lists of readers, p is handled
      before r. */
  ghost predicate AlwaysPrecedes<E(!new)>(s: Source, h: Handler<E>, c: Context<E>, p: Op, r: Op)
    requires WellLinked(s)
  {
    forall z: Source | WellLinked(z) && SameUpToOrder(s, z) && Start(z, c, QueueOf(z)) ::
      Precedes(Drain(z, h, c, QueueOf(z)).order, p, r)
  }

  /** A reader of a graph input that waits for nothing but the tensor t is handled after the
      writer of t in every order exactly if t is no graph output. */
  lemma ReaderWaitsExactlyWhen<E(!new)>(s: Source, h: Handler<E>, c: Context<E>, q: seq<Tensor>, t: Tensor, p: Op, r: Op)
    requires WellLinked(s) && Contract(s, h) && Start(s, c, q) && SingleWriter(s.g)
    requires p in s.g.ops && t in s.g.node[p].outputs && !Seed(s, t)
    requires r in s.g.ops && t in s.g.node[r].inputs && Relevant(s, t) && s.g.node[r].kind != -1
    requires exists u :: u in s.g.node[r].inputs && u in s.inputs
    requires forall u | u in s.g.node[r].inputs && Relevant(s, u) && u != t :: Seed(s, u) || u in s.outputs
    ensures AlwaysPrecedes(s, h, c, p, r) <==> t !in s.outputs
  {
    if t in s.outputs {
      var z := ReadyGoesFirst(s, h, c, q, r);
      assert Drain(z, h, c, QueueOf(z)).order[0] == r;
    } else {
      forall z: Source | WellLinked(z) && SameUpToOrder(s, z) && Start(z, c, QueueOf(z))
        ensures Precedes(Drain(z, h, c, QueueOf(z)).order, p, r)
      {
        ContractSame(s, z, h);
        SeedsSame(s, z, t);
        ProducersFirst(z, h, c, QueueOf(z), t, p, r);
      }
    }
  }

  // ---- readers that only constants can wake ----

  /** What p needs has a vector, and p was handled unless its turn is still to come. */
  ghost predicate Awaited<E>(s: Source, c: Context<E>, ins: seq<Tensor>, p: Op, r: Op)
    requires HasNodes(s.g) && Covers(s, c)
  {
    && p in s.g.ops && s.g.node[p].kind != -1 && IsReady(s, c, p) && IsHistory(s, c) && r !in c.order
    && (p in c.order || exists u :: u in ins && p in ConsumersOf(s.g, u))
  }

  lemma {:induction false} ServeAwaited<E(!new)>(s: Source, h: Handler<E>, ops: seq<Op>, c: Context<E>, q: seq<Tensor>, p: Op, r: Op)
    requires WellLinked(s) && Contract(s, h) && Covers(s, c) && r !in ops && forall o | o in ops :: o in s.g.ops
    requires p in s.g.ops && s.g.node[p].kind != -1 && IsReady(s, c, p) && IsHistory(s, c) && r !in c.order
    ensures var c' := Serve(s, h, ops, c, q).0; IsReady(s, c', p) && IsHistory(s, c') && r !in c'.order
    ensures p in c.order || p in ops ==> p in Serve(s, h, ops, c, q).0.order
    ensures q <= Serve(s, h, ops, c, q).1
    decreases |ops|
  {
    if ops != [] {
      if Fires(s, c, ops[0]) {
        var marked := c.(visited := c.visited[ops[0] := true]);
        var (c', next) := Handle(h, c, ops[0]);
        assert IsReady(s, marked, ops[0]) && EffectOk(s, marked, ops[0], h(marked, ops[0]));
        HandleDone(s, h, c, ops[0]);
        ServeAwaited(s, h, ops[1..], c', q + next, p, r);
      } else {
        ServeAwaited(s, h, ops[1..], c, q, p, r);
      }
    }
  }

  lemma {:induction false} InputsAwaited<E(!new)>(s: Source, h: Handler<E>, c: Context<E>, ins: seq<Tensor>, q: seq<Tensor>, p: Op, r: Op)
    requires WellLinked(s) && Contract(s, h) && Covers(s, c) && Awaited(s, c, ins, p, r)
    requires forall u | u in ins :: r !in ConsumersOf(s.g, u)
    ensures exists i :: 0 <= i <= |Drain(s, h, c, ins + q).order| && PrefixHas(Drain(s, h, c, ins + q).order, i, p, r)
    decreases |ins|
  {
    if ins == [] {
      DrainOrderGrows(s, h, c, ins + q);
      assert PrefixHas(Drain(s, h, c, ins + q).order, |c.order|, p, r);
    } else {
      var ops := ConsumersOf(s.g, ins[0]);
      assert (ins + q)[1..] == ins[1..] + q;
      var (c', q') := Serve(s, h, ops, c, ins[1..] + q);
      ServeAwaited(s, h, ops, c, ins[1..] + q, p, r);
      assert ins == [ins[0]] + ins[1..];
      var more := q'[|ins[1..] + q|..];
      assert q' == ins[1..] + (q + more) && Drain(s, h, c, ins + q) == Drain(s, h, c', q');
      InputsAwaited(s, h, c', ins[1..], q + more, p, r);
    }
  }

  /** The first i operations include p and not r. */
  ghost predicate PrefixHas(order: seq<Op>, i: nat, p: Op, r: Op)
    requires i <= |order|
  {
    p in order[..i] && r !in order[..i]
  }

  /** A reader that reads no graph input, and so is woken by constants or by what others wrote,
      comes after every operation that is ready with a graph input: constants are queued
      behind the inputs.  It does so even if it reads that operation's output. */
  lemma ConstantReaderWaits<E(!new)>(s: Source, h: Handler<E>, c: Context<E>, p: Op, r: Op)
    requires WellLinked(s) && Contract(s, h) && Start(s, c, QueueOf(s))
    requires p in s.g.ops && ReadyAtStart(s, p) && r in s.g.ops && forall u | u in s.g.node[r].inputs :: u !in s.inputs
    ensures AlwaysPrecedes(s, h, c, p, r)
  {
    forall z: Source | WellLinked(z) && SameUpToOrder(s, z) && Start(z, c, QueueOf(z))
      ensures Precedes(Drain(z, h, c, QueueOf(z)).order, p, r)
    {
      ContractSame(s, z, h);
      forall t ensures Seed(s, t) <==> Seed(z, t) { SeedsSame(s, z, t); }
      ConstantReaderLate(z, h, c, p, r);
    }
  }

  lemma ConstantReaderLate<E(!new)>(z: Source, h: Handler<E>, c: Context<E>, p: Op, r: Op)
    requires WellLinked(z) && Contract(z, h) && Start(z, c, QueueOf(z))
    requires p in z.g.ops && ReadyAtStart(z, p) && r in z.g.ops && forall u | u in z.g.node[r].inputs :: u !in z.inputs
    ensures Precedes(Drain(z, h, c, QueueOf(z)).order, p, r)
  {
    var order := Drain(z, h, c, QueueOf(z)).order;
    assert Awaited(z, c, z.inputs, p, r);
    InputsAwaited(z, h, c, z.inputs, ConstantInputs(z, z.g.ops), p, r);
    var i :| 0 <= i <= |order| && PrefixHas(order, i, p, r);
    PrefixPrecedes(order, i, p, r);
  }

  lemma PrefixPrecedes(order: seq<Op>, i: nat, p: Op, r: Op)
    requires i <= |order| && PrefixHas(order, i, p, r)
    ensures Precedes(order, p, r)
  {
    assert forall j | 0 <= j < i :: order[..i][j] == order[j];
    forall k | 0 <= k < |order| && order[k] == r ensures p in order[..k] {
      assert order[..i] <= order[..k];
    }
  }

  /** Operation 0 reads the input 0 and writes the graph output 1; operation 1, bound to
      tensor 0 first, reads tensors 0 and 1. */
  function ReadOutputExample(): (s: Source)
    ensures ConsumersOf(s.g, 0) == [1, 0] && ConsumersOf(s.g, 1) == [1]
    ensures forall t | t > 1 :: ConsumersOf(s.g, t) == []
    ensures s.g.ops == [0, 1] && s.g.node.Keys == {0, 1}
    ensures s.g.node[0] == Node(7, [0], [1]) && s.g.node[1] == Node(8, [0, 1], [2])
    ensures s.inputs == [0] && s.outputs == [1]
  {
    Source(
      Graph([0, 1],
            map[0 := Node(7, [0], [1]), 1 := Node(8, [0, 1], [2])],
            map[0 := [1, 0], 1 := [1]],
            map[1 := 0, 2 := 1]),
      [0], [1], {}, {})
  }

  lemma ReadOutputExampleWellLinked()
    ensures WellLinked(ReadOutputExample()) && SingleWriter(ReadOutputExample().g)
  {
    var s := ReadOutputExample();
    forall t: Tensor, o: Op | o in s.g.ops && t in s.g.node[o].inputs ensures o in ConsumersOf(s.g, t) {
      assert o == 0 || o == 1;
      assert t == 0 || t == 1;
    }
    forall t: Tensor, o: Op | o in ConsumersOf(s.g, t) ensures o in s.g.ops && t in s.g.node[o].inputs {
      assert t == 0 || t == 1;
    }
  }

  /** A well-formed graph in which the reader of a graph output is handled before its writer,
      whatever the handlers do. */
  lemma ReaderBeforeWriter<E>(h: Handler<E>, c: Context<E>, q: seq<Tensor>)
    requires q == [0] && Start(ReadOutputExample(), c, q)
    ensures WellLinked(ReadOutputExample()) && SingleWriter(ReadOutputExample().g)
    ensures [1] <= Drain(ReadOutputExample(), h, c, q).order
    ensures 1 in ReadOutputExample().g.node[0].outputs && 1 in ReadOutputExample().g.node[1].inputs
  {
    var s := ReadOutputExample();
    ReadOutputExampleWellLinked();
    assert Fires(s, c, 1) by {
      assert 1 in s.g.ops && Seed(s, 0) && 1 in s.outputs;
    }
    FirstReaderWins(s, h, c, q);
  }
}
