/** The graph as the passes see it: operations in creation order, each with its bound
    tensors, and the two maps from a tensor to the operations that read it and to the
    operation that writes it.  Tensors and operations are handles: equality of handles is
    identity of the shared objects. */
module GraphModel {

  type Tensor = nat
  type Op = nat

  datatype Option<+T> = None | Some(value: T)

  /** kind -1 marks an operation without a node in the driver. */
  datatype Node = Node(kind: int, inputs: seq<Tensor>, outputs: seq<Tensor>)

  datatype Graph = Graph(
    ops: seq<Op>,
    node: map<Op, Node>,
    consumers: map<Tensor, seq<Op>>,
    producer: map<Tensor, Op>)

  /** The recorded readers of a tensor, in binding order; empty when none is recorded. */
  function ConsumersOf(g: Graph, t: Tensor): (ops: seq<Op>)
  {
    if t in g.consumers then g.consumers[t] else []
  }

  function ProducerOf(g: Graph, t: Tensor): Option<Op>
  {
    if t in g.producer then Some(g.producer[t]) else None
  }

  function Count<T(==)>(s: seq<T>, x: T): (n: nat)
    ensures n > 0 <==> x in s
  {
    multiset(s)[x]
  }

  predicate NoDuplicates<T(==)>(s: seq<T>) {
    forall i, j | 0 <= i < j < |s| :: s[i] != s[j]
  }

  lemma NoDuplicatesTail<T>(s: seq<T>)
    requires NoDuplicates(s) && s != []
    ensures NoDuplicates(s[1..]) && s[0] !in s[1..]
  {
    forall x | x in s[1..] ensures x != s[0] {
      var j :| 0 <= j < |s[1..]| && s[1..][j] == x;
      assert s[j + 1] == x;
    }
  }

  /** Every listed operation has a node. */
  predicate HasNodes(g: Graph) {
    forall o | o in g.ops :: o in g.node
  }

  /** The consumer map tells the truth about bindings: an operation occurs in a tensor's
      list exactly as often as it binds that tensor as an input, and no operation outside
      the graph occurs at all. */
  ghost predicate ConsumersAgree(g: Graph)
    requires HasNodes(g)
  {
    && (forall t: Tensor, o: Op :: o in g.ops ==> Count(ConsumersOf(g, t), o) == Count(g.node[o].inputs, t))
    && (forall t: Tensor, o: Op :: o in ConsumersOf(g, t) ==> o in g.ops)
  }

  /** The producer map tells the truth: it is defined exactly on the bound outputs and
      names an operation of the graph that binds the tensor as an output. */
  ghost predicate ProducersAgree(g: Graph)
    requires HasNodes(g)
  {
    && (forall t: Tensor :: t in g.producer ==> g.producer[t] in g.ops && t in g.node[g.producer[t]].outputs)
    && (forall t: Tensor, o: Op :: o in g.ops && t in g.node[o].outputs ==> t in g.producer)
  }

  ghost predicate Linked(g: Graph) {
    HasNodes(g) && NoDuplicates(g.ops) && ConsumersAgree(g) && ProducersAgree(g)
  }

  /** No tensor is written by two operations. */
  ghost predicate SingleWriter(g: Graph)
    requires HasNodes(g)
  {
    forall o, p, t: Tensor :: o in g.ops && p in g.ops && t in g.node[o].outputs && t in g.node[p].outputs ==> o == p
  }

  /** rank orders the graph: whoever writes a tensor ranks below whoever reads it. */
  ghost predicate Ordered(g: Graph, rank: Op -> nat)
    requires HasNodes(g)
  {
    forall p, o, t: Tensor :: p in g.ops && o in g.ops && t in g.node[p].outputs && t in g.node[o].inputs
                              ==> rank(p) < rank(o)
  }

  /** The producer map is truthful and unambiguous. */
  ghost predicate WritersAgree(g: Graph) {
    HasNodes(g) && ProducersAgree(g) && SingleWriter(g)
  }

  /** For every tensor but the constants, the listed operations among those of the graph are
      exactly its readers, however often each is listed. */
  ghost predicate ReadersAgree(g: Graph, constants: set<Tensor>)
    requires HasNodes(g)
  {
    forall x: Op, t: Tensor | x in g.ops && t !in constants :: x in ConsumersOf(g, t) <==> t in g.node[x].inputs
  }

  /** Reader lists name operations that have a node, if not a place in the graph. */
  ghost predicate ReadersNamed(g: Graph) {
    forall t: Tensor, x: Op | x in ConsumersOf(g, t) :: x in g.node
  }

  ghost predicate Unwritten(g: Graph, constants: set<Tensor>)
    requires HasNodes(g)
  {
    forall x: Op, t: Tensor | x in g.ops && t in g.node[x].outputs :: t !in constants
  }

  /** What remains true of the bookkeeping while operations are replaced: lists may repeat an
      operation, name one that is gone, or forget the readers of a constant. */
  ghost predicate LiveLinked(g: Graph, constants: set<Tensor>) {
    WritersAgree(g) && NoDuplicates(g.ops) && ReadersAgree(g, constants) && ReadersNamed(g) && Unwritten(g, constants)
  }

  lemma LinkedIsLive(g: Graph, constants: set<Tensor>)
    requires Linked(g) && SingleWriter(g) && Unwritten(g, constants)
    ensures LiveLinked(g, constants)
  {
    forall x: Op, t: Tensor | x in g.ops ensures x in ConsumersOf(g, t) <==> t in g.node[x].inputs {
      assert Count(ConsumersOf(g, t), x) == Count(g.node[x].inputs, t);
    }
  }
}
