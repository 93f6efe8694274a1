/** Taking a matched pattern out of the graph.  Three linked structures are cut at once: the
    operation list, the consumer map and the producer map. */
module FusionRemove {
  import opened GraphModel
  import opened FusionMatch

  /** The structures that are cut.  A missing entry reads like the empty list or the null
      handle the code may leave behind. */
  datatype Links = Links(ops: seq<Op>, consumers: map<Tensor, seq<Op>>, producer: map<Tensor, Op>)

  /** Erasing an operation that is not in the list is undefined in the source. */
  datatype Outcome = Done(links: Links) | Fault

  function Readers(l: Links, t: Tensor): seq<Op> {
    if t in l.consumers then l.consumers[t] else []
  }

  /** Erase the first occurrence, if any. */
  function EraseOp(ops: seq<Op>, o: Op): (r: seq<Op>) {
    if ops == [] then [] else if ops[0] == o then ops[1..] else [ops[0]] + EraseOp(ops[1..], o)
  }

  lemma {:induction false} EraseOther(ops: seq<Op>, o: Op, x: Op)
    requires x != o
    ensures Count(EraseOp(ops, o), x) == Count(ops, x)
  {
    if ops != [] {
      assert ops == [ops[0]] + ops[1..];
      if ops[0] != o { EraseOther(ops[1..], o, x); }
    }
  }

  lemma {:induction false} EraseAbsent(ops: seq<Op>, o: Op)
    requires o !in ops
    ensures EraseOp(ops, o) == ops
  {
    if ops != [] {
      assert ops == [ops[0]] + ops[1..];
      EraseAbsent(ops[1..], o);
    }
  }

  lemma {:induction false} EraseFewer(ops: seq<Op>, o: Op, x: Op)
    ensures x in EraseOp(ops, o) ==> x in ops
  {
    if ops != [] && ops[0] != o {
      EraseFewer(ops[1..], o, x);
    }
  }

  /** Mean0, Sub0 and Mul1 read tensors that others may read too. */
  predicate ReadsOutside(i: nat) {
    i == MEAN_0 || i == SUB_0 || i == MUL_1
  }

  /** One input of such a place: a constant loses its whole entry, another tensor loses one
      mention of the operation; the place's output loses its producer. */
  function DropReader(g: Graph, constants: set<Tensor>, l: Links, o: Op, t: Tensor): Links
    requires o in g.node && g.node[o].outputs != []
  {
    var rest := EraseOp(Readers(l, t), o);
    var consumers := if t in constants || rest == [] then l.consumers - {t} else l.consumers[t := rest];
    Links(l.ops, consumers, l.producer - {g.node[o].outputs[0]})
  }

  function Outputs(g: Graph, o: Op): (outs: set<Tensor>)
    requires o in g.node
    ensures forall t :: t in outs <==> t in g.node[o].outputs
  {
    set t | t in g.node[o].outputs
  }

  /** Erase the tensor's entry and forget the producers of the place's outputs. */
  function SweepPlain(g: Graph, l: Links, o: Op, t: Tensor): Links
    requires o in g.node
  {
    Links(l.ops, l.consumers - {t}, l.producer - Outputs(g, o))
  }

  /** The same, erasing the tensor's producer first. */
  function SweepProduced(g: Graph, l: Links, o: Op, t: Tensor): Links
    requires o in g.node && t in l.producer
  {
    Links(EraseOp(l.ops, l.producer[t]), l.consumers - {t}, (l.producer - {t}) - Outputs(g, o))
  }

  /** One input of any other place but Add1: its producer goes too, its entry is erased, and
      the place's outputs lose their producer. */
  function DropInput(g: Graph, constants: set<Tensor>, l: Links, o: Op, t: Tensor): Outcome
    requires o in g.node
  {
    if t !in constants && t in l.producer then
      if l.producer[t] !in l.ops then Fault else Done(SweepProduced(g, l, o, t))
    else Done(SweepPlain(g, l, o, t))
  }

  function DropReaders(g: Graph, constants: set<Tensor>, l: Links, o: Op, ts: seq<Tensor>): Links
    requires o in g.node && g.node[o].outputs != []
    decreases |ts|
  {
    if ts == [] then l else DropReaders(g, constants, DropReader(g, constants, l, o, ts[0]), o, ts[1..])
  }

  function DropInputs(g: Graph, constants: set<Tensor>, l: Links, o: Op, ts: seq<Tensor>): Outcome
    requires o in g.node
    decreases |ts|
  {
    if ts == [] then Done(l)
    else
      match DropInput(g, constants, l, o, ts[0])
      case Fault => Fault
      case Done(l') => DropInputs(g, constants, l', o, ts[1..])
  }

  /** Remove the operation at place i. */
  function RemovePlace(g: Graph, constants: set<Tensor>, l: Links, n: seq<Op>, i: nat): Outcome
    requires IsOps(g, n) && i < 11
  {
    var o := n[i];
    var l0 := l.(ops := EraseOp(l.ops, o));
    if ReadsOutside(i) then Done(DropReaders(g, constants, l0, o, g.node[o].inputs))
    else if i == ADD_1 then Done(l0)
    else DropInputs(g, constants, l0, o, g.node[o].inputs)
  }

  /** Remove the places from i on. */
  function RemoveFrom(g: Graph, constants: set<Tensor>, l: Links, n: seq<Op>, i: nat): Outcome
    requires IsOps(g, n) && i <= 11
    decreases 11 - i
  {
    if i == 11 then Done(l)
    else
      match RemovePlace(g, constants, l, n, i)
      case Fault => Fault
      case Done(l') => RemoveFrom(g, constants, l', n, i + 1)
  }

  function LinksOf(g: Graph): Links {
    Links(g.ops, g.consumers, g.producer)
  }

  function RemoveAll(g: Graph, constants: set<Tensor>, n: seq<Op>): Outcome
    requires IsOps(g, n)
  {
    RemoveFrom(g, constants, LinksOf(g), n, 0)
  }

  // ---- what is removed ----

  /** The operations outside a set, in order. */
  function Without(ops: seq<Op>, gone: set<Op>): (r: seq<Op>)
    ensures forall o :: o in r <==> o in ops && o !in gone
  {
    if ops == [] then []
    else (if ops[0] in gone then [] else [ops[0]]) + Without(ops[1..], gone)
  }

  lemma {:induction false} WithoutNothing(ops: seq<Op>)
    ensures Without(ops, {}) == ops
  {
    if ops != [] { WithoutNothing(ops[1..]); }
  }

  lemma {:induction false} WithoutSame(ops: seq<Op>, gone: set<Op>, gone': set<Op>)
    requires forall o | o in ops :: o in gone <==> o in gone'
    ensures Without(ops, gone') == Without(ops, gone)
  {
    if ops != [] {
      assert ops[0] in ops && forall o | o in ops[1..] :: o in ops;
      WithoutSame(ops[1..], gone, gone');
    }
  }

  /** Erasing one more operation from what is left. */
  lemma {:induction false} EraseWithout(ops: seq<Op>, gone: set<Op>, gone': set<Op>, o: Op)
    requires NoDuplicates(ops) && forall x :: x in gone' <==> x in gone || x == o
    ensures EraseOp(Without(ops, gone), o) == Without(ops, gone')
  {
    if ops != [] {
      NoDuplicatesTail(ops);
      var rest := ops[1..];
      if ops[0] == o {
        WithoutSame(rest, gone, gone');
        EraseAbsent(Without(rest, gone), o);
      } else {
        EraseWithout(rest, gone, gone', o);
      }
      assert [] + Without(rest, gone) == Without(rest, gone) && [] + Without(rest, gone') == Without(rest, gone');
    }
  }

  /** A place whose inputs lose their producers. */
  predicate Sweeps(i: nat) {
    i < 11 && !ReadsOutside(i) && i != ADD_1
  }

  /** The operation produces a non-constant input of a sweeping place. */
  ghost predicate SweptBy(g: Graph, constants: set<Tensor>, n: seq<Op>, q: Op)
    requires IsOps(g, n)
  {
    exists i: nat, t: Tensor :: Sweeps(i) && t in g.node[n[i]].inputs && t !in constants && t in g.producer && g.producer[t] == q
  }

  /** The operations that go: the pattern, and the producers of its private side inputs. */
  ghost predicate Gone(g: Graph, constants: set<Tensor>, n: seq<Op>, o: Op)
    requires IsOps(g, n)
  {
    o in n || SweptBy(g, constants, n, o)
  }

  ghost function GoneSet(g: Graph, constants: set<Tensor>, n: seq<Op>): (gone: set<Op>)
    requires IsOps(g, n)
    ensures forall o :: o in gone <==> o in g.ops && Gone(g, constants, n, o)
  {
    set o | o in g.ops && Gone(g, constants, n, o)
  }

  /** Tensors swept away, constants aside, are read by nobody who stays. */
  ghost predicate SweptUnshared(g: Graph, constants: set<Tensor>, n: seq<Op>)
    requires IsOps(g, n)
  {
    forall i: nat, t: Tensor, x: Op | Sweeps(i) && t in g.node[n[i]].inputs && t !in constants
                                      && x in g.ops && x in ConsumersOf(g, t) :: Gone(g, constants, n, x)
  }

  /** A constant that a place other than Add1 reads: its whole list of readers is erased. */
  ghost predicate Spoiled(g: Graph, constants: set<Tensor>, n: seq<Op>, t: Tensor)
    requires IsOps(g, n)
  {
    t in constants && exists i: nat :: i < 11 && i != ADD_1 && t in g.node[n[i]].inputs
  }

  /** Every operation that goes has a single output, Add1 excepted. */
  ghost predicate GoneSingle(g: Graph, constants: set<Tensor>, n: seq<Op>)
    requires IsOps(g, n)
  {
    forall o | o in g.ops && Gone(g, constants, n, o) && o != n[ADD_1] :: |g.node[o].outputs| == 1
  }

  ghost predicate ReadsApart(g: Graph, y: Op, add1: Op)
    requires y in g.node && add1 in g.node
  {
    g.node[y].inputs != [] && forall t | t in g.node[y].inputs :: t !in g.node[y].outputs && t !in g.node[add1].outputs
  }

  /** No place reads its own output or Add1's, and every place reads something. */
  ghost predicate ResultsApart(g: Graph, n: seq<Op>)
    requires IsOps(g, n)
  {
    forall y | y in n && y in g.node :: ReadsApart(g, y, n[ADD_1])
  }

  /** What makes the cut clean. */
  ghost predicate Private(g: Graph, constants: set<Tensor>, n: seq<Op>)
    requires IsOps(g, n)
  {
    SweptUnshared(g, constants, n) && GoneSingle(g, constants, n) && ResultsApart(g, n)
  }

  // ---- the invariant of the removal loop ----

  /** Whoever stays is still listed as a reader exactly as often, spoiled constants aside, and
      nobody is listed anew. */
  ghost predicate ReadersKept(g: Graph, constants: set<Tensor>, n: seq<Op>, dead: set<Op>, l: Links)
    requires IsOps(g, n)
  {
    && (forall x: Op, t: Tensor | x in g.ops && x !in dead && !Spoiled(g, constants, n, t) ::
          Count(Readers(l, t), x) == Count(ConsumersOf(g, t), x))
    && (forall x: Op, t: Tensor | x in Readers(l, t) :: x in ConsumersOf(g, t))
  }

  /** The producer map is a restriction of the old one that has lost only tensors of erased
      operations, and still names an erased operation only if it is excused. */
  ghost predicate ProducersKept(g: Graph, l: Links, gone: set<Op>, excused: set<Op>) {
    && (forall t | t in l.producer :: t in g.producer && l.producer[t] == g.producer[t])
    && (forall t | t in g.producer :: t in l.producer || g.producer[t] in gone)
    && (forall t | t in l.producer && l.producer[t] in gone :: l.producer[t] in excused)
  }

  /** The state after erasing the set gone. */
  ghost predicate Cut(g: Graph, constants: set<Tensor>, n: seq<Op>, l: Links, gone: set<Op>, excused: set<Op>)
    requires IsOps(g, n)
  {
    && gone <= GoneSet(g, constants, n)
    && l.ops == Without(g.ops, gone)
    && ReadersKept(g, constants, n, GoneSet(g, constants, n), l)
    && ProducersKept(g, l, gone, excused)
  }

  ghost predicate Cuttable(g: Graph, constants: set<Tensor>, n: seq<Op>) {
    IsOps(g, n) && NoDuplicates(n) && LiveLinked(g, constants) && Private(g, constants, n)
  }

  lemma ErasePlace(g: Graph, constants: set<Tensor>, n: seq<Op>, l: Links, gone: set<Op>, i: nat)
    requires Cuttable(g, constants, n) && i < 11
    requires Cut(g, constants, n, l, gone, {n[ADD_1]})
    ensures Cut(g, constants, n, l.(ops := EraseOp(l.ops, n[i])), gone + {n[i]}, {n[ADD_1], n[i]})
  {
    EraseWithout(g.ops, gone, gone + {n[i]}, n[i]);
    assert n[i] in n;
    var r := l.(ops := EraseOp(l.ops, n[i]));
    assert forall t: Tensor :: Readers(r, t) == Readers(l, t);
  }

  lemma WriterIs(g: Graph, o: Op, t: Tensor)
    requires WritersAgree(g) && o in g.ops && t in g.node[o].outputs
    ensures t in g.producer && g.producer[t] == o
  {
    assert g.producer[t] in g.ops && t in g.node[g.producer[t]].outputs;
  }

  /** Forgetting the producer of tensors written by an erased operation is harmless. */
  lemma ForgetProducer(g: Graph, l: Links, r: Links, gone: set<Op>, excused: set<Op>, o: Op, ts: set<Tensor>)
    requires WritersAgree(g) && o in g.ops && o in gone
    requires forall t | t in ts :: t in g.node[o].outputs
    requires ProducersKept(g, l, gone, excused) && r.producer == l.producer - ts
    ensures ProducersKept(g, r, gone, excused)
  {
    forall t | t in ts ensures t in g.producer && g.producer[t] == o {
      WriterIs(g, o, t);
    }
  }

  lemma DropReaderCuts(g: Graph, constants: set<Tensor>, n: seq<Op>, l: Links, gone: set<Op>, i: nat, t: Tensor)
    requires Cuttable(g, constants, n) && i < 11 && ReadsOutside(i) && t in g.node[n[i]].inputs
    requires n[i] in gone && Cut(g, constants, n, l, gone, {n[ADD_1], n[i]})
    ensures Cut(g, constants, n, DropReader(g, constants, l, n[i], t), gone, {n[ADD_1], n[i]})
  {
    var r := DropReader(g, constants, l, n[i], t);
    ForgetProducer(g, l, r, gone, {n[ADD_1], n[i]}, n[i], {g.node[n[i]].outputs[0]});
    forall x: Op, u: Tensor | x in g.ops && x !in GoneSet(g, constants, n) && !Spoiled(g, constants, n, u)
      ensures Count(Readers(r, u), x) == Count(ConsumersOf(g, u), x)
    {
      DropReaderAt(g, constants, n, l, i, t, x, u);
    }
    forall x: Op, u: Tensor | x in Readers(r, u) ensures x in ConsumersOf(g, u) {
      EraseFewer(Readers(l, t), n[i], x);
    }
  }

  lemma DropReaderAt(g: Graph, constants: set<Tensor>, n: seq<Op>, l: Links, i: nat, t: Tensor, x: Op, u: Tensor)
    requires Cuttable(g, constants, n) && i < 11 && ReadsOutside(i) && t in g.node[n[i]].inputs
    requires ReadersKept(g, constants, n, GoneSet(g, constants, n), l)
    requires x in g.ops && x !in GoneSet(g, constants, n) && !Spoiled(g, constants, n, u)
    ensures Count(Readers(DropReader(g, constants, l, n[i], t), u), x) == Count(ConsumersOf(g, u), x)
  {
    assert Count(Readers(l, u), x) == Count(ConsumersOf(g, u), x);
    assert n[i] in n && n[i] in GoneSet(g, constants, n) && x != n[i];
    if u == t {
      EraseOther(Readers(l, t), n[i], x);
    }
  }

  lemma {:induction false} DropReadersCut(g: Graph, constants: set<Tensor>, n: seq<Op>, l: Links, gone: set<Op>, i: nat, ts: seq<Tensor>)
    requires Cuttable(g, constants, n) && i < 11 && ReadsOutside(i) && forall t | t in ts :: t in g.node[n[i]].inputs
    requires n[i] in gone && Cut(g, constants, n, l, gone, {n[ADD_1], n[i]})
    ensures Cut(g, constants, n, DropReaders(g, constants, l, n[i], ts), gone, {n[ADD_1], n[i]})
    ensures ts != [] || g.node[n[i]].outputs[0] !in l.producer ==>
              g.node[n[i]].outputs[0] !in DropReaders(g, constants, l, n[i], ts).producer
    decreases |ts|
  {
    if ts != [] {
      DropReaderCuts(g, constants, n, l, gone, i, ts[0]);
      assert forall t | t in ts[1..] :: t in ts;
      DropReadersCut(g, constants, n, DropReader(g, constants, l, n[i], ts[0]), gone, i, ts[1..]);
    }
  }

  /** One swept input: its producer is still listed, so nothing undefined happens. */
  lemma DropInputCuts(g: Graph, constants: set<Tensor>, n: seq<Op>, l: Links, gone: set<Op>, i: nat, t: Tensor)
    returns (gone': set<Op>)
    requires Cuttable(g, constants, n) && Sweeps(i) && t in g.node[n[i]].inputs
    requires n[i] in gone && Cut(g, constants, n, l, gone, {n[ADD_1], n[i]})
    ensures DropInput(g, constants, l, n[i], t).Done? && gone <= gone'
    ensures Cut(g, constants, n, DropInput(g, constants, l, n[i], t).links, gone', {n[ADD_1], n[i]})
    ensures Swept(g, constants, l, DropInput(g, constants, l, n[i], t).links, n[i], t)
  {
    if t !in constants && t in l.producer {
      gone' := DropProduced(g, constants, n, l, gone, i, t);
    } else {
      gone' := gone;
      var r := SweepPlain(g, l, n[i], t);
      ForgetProducer(g, l, r, gone, {n[ADD_1], n[i]}, n[i], Outputs(g, n[i]));
      SweepReaders(g, constants, n, l, r, i, t);
    }
  }

  /** What one sweep leaves in the producer map. */
  ghost predicate Swept(g: Graph, constants: set<Tensor>, l: Links, r: Links, o: Op, t: Tensor)
    requires o in g.node
  {
    && (forall u | u in g.node[o].outputs :: u !in r.producer)
    && (t !in constants ==> t !in r.producer)
    && r.producer.Keys <= l.producer.Keys
  }

  lemma DropProduced(g: Graph, constants: set<Tensor>, n: seq<Op>, l: Links, gone: set<Op>, i: nat, t: Tensor)
    returns (gone': set<Op>)
    requires Cuttable(g, constants, n) && Sweeps(i) && t in g.node[n[i]].inputs && t !in constants && t in l.producer
    requires n[i] in gone && Cut(g, constants, n, l, gone, {n[ADD_1], n[i]})
    ensures l.producer[t] in l.ops && gone <= gone'
    ensures Cut(g, constants, n, SweepProduced(g, l, n[i], t), gone', {n[ADD_1], n[i]})
  {
    gone' := gone + {l.producer[t]};
    ProducerStillListed(g, constants, n, l, gone, i, t);
    DropProducedOps(g, l, gone, n[i], t);
    DropProducedProducers(g, constants, n, l, gone, i, t);
    SweepReaders(g, constants, n, l, SweepProduced(g, l, n[i], t), i, t);
  }

  lemma DropProducedOps(g: Graph, l: Links, gone: set<Op>, o: Op, t: Tensor)
    requires NoDuplicates(g.ops) && o in g.node && t in l.producer && l.ops == Without(g.ops, gone)
    ensures SweepProduced(g, l, o, t).ops == Without(g.ops, gone + {l.producer[t]})
  {
    EraseWithout(g.ops, gone, gone + {l.producer[t]}, l.producer[t]);
  }

  lemma DropProducedProducers(g: Graph, constants: set<Tensor>, n: seq<Op>, l: Links, gone: set<Op>, i: nat, t: Tensor)
    requires Cuttable(g, constants, n) && Sweeps(i) && t in g.node[n[i]].inputs && t !in constants && t in l.producer
    requires n[i] in gone && l.ops == Without(g.ops, gone) && ProducersKept(g, l, gone, {n[ADD_1], n[i]})
    ensures ProducersKept(g, SweepProduced(g, l, n[i], t), gone + {l.producer[t]}, {n[ADD_1], n[i]})
  {
    var q := l.producer[t];
    ProducerStillListed(g, constants, n, l, gone, i, t);
    var l1 := Links(l.ops, l.consumers, l.producer - {t});
    EraseProducer(g, l, l1, gone, {n[ADD_1], n[i]}, q, t);
    ForgetProducer(g, l1, SweepProduced(g, l, n[i], t), gone + {q}, {n[ADD_1], n[i]}, n[i], Outputs(g, n[i]));
  }

  /** The producer of a swept tensor goes too; the tensor is its only output, and it is
      neither Add1 nor the reader. */
  lemma SweptProducer(g: Graph, constants: set<Tensor>, n: seq<Op>, i: nat, t: Tensor)
    requires Cuttable(g, constants, n) && Sweeps(i) && t in g.node[n[i]].inputs && t !in constants && t in g.producer
    ensures var q := g.producer[t];
            && q in g.ops && q in GoneSet(g, constants, n) && q != n[ADD_1] && q != n[i]
            && g.node[q].outputs == [t]
  {
    var q := g.producer[t];
    assert q in g.ops && t in g.node[q].outputs;
    assert SweptBy(g, constants, n, q);
    assert n[i] in n && ReadsApart(g, n[i], n[ADD_1]);
    assert t !in g.node[n[i]].outputs && t !in g.node[n[ADD_1]].outputs;
    assert |g.node[q].outputs| == 1;
  }

  /** It has not been erased before. */
  lemma ProducerStillListed(g: Graph, constants: set<Tensor>, n: seq<Op>, l: Links, gone: set<Op>, i: nat, t: Tensor)
    requires Cuttable(g, constants, n) && Sweeps(i) && t in g.node[n[i]].inputs && t !in constants && t in l.producer
    requires l.ops == Without(g.ops, gone) && ProducersKept(g, l, gone, {n[ADD_1], n[i]})
    ensures l.producer[t] in GoneSet(g, constants, n) && l.producer[t] !in gone && l.producer[t] in l.ops
    ensures t in g.producer && l.producer[t] == g.producer[t]
    ensures l.producer[t] in g.node && g.node[l.producer[t]].outputs == [t]
  {
    SweptProducer(g, constants, n, i, t);
  }

  /** Erasing an operation together with its only output's entry. */
  lemma EraseProducer(g: Graph, l: Links, r: Links, gone: set<Op>, excused: set<Op>, q: Op, t: Tensor)
    requires WritersAgree(g) && ProducersKept(g, l, gone, excused)
    requires q in g.ops && g.node[q].outputs == [t] && t in g.producer && g.producer[t] == q
    requires r.producer == l.producer - {t}
    ensures ProducersKept(g, r, gone + {q}, excused)
  {
    forall u | u in r.producer ensures r.producer[u] != q {
      assert u in g.producer && u in g.node[g.producer[u]].outputs;
    }
    forall u | u in g.producer ensures u in r.producer || g.producer[u] in gone + {q} {
      assert u in l.producer || g.producer[u] in gone;
    }
  }

  lemma SweepReaders(g: Graph, constants: set<Tensor>, n: seq<Op>, l: Links, r: Links, i: nat, t: Tensor)
    requires Cuttable(g, constants, n) && Sweeps(i) && t in g.node[n[i]].inputs
    requires ReadersKept(g, constants, n, GoneSet(g, constants, n), l) && r.consumers == l.consumers - {t}
    ensures ReadersKept(g, constants, n, GoneSet(g, constants, n), r)
  {
    forall x: Op, u: Tensor | x in g.ops && x !in GoneSet(g, constants, n) && !Spoiled(g, constants, n, u)
      ensures Count(Readers(r, u), x) == Count(ConsumersOf(g, u), x)
    {
      assert Count(Readers(l, u), x) == Count(ConsumersOf(g, u), x);
      assert t in constants ==> Spoiled(g, constants, n, t);
    }
  }

  lemma {:induction false} DropInputsCut(g: Graph, constants: set<Tensor>, n: seq<Op>, l: Links, gone: set<Op>, i: nat, ts: seq<Tensor>)
    returns (gone': set<Op>)
    requires Cuttable(g, constants, n) && Sweeps(i) && forall t | t in ts :: t in g.node[n[i]].inputs
    requires n[i] in gone && Cut(g, constants, n, l, gone, {n[ADD_1], n[i]})
    ensures DropInputs(g, constants, l, n[i], ts).Done? && gone <= gone'
    ensures var r := DropInputs(g, constants, l, n[i], ts).links;
            && Cut(g, constants, n, r, gone', {n[ADD_1], n[i]})
            && r.producer.Keys <= l.producer.Keys
            && (ts != [] ==> forall u | u in g.node[n[i]].outputs :: u !in r.producer)
            && (forall t | t in ts && t !in constants :: t !in r.producer)
    decreases |ts|
  {
    if ts == [] {
      gone' := gone;
    } else {
      var gone1 := DropInputCuts(g, constants, n, l, gone, i, ts[0]);
      var l1 := DropInput(g, constants, l, n[i], ts[0]).links;
      assert ts == [ts[0]] + ts[1..];
      gone' := DropInputsCut(g, constants, n, l1, gone1, i, ts[1..]);
    }
  }

  /** The place's own outputs are no longer excused. */
  lemma ExcuseEnds(g: Graph, l: Links, gone: set<Op>, add1: Op, o: Op)
    requires WritersAgree(g) && o in g.ops && ProducersKept(g, l, gone, {add1, o})
    requires o == add1 || forall u | u in g.node[o].outputs :: u !in l.producer
    ensures ProducersKept(g, l, gone, {add1})
  {
    forall t | t in l.producer && l.producer[t] in gone ensures l.producer[t] == add1 {
      assert t in g.node[g.producer[t]].outputs;
    }
  }

  /** What removing place i leaves, apart from the cut itself. */
  ghost predicate PlaceGone(g: Graph, constants: set<Tensor>, n: seq<Op>, l: Links, gone: set<Op>, i: nat)
    requires IsOps(g, n) && i < 11
  {
    n[i] in gone && (Sweeps(i) ==> forall t | t in g.node[n[i]].inputs && t !in constants :: t !in l.producer)
  }

  /** The outer places keep their tensors' other readers. */
  lemma OutsidePlaceCuts(g: Graph, constants: set<Tensor>, n: seq<Op>, l: Links, gone: set<Op>, i: nat)
    requires Cuttable(g, constants, n) && i < 11 && ReadsOutside(i)
    requires n[i] in gone && Cut(g, constants, n, l, gone, {n[ADD_1], n[i]})
    ensures var r := DropReaders(g, constants, l, n[i], g.node[n[i]].inputs);
            Cut(g, constants, n, r, gone, {n[ADD_1]}) && r.producer.Keys <= l.producer.Keys
  {
    var o := n[i];
    PlaceWritesOne(g, constants, n, i);
    DropReadersCut(g, constants, n, l, gone, i, g.node[o].inputs);
    DropReadersShrink(g, constants, l, o, g.node[o].inputs);
    ExcuseEnds(g, DropReaders(g, constants, l, o, g.node[o].inputs), gone, n[ADD_1], o);
  }

  lemma PlaceWritesOne(g: Graph, constants: set<Tensor>, n: seq<Op>, i: nat)
    requires Cuttable(g, constants, n) && i < 11 && i != ADD_1
    ensures g.node[n[i]].inputs != [] && g.node[n[i]].outputs == [g.node[n[i]].outputs[0]]
  {
    PlacesApart(g, constants, n, i);
    assert n[i] in n && ReadsApart(g, n[i], n[ADD_1]);
    assert |g.node[n[i]].outputs| == 1;
  }

  lemma SweepPlaceCuts(g: Graph, constants: set<Tensor>, n: seq<Op>, l: Links, gone: set<Op>, i: nat) returns (gone': set<Op>)
    requires Cuttable(g, constants, n) && Sweeps(i)
    requires n[i] in gone && Cut(g, constants, n, l, gone, {n[ADD_1], n[i]})
    ensures DropInputs(g, constants, l, n[i], g.node[n[i]].inputs).Done? && gone <= gone'
    ensures var r := DropInputs(g, constants, l, n[i], g.node[n[i]].inputs).links;
            && Cut(g, constants, n, r, gone', {n[ADD_1]}) && r.producer.Keys <= l.producer.Keys
            && forall t | t in g.node[n[i]].inputs && t !in constants :: t !in r.producer
  {
    var o := n[i];
    assert o in n && ReadsApart(g, o, n[ADD_1]);
    gone' := DropInputsCut(g, constants, n, l, gone, i, g.node[o].inputs);
    ExcuseEnds(g, DropInputs(g, constants, l, o, g.node[o].inputs).links, gone', n[ADD_1], o);
  }

  lemma PlaceCuts(g: Graph, constants: set<Tensor>, n: seq<Op>, l: Links, gone: set<Op>, i: nat) returns (gone': set<Op>)
    requires Cuttable(g, constants, n) && i < 11
    requires Cut(g, constants, n, l, gone, {n[ADD_1]})
    ensures RemovePlace(g, constants, l, n, i).Done? && gone <= gone'
    ensures var r := RemovePlace(g, constants, l, n, i).links;
            && Cut(g, constants, n, r, gone', {n[ADD_1]})
            && r.producer.Keys <= l.producer.Keys
            && PlaceGone(g, constants, n, r, gone', i)
  {
    var l0 := l.(ops := EraseOp(l.ops, n[i]));
    ErasePlace(g, constants, n, l, gone, i);
    gone' := gone + {n[i]};
    if ReadsOutside(i) {
      OutsidePlaceCuts(g, constants, n, l0, gone', i);
    } else if i == ADD_1 {
      ExcuseEnds(g, l0, gone', n[ADD_1], n[i]);
    } else {
      gone' := SweepPlaceCuts(g, constants, n, l0, gone', i);
    }
  }

  lemma PlacesApart(g: Graph, constants: set<Tensor>, n: seq<Op>, i: nat)
    requires IsOps(g, n) && NoDuplicates(n) && i < 11 && i != ADD_1
    ensures Gone(g, constants, n, n[i]) && n[i] != n[ADD_1]
  {
    assert n[i] in n;
  }

  lemma {:induction false} DropReadersShrink(g: Graph, constants: set<Tensor>, l: Links, o: Op, ts: seq<Tensor>)
    requires o in g.node && g.node[o].outputs != []
    ensures DropReaders(g, constants, l, o, ts).producer.Keys <= l.producer.Keys
    decreases |ts|
  {
    if ts != [] {
      DropReadersShrink(g, constants, DropReader(g, constants, l, o, ts[0]), o, ts[1..]);
    }
  }

  lemma {:induction false} FromCuts(g: Graph, constants: set<Tensor>, n: seq<Op>, l: Links, gone: set<Op>, i: nat)
    returns (gone': set<Op>)
    requires Cuttable(g, constants, n) && i <= 11
    requires Cut(g, constants, n, l, gone, {n[ADD_1]})
    ensures RemoveFrom(g, constants, l, n, i).Done? && gone <= gone'
    ensures var r := RemoveFrom(g, constants, l, n, i).links;
            && Cut(g, constants, n, r, gone', {n[ADD_1]})
            && r.producer.Keys <= l.producer.Keys
            && PlacesGone(g, constants, n, r, gone', i)
    decreases 11 - i
  {
    if i == 11 {
      gone' := gone;
    } else {
      var gone1 := PlaceCuts(g, constants, n, l, gone, i);
      var l1 := RemovePlace(g, constants, l, n, i).links;
      gone' := FromCuts(g, constants, n, l1, gone1, i + 1);
      StillGone(g, constants, n, l1, gone1, RemoveFrom(g, constants, l1, n, i + 1).links, gone', i);
    }
  }

  /** The places from i on are gone. */
  ghost predicate PlacesGone(g: Graph, constants: set<Tensor>, n: seq<Op>, l: Links, gone: set<Op>, i: nat)
    requires IsOps(g, n)
  {
    forall j: nat | i <= j < 11 :: PlaceGone(g, constants, n, l, gone, j)
  }

  lemma StillGone(g: Graph, constants: set<Tensor>, n: seq<Op>, l: Links, gone: set<Op>, l': Links, gone': set<Op>, i: nat)
    requires IsOps(g, n) && i < 11 && PlaceGone(g, constants, n, l, gone, i) && PlacesGone(g, constants, n, l', gone', i + 1)
    requires gone <= gone' && l'.producer.Keys <= l.producer.Keys
    ensures PlacesGone(g, constants, n, l', gone', i)
  {
    forall j: nat | i <= j < 11 ensures PlaceGone(g, constants, n, l', gone', j) {
      if j == i {
        assert forall t | t in l'.producer :: t in l.producer;
      }
    }
  }

  /** Everything that has to go is gone. */
  lemma AllGone(g: Graph, constants: set<Tensor>, n: seq<Op>, l: Links, gone: set<Op>)
    requires Cuttable(g, constants, n) && Cut(g, constants, n, l, gone, {n[ADD_1]})
    requires PlacesGone(g, constants, n, l, gone, 0)
    ensures gone == GoneSet(g, constants, n)
  {
    forall o | o in GoneSet(g, constants, n) ensures o in gone {
      if o in n {
        var j :| 0 <= j < 11 && n[j] == o;
        assert PlaceGone(g, constants, n, l, gone, j);
      } else {
        var i: nat, t: Tensor :| Sweeps(i) && t in g.node[n[i]].inputs && t !in constants && t in g.producer && g.producer[t] == o;
        assert PlaceGone(g, constants, n, l, gone, i);
        assert t !in l.producer;
      }
    }
  }

  // ---- the readers of constants ----

  /** No entry is added, and the constants among ts lose theirs. */
  ghost predicate Forgets(l: Links, r: Links, constants: set<Tensor>, ts: seq<Tensor>) {
    r.consumers.Keys <= l.consumers.Keys && forall t | t in ts && t in constants :: t !in r.consumers
  }

  lemma {:induction false} DropReadersForget(g: Graph, constants: set<Tensor>, l: Links, o: Op, ts: seq<Tensor>)
    requires o in g.node && g.node[o].outputs != []
    ensures Forgets(l, DropReaders(g, constants, l, o, ts), constants, ts)
    decreases |ts|
  {
    if ts != [] {
      var r := DropReader(g, constants, l, o, ts[0]);
      assert r.consumers.Keys <= l.consumers.Keys by { EraseEmpty(Readers(l, ts[0]), o); }
      DropReadersForget(g, constants, r, o, ts[1..]);
      assert ts == [ts[0]] + ts[1..];
    }
  }

  lemma EraseEmpty(ops: seq<Op>, o: Op)
    ensures ops == [] ==> EraseOp(ops, o) == []
  {
  }

  lemma {:induction false} DropInputsForget(g: Graph, constants: set<Tensor>, l: Links, o: Op, ts: seq<Tensor>)
    requires o in g.node && DropInputs(g, constants, l, o, ts).Done?
    ensures Forgets(l, DropInputs(g, constants, l, o, ts).links, constants, ts)
    decreases |ts|
  {
    if ts != [] {
      DropInputsForget(g, constants, DropInput(g, constants, l, o, ts[0]).links, o, ts[1..]);
      assert ts == [ts[0]] + ts[1..];
    }
  }

  /** The inputs that a place makes the consumer map forget, if they are constants. */
  function ForgottenAt(g: Graph, n: seq<Op>, i: nat): seq<Tensor>
    requires IsOps(g, n)
  {
    if i >= 11 || i == ADD_1 then [] else g.node[n[i]].inputs
  }

  lemma PlaceForgets(g: Graph, constants: set<Tensor>, l: Links, n: seq<Op>, i: nat)
    requires IsOps(g, n) && i < 11 && RemovePlace(g, constants, l, n, i).Done?
    ensures Forgets(l, RemovePlace(g, constants, l, n, i).links, constants, ForgottenAt(g, n, i))
  {
    var l0 := l.(ops := EraseOp(l.ops, n[i]));
    if ReadsOutside(i) {
      DropReadersForget(g, constants, l0, n[i], g.node[n[i]].inputs);
    } else if i != ADD_1 {
      DropInputsForget(g, constants, l0, n[i], g.node[n[i]].inputs);
    }
  }

  lemma ForgetsOn(l: Links, l1: Links, r: Links, constants: set<Tensor>, ts: seq<Tensor>, us: seq<Tensor>)
    requires Forgets(l, l1, constants, ts) && Forgets(l1, r, constants, us)
    ensures Forgets(l, r, constants, ts) && Forgets(l, r, constants, us)
  {
  }

  lemma {:induction false} FromForgets(g: Graph, constants: set<Tensor>, l: Links, n: seq<Op>, i: nat, j: nat)
    requires IsOps(g, n) && i <= 11 && RemoveFrom(g, constants, l, n, i).Done?
    ensures Forgets(l, RemoveFrom(g, constants, l, n, i).links, constants, if i <= j then ForgottenAt(g, n, j) else [])
    decreases 11 - i
  {
    if i < 11 {
      PlaceForgets(g, constants, l, n, i);
      var l1 := RemovePlace(g, constants, l, n, i).links;
      FromForgets(g, constants, l1, n, i + 1, j);
      ForgetsOn(l, l1, RemoveFrom(g, constants, l1, n, i + 1).links, constants, ForgottenAt(g, n, i),
                if i + 1 <= j then ForgottenAt(g, n, j) else []);
    }
  }

  lemma SpoiledForgotten(g: Graph, constants: set<Tensor>, n: seq<Op>, t: Tensor)
    requires IsOps(g, n) && RemoveAll(g, constants, n).Done? && Spoiled(g, constants, n, t)
    ensures Readers(RemoveAll(g, constants, n).links, t) == []
  {
    var j: nat :| j < 11 && j != ADD_1 && t in g.node[n[j]].inputs;
    FromForgets(g, constants, LinksOf(g), n, 0, j);
  }

  // ---- the result of the removal ----

  /** How often an operation that stays is listed as a reader: as before, or not at all if the
      tensor is a spoiled constant. */
  ghost predicate ReadersTrue(g: Graph, constants: set<Tensor>, n: seq<Op>, l: Links)
    requires IsOps(g, n)
  {
    forall x: Op, t: Tensor | x in l.ops ::
      Count(Readers(l, t), x) == if Spoiled(g, constants, n, t) then 0 else Count(ConsumersOf(g, t), x)
  }

  /** Who stays is recorded as the producer of each of its outputs, and the only other entries
      of the producer map are those of one operation that went. */
  ghost predicate ProducersTrue(g: Graph, l: Links, add1: Op)
    requires HasNodes(g)
  {
    && (forall x, t | x in l.ops && x in g.ops && t in g.node[x].outputs :: t in l.producer && l.producer[t] == x)
    && (forall t | t in l.producer :: l.producer[t] in g.ops && t in g.node[l.producer[t]].outputs
                                      && (l.producer[t] in l.ops || l.producer[t] == add1))
  }

  /** Nobody is listed anew. */
  ghost predicate NoStrangers(g: Graph, l: Links) {
    forall t: Tensor, x: Op | x in Readers(l, t) :: x in ConsumersOf(g, t)
  }

  /** What is left: the rest of the list in order, its readers and its producers. */
  ghost predicate Remainder(g: Graph, constants: set<Tensor>, n: seq<Op>, l: Links)
    requires IsOps(g, n)
  {
    && l.ops == Without(g.ops, GoneSet(g, constants, n))
    && ReadersTrue(g, constants, n, l) && NoStrangers(g, l) && ProducersTrue(g, l, n[ADD_1])
  }

  lemma CutProducers(g: Graph, l: Links, gone: set<Op>, add1: Op)
    requires WritersAgree(g) && l.ops == Without(g.ops, gone) && ProducersKept(g, l, gone, {add1})
    ensures ProducersTrue(g, l, add1)
  {
    forall x, t | x in l.ops && x in g.ops && t in g.node[x].outputs ensures t in l.producer && l.producer[t] == x {
      WriterIs(g, x, t);
    }
    forall t | t in l.producer
      ensures l.producer[t] in g.ops && t in g.node[l.producer[t]].outputs
              && (l.producer[t] in l.ops || l.producer[t] == add1)
    {
      assert g.producer[t] in g.ops && t in g.node[g.producer[t]].outputs;
    }
  }

  lemma CutReaders(g: Graph, constants: set<Tensor>, n: seq<Op>, l: Links, gone: set<Op>)
    requires IsOps(g, n) && l.ops == Without(g.ops, gone) && ReadersKept(g, constants, n, gone, l)
    requires forall t: Tensor | Spoiled(g, constants, n, t) :: Readers(l, t) == []
    ensures ReadersTrue(g, constants, n, l) && NoStrangers(g, l)
  {
  }

  lemma RemovalReaders(g: Graph, constants: set<Tensor>, n: seq<Op>)
    requires Cuttable(g, constants, n)
    ensures RemoveAll(g, constants, n).Done?
    ensures ReadersTrue(g, constants, n, RemoveAll(g, constants, n).links) && NoStrangers(g, RemoveAll(g, constants, n).links)
  {
    RemovalCuts(g, constants, n);
    var l := RemoveAll(g, constants, n).links;
    forall t: Tensor | Spoiled(g, constants, n, t) ensures Readers(l, t) == [] {
      SpoiledForgotten(g, constants, n, t);
    }
    CutReaders(g, constants, n, l, GoneSet(g, constants, n));
  }

  /** The removal is exact: nothing undefined happens, precisely the pattern and the producers
      of its private side inputs are taken out, and of the rest only the readers of the
      pattern's constants are forgotten. */
  lemma RemovalExact(g: Graph, constants: set<Tensor>, n: seq<Op>)
    requires Cuttable(g, constants, n)
    ensures RemoveAll(g, constants, n).Done?
    ensures Remainder(g, constants, n, RemoveAll(g, constants, n).links)
  {
    RemovalReaders(g, constants, n);
    RemovalCuts(g, constants, n);
    CutProducers(g, RemoveAll(g, constants, n).links, GoneSet(g, constants, n), n[ADD_1]);
  }

  lemma RemovalCuts(g: Graph, constants: set<Tensor>, n: seq<Op>)
    requires Cuttable(g, constants, n)
    ensures RemoveAll(g, constants, n).Done?
    ensures var l := RemoveAll(g, constants, n).links;
            && l.ops == Without(g.ops, GoneSet(g, constants, n))
            && ReadersKept(g, constants, n, GoneSet(g, constants, n), l)
            && ProducersKept(g, l, GoneSet(g, constants, n), {n[ADD_1]})
  {
    var l0 := LinksOf(g);
    WithoutNothing(g.ops);
    assert forall t: Tensor :: Readers(l0, t) == ConsumersOf(g, t);
    var gone := FromCuts(g, constants, n, l0, {}, 0);
    AllGone(g, constants, n, RemoveAll(g, constants, n).links, gone);
  }

  // ---- from the matched shape to a clean cut ----

  /** The output of a place other than Add1. */
  ghost predicate Interior(g: Graph, p: Pattern, t: Tensor)
    requires Kinds(g, p)
  {
    exists y :: y in Places(p) && y != p.add1 && y in g.node && g.node[y].outputs != [] && t == Out(g, y)
  }

  /** The places are the only operations that read the tensor, and what produces it produces
      nothing else. */
  ghost predicate SidePrivate(g: Graph, n: seq<Op>, t: Tensor) {
    && (forall x | x in g.ops && x in ConsumersOf(g, t) :: x in n)
    && (t in g.producer && g.producer[t] in g.node ==> |g.node[g.producer[t]].outputs| == 1)
  }

  /** The privacy the shape does not already give, for the side inputs (exponent, epsilon,
      gamma, beta) that are no constants. */
  ghost predicate SidesPrivate(g: Graph, constants: set<Tensor>, p: Pattern)
    requires Kinds(g, p) && HasNodes(g)
  {
    var n := Places(p);
    forall i: nat, t | Sweeps(i) && n[i] in g.node && t in g.node[n[i]].inputs && !Interior(g, p, t) && t !in constants ::
      SidePrivate(g, n, t)
  }

  lemma PlaceCases(p: Pattern, y: Op)
    requires y in Places(p)
    ensures y == p.mean0 || y == p.sub0 || y == p.mul2 || y == p.pow || y == p.mean1 || y == p.add0
            || y == p.rsqrt || y == p.mul0 || y == p.mul1 || y == p.add1 || y == p.sub1
  {
  }

  lemma PlacesListed(p: Pattern)
    ensures p.mean0 in Places(p) && p.sub0 in Places(p) && p.mul2 in Places(p) && p.pow in Places(p)
            && p.mean1 in Places(p) && p.add0 in Places(p) && p.rsqrt in Places(p) && p.mul0 in Places(p)
            && p.mul1 in Places(p) && p.add1 in Places(p) && p.sub1 in Places(p)
  {
    var n := Places(p);
    assert n[MEAN_0] in n && n[SUB_0] in n && n[MUL_2] in n && n[POW_0] in n && n[MEAN_1] in n && n[ADD_0] in n;
    assert n[RSQRT_0] in n && n[MUL_0] in n && n[MUL_1] in n && n[ADD_1] in n && n[SUB_1] in n;
  }

  lemma FeedsReaders(g: Graph, a: Op, b: Op, c: Op, x: Op)
    requires Feeds(g, a, b) || FeedsTwo(g, a, b, c)
    requires x in ConsumersOf(g, Out(g, a))
    ensures (Feeds(g, a, b) ==> x == b) && (x == b || x == c)
  {
    assert multiset(ConsumersOf(g, Out(g, a)))[x] > 0;
  }

  /** An interior tensor is read by the pattern only, and its writer writes nothing else. */
  lemma InteriorReaders(g: Graph, p: Pattern, y: Op, x: Op)
    requires Diagram(g, p) && y in Places(p) && y != p.add1 && x in ConsumersOf(g, Out(g, y))
    ensures x in Places(p)
  {
    PlaceCases(p, y);
    PlacesListed(p);
    if y == p.mean0 { FeedsReaders(g, y, p.sub0, p.mul2, x); }
    else if y == p.mul0 { FeedsReaders(g, y, p.mul1, p.mul2, x); }
    else if y == p.sub0 { FeedsReaders(g, y, p.pow, p.pow, x); }
    else if y == p.pow { FeedsReaders(g, y, p.mean1, p.mean1, x); }
    else if y == p.mean1 { FeedsReaders(g, y, p.add0, p.add0, x); }
    else if y == p.add0 { FeedsReaders(g, y, p.rsqrt, p.rsqrt, x); }
    else if y == p.rsqrt { FeedsReaders(g, y, p.mul0, p.mul0, x); }
    else if y == p.mul1 { FeedsReaders(g, y, p.add1, p.add1, x); }
    else if y == p.mul2 { FeedsReaders(g, y, p.sub1, p.sub1, x); }
    else { FeedsReaders(g, y, p.add1, p.add1, x); }
  }

  lemma PlaceFacts(g: Graph, constants: set<Tensor>, rank: Op -> nat, p: Pattern, s: Tensor, y: Op)
    requires LiveLinked(g, constants) && Ordered(g, rank) && Diagram(g, p) && Operands(g, p, s) && y in Places(p)
    ensures y in g.ops && y in g.node && g.node[y].outputs != [] && g.node[y].inputs != []
    ensures y != p.add1 ==> |g.node[y].outputs| == 1
    ensures rank(y) <= rank(p.add1)
  {
    PlaceCases(p, y);
    RanksIncrease(g, constants, rank, p);
  }

  lemma ShapeIsOps(g: Graph, constants: set<Tensor>, rank: Op -> nat, p: Pattern, s: Tensor)
    requires LiveLinked(g, constants) && Ordered(g, rank) && Diagram(g, p) && Operands(g, p, s)
    ensures IsOps(g, Places(p))
  {
    var n := Places(p);
    forall i | 0 <= i < 11 ensures n[i] in g.ops && g.node[n[i]].outputs != [] {
      PlaceFacts(g, constants, rank, p, s, n[i]);
    }
  }

  lemma InteriorWriter(g: Graph, constants: set<Tensor>, rank: Op -> nat, p: Pattern, s: Tensor, t: Tensor)
    requires LiveLinked(g, constants) && Ordered(g, rank) && Diagram(g, p) && Operands(g, p, s) && Interior(g, p, t)
    ensures t in g.producer && g.producer[t] in g.ops && |g.node[g.producer[t]].outputs| == 1
  {
    var y :| y in Places(p) && y != p.add1 && y in g.node && g.node[y].outputs != [] && t == Out(g, y);
    PlaceFacts(g, constants, rank, p, s, y);
    WriterIs(g, y, t);
  }

  /** The producer of a swept tensor writes one tensor only. */
  lemma SweptWritesOne(g: Graph, rank: Op -> nat, constants: set<Tensor>, p: Pattern, s: Tensor, i: nat, t: Tensor)
    requires LiveLinked(g, constants) && Ordered(g, rank) && Diagram(g, p) && Operands(g, p, s)
    requires IsOps(g, Places(p)) && SidesPrivate(g, constants, p)
    requires Sweeps(i) && t in g.node[Places(p)[i]].inputs && t !in constants && t in g.producer
    ensures g.producer[t] in g.ops && |g.node[g.producer[t]].outputs| == 1
  {
    if Interior(g, p, t) {
      InteriorWriter(g, constants, rank, p, s, t);
    } else {
      SweptIsPrivate(g, constants, p, i, t);
    }
  }

  /** What goes writes one tensor only, Add1 excepted. */
  lemma GoneWritesOne(g: Graph, rank: Op -> nat, constants: set<Tensor>, p: Pattern, s: Tensor, o: Op)
    requires LiveLinked(g, constants) && Ordered(g, rank) && Diagram(g, p) && Operands(g, p, s)
    requires IsOps(g, Places(p)) && SidesPrivate(g, constants, p)
    requires o in g.ops && Gone(g, constants, Places(p), o) && o != p.add1
    ensures |g.node[o].outputs| == 1
  {
    var n := Places(p);
    if o in n {
      PlaceFacts(g, constants, rank, p, s, o);
    } else {
      var i: nat, t: Tensor :| Sweeps(i) && t in g.node[n[i]].inputs && t !in constants && t in g.producer && g.producer[t] == o;
      SweptWritesOne(g, rank, constants, p, s, i, t);
    }
  }

  lemma InteriorIsUnshared(g: Graph, p: Pattern, t: Tensor, x: Op)
    requires Diagram(g, p) && Interior(g, p, t) && x in ConsumersOf(g, t)
    ensures x in Places(p)
  {
    var y :| y in Places(p) && y != p.add1 && y in g.node && g.node[y].outputs != [] && t == Out(g, y);
    InteriorReaders(g, p, y, x);
  }

  lemma SweptIsPrivate(g: Graph, constants: set<Tensor>, p: Pattern, i: nat, t: Tensor)
    requires Kinds(g, p) && IsOps(g, Places(p)) && SidesPrivate(g, constants, p)
    requires Sweeps(i) && t in g.node[Places(p)[i]].inputs && t !in constants && !Interior(g, p, t)
    ensures SidePrivate(g, Places(p), t)
  {
  }

  lemma SweptIsUnshared(g: Graph, constants: set<Tensor>, p: Pattern, i: nat, t: Tensor, x: Op)
    requires Diagram(g, p) && IsOps(g, Places(p)) && SidesPrivate(g, constants, p)
    requires Sweeps(i) && t in g.node[Places(p)[i]].inputs && t !in constants && x in g.ops && x in ConsumersOf(g, t)
    ensures x in Places(p)
  {
    if Interior(g, p, t) {
      InteriorIsUnshared(g, p, t, x);
    } else {
      SweptIsPrivate(g, constants, p, i, t);
    }
  }

  lemma SweptAreUnshared(g: Graph, constants: set<Tensor>, p: Pattern)
    requires Diagram(g, p) && IsOps(g, Places(p)) && SidesPrivate(g, constants, p)
    ensures SweptUnshared(g, constants, Places(p))
  {
    var n := Places(p);
    forall i: nat, t: Tensor, x: Op | Sweeps(i) && t in g.node[n[i]].inputs && t !in constants && x in g.ops && x in ConsumersOf(g, t)
      ensures Gone(g, constants, n, x)
    {
      SweptIsUnshared(g, constants, p, i, t, x);
    }
  }

  lemma ResultsAreApart(g: Graph, constants: set<Tensor>, rank: Op -> nat, p: Pattern, s: Tensor)
    requires LiveLinked(g, constants) && Ordered(g, rank) && Diagram(g, p) && Operands(g, p, s) && IsOps(g, Places(p))
    ensures ResultsApart(g, Places(p))
  {
    forall y | y in Places(p) && y in g.node ensures ReadsApart(g, y, p.add1) {
      ReadsBelow(g, constants, rank, p, s, y);
    }
  }

  lemma ReadsBelow(g: Graph, constants: set<Tensor>, rank: Op -> nat, p: Pattern, s: Tensor, y: Op)
    requires LiveLinked(g, constants) && Ordered(g, rank) && Diagram(g, p) && Operands(g, p, s)
    requires y in Places(p) && y in g.node
    ensures p.add1 in g.node && ReadsApart(g, y, p.add1)
  {
    PlaceFacts(g, constants, rank, p, s, y);
    RankedApart(g, rank, y, p.add1);
  }

  lemma RankedApart(g: Graph, rank: Op -> nat, y: Op, add1: Op)
    requires HasNodes(g) && Ordered(g, rank) && y in g.ops && add1 in g.ops && rank(y) <= rank(add1)
    requires g.node[y].inputs != []
    ensures ReadsApart(g, y, add1)
  {
    forall t | t in g.node[y].inputs ensures t !in g.node[y].outputs && t !in g.node[add1].outputs {
      assert t in g.node[y].outputs ==> rank(y) < rank(y);
      assert t in g.node[add1].outputs ==> rank(add1) < rank(y);
    }
  }

  /** An accepted match with private side inputs can be cut out cleanly. */
  lemma MatchIsCuttable(g: Graph, rank: Op -> nat, constants: set<Tensor>, p: Pattern, s: Tensor)
    requires LiveLinked(g, constants) && Ordered(g, rank) && Diagram(g, p) && NoDuplicates(Places(p)) && Operands(g, p, s)
    requires SidesPrivate(g, constants, p)
    ensures Cuttable(g, constants, Places(p))
  {
    ShapeIsOps(g, constants, rank, p, s);
    SweptAreUnshared(g, constants, p);
    ResultsAreApart(g, constants, rank, p, s);
    forall o | o in g.ops && Gone(g, constants, Places(p), o) && o != p.add1 ensures |g.node[o].outputs| == 1 {
      GoneWritesOne(g, rank, constants, p, s, o);
    }
  }

  /** The places that sweep, by name. */
  lemma SweepsByName(p: Pattern, ys: seq<Op>)
    requires ys == [p.mul2, p.pow, p.mean1, p.add0, p.rsqrt, p.mul0, p.sub1]
    ensures (forall i: nat | Sweeps(i) :: Places(p)[i] in ys) && (forall y | y in ys :: exists i: nat :: Sweeps(i) && Places(p)[i] == y)
  {
    forall y | y in ys ensures exists i: nat :: Sweeps(i) && Places(p)[i] == y {
      var i: nat :| i in {MUL_2, POW_0, MEAN_1, ADD_0, RSQRT_0, MUL_0, SUB_1} && Places(p)[i] == y;
      assert Sweeps(i);
    }
  }

  lemma SweptByOneOf(g: Graph, constants: set<Tensor>, n: seq<Op>, ys: seq<Op>, o: Op)
    requires WritersAgree(g) && IsOps(g, n) && o in g.ops
    requires (forall i: nat | Sweeps(i) :: n[i] in ys) && (forall y | y in ys :: exists i: nat :: Sweeps(i) && n[i] == y)
    ensures SweptBy(g, constants, n, o) <==>
            exists y, t: Tensor :: y in ys && y in g.node && t in g.node[y].inputs && t !in constants && t in g.node[o].outputs
  {
    if i: nat, t: Tensor :| Sweeps(i) && t in g.node[n[i]].inputs && t !in constants && t in g.producer && g.producer[t] == o {
      assert n[i] in g.node && t in g.node[o].outputs;
    }
    if y, t: Tensor :| y in ys && y in g.node && t in g.node[y].inputs && t !in constants && t in g.node[o].outputs {
      var i: nat :| Sweeps(i) && n[i] == y;
      assert t in g.producer && g.producer[t] == o;
    }
  }

  /** Besides the pattern go exactly the operations that write a tensor, no constant, which one of
      seven places reads. */
  lemma GoneExactly(g: Graph, constants: set<Tensor>, p: Pattern, o: Op)
    requires WritersAgree(g) && IsOps(g, Places(p)) && o in g.ops && o !in Places(p)
    ensures Gone(g, constants, Places(p), o) <==>
            exists y, t: Tensor :: y in [p.mul2, p.pow, p.mean1, p.add0, p.rsqrt, p.mul0, p.sub1]
                                   && y in g.node && t in g.node[y].inputs && t !in constants && t in g.node[o].outputs
  {
    var ys := [p.mul2, p.pow, p.mean1, p.add0, p.rsqrt, p.mul0, p.sub1];
    SweepsByName(p, ys);
    SweptByOneOf(g, constants, Places(p), ys, o);
    hide WritersAgree; hide SweptBy; hide IsOps;
  }

  /** A constant whose readers are forgotten is one that a place other than the last addition reads. */
  lemma SpoiledExactly(g: Graph, constants: set<Tensor>, p: Pattern, t: Tensor)
    requires IsOps(g, Places(p))
    ensures Spoiled(g, constants, Places(p), t) <==>
            t in constants
            && exists y :: y in [p.mean0, p.sub0, p.mul2, p.pow, p.mean1, p.add0, p.rsqrt, p.mul0, p.mul1, p.sub1]
                           && y in g.node && t in g.node[y].inputs
  {
    var n := Places(p);
    if i: nat :| i < 11 && i != ADD_1 && t in g.node[n[i]].inputs {
      assert n[i] in [p.mean0, p.sub0, p.mul2, p.pow, p.mean1, p.add0, p.rsqrt, p.mul0, p.mul1, p.sub1];
    }
    if y :| y in [p.mean0, p.sub0, p.mul2, p.pow, p.mean1, p.add0, p.rsqrt, p.mul0, p.mul1, p.sub1]
            && y in g.node && t in g.node[y].inputs {
      var i: nat :| i in {MEAN_0, SUB_0, MUL_2, POW_0, MEAN_1, ADD_0, RSQRT_0, MUL_0, MUL_1, SUB_1} && n[i] == y;
      assert i != ADD_1;
    }
  }
}
