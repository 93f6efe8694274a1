/** Recognising the eleven-operation normalisation pattern.  A match is a vector of
    operations filled from the front; the index of an operation in it says which place of
    the pattern it takes. */
module FusionMatch {
  import opened GraphModel

  // Operation kinds, as the driver numbers them.
  const ADD: int := 0
  const MULTIPLY: int := 1
  const SUBTRACT: int := 34
  const RSQRT: int := 39
  const REDUCE: int := 59
  const POW: int := 73

  // Places of the pattern.
  const MEAN_0: nat := 0
  const SUB_0: nat := 1
  const MUL_2: nat := 2
  const POW_0: nat := 3
  const MEAN_1: nat := 4
  const ADD_0: nat := 5
  const RSQRT_0: nat := 6
  const MUL_0: nat := 7
  const MUL_1: nat := 8
  const ADD_1: nat := 9
  const SUB_1: nat := 10

  /** Every operation has a node and at least one output, and consumer lists name nodes. */
  ghost predicate Wired(g: Graph) {
    && HasNodes(g)
    && (forall t: Tensor, o: Op :: o in ConsumersOf(g, t) ==> o in g.ops)
    && (forall o | o in g.ops :: g.node[o].outputs != [])
  }

  function Kind(g: Graph, o: Op): int
    requires o in g.node
  {
    g.node[o].kind
  }

  function Out(g: Graph, o: Op): Tensor
    requires o in g.node && g.node[o].outputs != []
  {
    g.node[o].outputs[0]
  }

  /** Some listed operation has the kind; a single operation of another kind fails early. */
  predicate OpkindInConsumers(g: Graph, consumers: seq<Op>, kind: int)
    requires forall o | o in consumers :: o in g.node
  {
    !(|consumers| == 1 && Kind(g, consumers[0]) != kind) && exists o :: o in consumers && Kind(g, o) == kind
  }

  /** Extend the vector by the consumers of one of its operations, which must be as many as
      the kinds asked for, in the order of those kinds. */
  function Extend(g: Graph, temp: seq<Op>, index: nat, kinds: seq<int>): (r: Option<seq<Op>>)
    requires Wired(g) && index < |temp| && forall o | o in temp :: o in g.ops
    requires kinds != []
    ensures r.Some? ==> forall o | o in r.value :: o in g.ops
  {
    var outputs := g.node[temp[index]].outputs;
    var ops := ConsumersOf(g, outputs[0]);
    if |outputs| > 1 || |ops| != |kinds| || |kinds| > 2 then None
    else if exists k | 0 <= k < |kinds| :: !OpkindInConsumers(g, ops, kinds[k]) then None
    else if |kinds| == 2 then
      var first := if Kind(g, ops[0]) == kinds[0] then 0 else 1;
      Some(temp + [ops[first]] + [ops[1 - first]])
    else Some(temp + [ops[0]])
  }

  predicate OpInConsumer(g: Graph, current: Op, compared: Op)
    requires current in g.node && g.node[current].outputs != []
  {
    compared in ConsumersOf(g, Out(g, current))
  }

  /** Mul0 must feed exactly two multiplications, one of them Mul2; the other is Mul1. */
  function CheckMul0(g: Graph, ops: seq<Op>): (r: Option<seq<Op>>)
    requires Wired(g) && |ops| == 8 && forall o | o in ops :: o in g.ops
    ensures r.Some? ==> |r.value| == 9 && forall o | o in r.value :: o in g.ops
  {
    var outputs := g.node[ops[MUL_0]].outputs;
    var consumers := ConsumersOf(g, outputs[0]);
    if |outputs| > 1 || |consumers| != 2 || Kind(g, consumers[0]) != MULTIPLY || Kind(g, consumers[1]) != MULTIPLY
    then None
    else if !OpInConsumer(g, ops[MUL_0], ops[MUL_2]) then None
    else Some(ops + [consumers[if consumers[0] == ops[MUL_2] then 1 else 0]])
  }

  /** Whether Sub0 and Mul1 have an input in common.  What Mean0 reads is not looked at. */
  predicate SharesInput(g: Graph, ops: seq<Op>)
    requires |ops| > MUL_1 && ops[SUB_0] in g.node && ops[MUL_1] in g.node
  {
    exists t :: t in g.node[ops[SUB_0]].inputs && t in g.node[ops[MUL_1]].inputs
  }

  datatype Match = NoMatch | Found(ops: seq<Op>) | ReadsPastEnd

  /** The checks on Sub1: one output, at most one consumer, and that consumer is an addition.
      With no consumer at all the code reads the first element of an empty list. */
  function CheckSub1(g: Graph, ops: seq<Op>): Match
    requires Wired(g) && |ops| == 11 && forall o | o in ops :: o in g.ops
  {
    var outputs := g.node[ops[SUB_1]].outputs;
    var consumers := ConsumersOf(g, outputs[0]);
    if |outputs| >= 2 || |consumers| > 1 then NoMatch
    else if consumers == [] then ReadsPastEnd
    else if Kind(g, consumers[0]) != ADD then NoMatch
    else if !OpInConsumer(g, ops[SUB_1], ops[ADD_1]) then NoMatch
    else Found(ops)
  }

  function Then(g: Graph, temp: Option<seq<Op>>, size: nat, index: nat, kinds: seq<int>): (r: Option<seq<Op>>)
    requires Wired(g) && index < size && (temp.Some? ==> |temp.value| == size && forall o | o in temp.value :: o in g.ops)
    requires |kinds| == 1 || |kinds| == 2
    ensures r.Some? ==> |r.value| == size + |kinds| && forall o | o in r.value :: o in g.ops
  {
    if temp.None? then None else Extend(g, temp.value, index, kinds)
  }

  /** Pow and Mean1, following Sub0. */
  function MatchSquare(g: Graph, temp: Option<seq<Op>>): (r: Option<seq<Op>>)
    requires Wired(g) && (temp.Some? ==> |temp.value| == 3 && forall o | o in temp.value :: o in g.ops)
    ensures r.Some? ==> |r.value| == 5 && forall o | o in r.value :: o in g.ops
  {
    Then(g, Then(g, temp, 3, SUB_0, [POW]), 4, POW_0, [REDUCE])
  }

  /** Add0, Rsqrt and Mul0, following Mean1. */
  function MatchRest(g: Graph, temp: Option<seq<Op>>): (r: Option<seq<Op>>)
    requires Wired(g) && (temp.Some? ==> |temp.value| == 5 && forall o | o in temp.value :: o in g.ops)
    ensures r.Some? ==> |r.value| == 8 && forall o | o in r.value :: o in g.ops
  {
    var t4 := Then(g, temp, 5, MEAN_1, [ADD]);
    var t5 := Then(g, t4, 6, ADD_0, [RSQRT]);
    Then(g, t5, 7, RSQRT_0, [MULTIPLY])
  }

  /** The operations up to Mul0, starting from a reduction. */
  function MatchStem(g: Graph, op: Op): (r: Option<seq<Op>>)
    requires Wired(g) && op in g.ops
    ensures r.Some? ==> |r.value| == 8 && forall o | o in r.value :: o in g.ops
  {
    if Kind(g, op) != REDUCE then None
    else
      var t1 := Then(g, Some([op]), 1, MEAN_0, [SUBTRACT, MULTIPLY]);
      MatchRest(g, MatchSquare(g, t1))
  }

  /** Mul1, Add1 and Sub1. */
  function MatchTail(g: Graph, stem: seq<Op>): Match
    requires Wired(g) && |stem| == 8 && forall o | o in stem :: o in g.ops
  {
    var m := CheckMul0(g, stem);
    if m.None? then NoMatch
    else if !SharesInput(g, m.value) then NoMatch
    else
      var t1 := Then(g, m, 9, MUL_1, [ADD]);
      var t2 := Then(g, t1, 10, MUL_2, [SUBTRACT]);
      if t2.None? then NoMatch else CheckSub1(g, t2.value)
  }

  /** The whole matcher. */
  function MatchPattern(g: Graph, op: Op): Match
    requires Wired(g) && op in g.ops
  {
    var stem := MatchStem(g, op);
    if stem.None? then NoMatch else MatchTail(g, stem.value)
  }

  // ---- the pattern ----

  /** A full vector of listed operations. */
  ghost predicate IsOps(g: Graph, n: seq<Op>) {
    |n| == 11 && HasNodes(g) && forall i | 0 <= i < 11 :: n[i] in g.ops && g.node[n[i]].outputs != []
  }

  /** The places of a full vector by name. */
  datatype Pattern = Pattern(
    mean0: Op, sub0: Op, mul2: Op, pow: Op, mean1: Op, add0: Op,
    rsqrt: Op, mul0: Op, mul1: Op, add1: Op, sub1: Op)

  function Places(p: Pattern): (n: seq<Op>)
    ensures |n| == 11
    ensures n[MEAN_0] == p.mean0 && n[SUB_0] == p.sub0 && n[MUL_2] == p.mul2 && n[POW_0] == p.pow
    ensures n[MEAN_1] == p.mean1 && n[ADD_0] == p.add0 && n[RSQRT_0] == p.rsqrt && n[MUL_0] == p.mul0
    ensures n[MUL_1] == p.mul1 && n[ADD_1] == p.add1 && n[SUB_1] == p.sub1
  {
    [p.mean0, p.sub0, p.mul2, p.pow, p.mean1, p.add0, p.rsqrt, p.mul0, p.mul1, p.add1, p.sub1]
  }

  /** The first eight places. */
  function StemPlaces(p: Pattern): (n: seq<Op>)
    ensures |n| == 8
    ensures n[SUB_0] == p.sub0 && n[MUL_2] == p.mul2 && n[MUL_0] == p.mul0
    ensures n + [p.mul1, p.add1, p.sub1] == Places(p)
    ensures forall o :: o in n <==> o in {p.mean0, p.sub0, p.mul2, p.pow, p.mean1, p.add0, p.rsqrt, p.mul0}
  {
    [p.mean0, p.sub0, p.mul2, p.pow, p.mean1, p.add0, p.rsqrt, p.mul0]
  }

  ghost predicate Listed(g: Graph, o: Op, kind: int) {
    o in g.ops && o in g.node && g.node[o].outputs != [] && Kind(g, o) == kind
  }

  /** a has one output, read once, by b. */
  ghost predicate Feeds(g: Graph, a: Op, b: Op) {
    a in g.node && |g.node[a].outputs| == 1 && ConsumersOf(g, Out(g, a)) == [b]
  }

  /** a has one output, read by b and c, once each. */
  ghost predicate FeedsTwo(g: Graph, a: Op, b: Op, c: Op) {
    a in g.node && |g.node[a].outputs| == 1 && multiset(ConsumersOf(g, Out(g, a))) == multiset{b, c}
  }

  /** Every place holds a listed operation of its kind. */
  ghost predicate Kinds(g: Graph, p: Pattern) {
    && Listed(g, p.mean0, REDUCE) && Listed(g, p.sub0, SUBTRACT) && Listed(g, p.mul2, MULTIPLY)
    && Listed(g, p.pow, POW) && Listed(g, p.mean1, REDUCE) && Listed(g, p.add0, ADD)
    && Listed(g, p.rsqrt, RSQRT) && Listed(g, p.mul0, MULTIPLY) && Listed(g, p.mul1, MULTIPLY)
    && Listed(g, p.add1, ADD) && Listed(g, p.sub1, SUBTRACT)
  }

  /** The shape of the pattern: kinds, interior edges and nothing else on them, one output
      each (the last addition excepted, whose output is not looked at), and a common input
      of Sub0 and Mul1. */
  ghost predicate Diagram(g: Graph, p: Pattern) {
    && Kinds(g, p)
    && FeedsTwo(g, p.mean0, p.sub0, p.mul2)
    && Feeds(g, p.sub0, p.pow) && Feeds(g, p.pow, p.mean1) && Feeds(g, p.mean1, p.add0)
    && Feeds(g, p.add0, p.rsqrt) && Feeds(g, p.rsqrt, p.mul0)
    && FeedsTwo(g, p.mul0, p.mul1, p.mul2)
    && Feeds(g, p.mul1, p.add1) && Feeds(g, p.mul2, p.sub1) && Feeds(g, p.sub1, p.add1)
    && (exists t :: t in g.node[p.sub0].inputs && t in g.node[p.mul1].inputs)
  }

  lemma ExtendOne(g: Graph, temp: seq<Op>, index: nat, kind: int) returns (x: Op)
    requires Wired(g) && index < |temp| && forall o | o in temp :: o in g.ops
    requires Extend(g, temp, index, [kind]).Some?
    ensures Extend(g, temp, index, [kind]) == Some(temp + [x])
    ensures Feeds(g, temp[index], x) && Listed(g, x, kind)
  {
    x := ConsumersOf(g, Out(g, temp[index]))[0];
    assert OpkindInConsumers(g, ConsumersOf(g, Out(g, temp[index])), [kind][0]);
  }

  lemma ExtendTwo(g: Graph, temp: seq<Op>, index: nat, first: int, second: int) returns (x: Op, y: Op)
    requires Wired(g) && index < |temp| && forall o | o in temp :: o in g.ops
    requires first != second && Extend(g, temp, index, [first, second]).Some?
    ensures Extend(g, temp, index, [first, second]) == Some(temp + [x] + [y])
    ensures FeedsTwo(g, temp[index], x, y) && Listed(g, x, first) && Listed(g, y, second)
  {
    var ops := ConsumersOf(g, Out(g, temp[index]));
    var kinds := [first, second];
    assert OpkindInConsumers(g, ops, kinds[0]) && OpkindInConsumers(g, ops, kinds[1]);
    assert ops == [ops[0], ops[1]];
    var a :| a in ops && Kind(g, a) == first;
    var b :| b in ops && Kind(g, b) == second;
    x, y := a, b;
  }

  /** The front of the pattern, up to Mul0. */
  ghost predicate Stem(g: Graph, p: Pattern) {
    && Listed(g, p.mean0, REDUCE) && Listed(g, p.sub0, SUBTRACT) && Listed(g, p.mul2, MULTIPLY)
    && Listed(g, p.pow, POW) && Listed(g, p.mean1, REDUCE) && Listed(g, p.add0, ADD)
    && Listed(g, p.rsqrt, RSQRT) && Listed(g, p.mul0, MULTIPLY)
    && FeedsTwo(g, p.mean0, p.sub0, p.mul2)
    && Feeds(g, p.sub0, p.pow) && Feeds(g, p.pow, p.mean1) && Feeds(g, p.mean1, p.add0)
    && Feeds(g, p.add0, p.rsqrt) && Feeds(g, p.rsqrt, p.mul0)
  }

  lemma ThenOne(g: Graph, temp: seq<Op>, index: nat, kind: int) returns (x: Op)
    requires Wired(g) && index < |temp| && forall o | o in temp :: o in g.ops
    requires Then(g, Some(temp), |temp|, index, [kind]).Some?
    ensures Then(g, Some(temp), |temp|, index, [kind]) == Some(temp + [x])
    ensures Feeds(g, temp[index], x) && Listed(g, x, kind)
  {
    x := ExtendOne(g, temp, index, kind);
  }

  lemma FirstThree(g: Graph, op: Op) returns (sub0: Op, mul2: Op)
    requires Wired(g) && op in g.ops && Then(g, Some([op]), 1, MEAN_0, [SUBTRACT, MULTIPLY]).Some?
    ensures Then(g, Some([op]), 1, MEAN_0, [SUBTRACT, MULTIPLY]) == Some([op, sub0, mul2])
    ensures FeedsTwo(g, op, sub0, mul2) && Listed(g, sub0, SUBTRACT) && Listed(g, mul2, MULTIPLY)
  {
    sub0, mul2 := ExtendTwo(g, [op], MEAN_0, SUBTRACT, MULTIPLY);
    assert [op] + [sub0] + [mul2] == [op, sub0, mul2];
  }

  lemma StemSound(g: Graph, op: Op) returns (p: Pattern)
    requires Wired(g) && op in g.ops && MatchStem(g, op).Some?
    ensures p.mean0 == op && Stem(g, p) && MatchStem(g, op) == Some(StemPlaces(p))
  {
    var sub0, mul2 := FirstThree(g, op);
    var t1 := [op, sub0, mul2];
    var pow, mean1 := SquareSound(g, t1);
    var t3 := [op, sub0, mul2, pow, mean1];
    assert t1 + [pow, mean1] == t3;
    var add0, rsqrt, mul0 := StemRest(g, t3);
    p := Pattern(op, sub0, mul2, pow, mean1, add0, rsqrt, mul0, 0, 0, 0);
    assert t3 + [add0, rsqrt, mul0] == StemPlaces(p);
  }

  lemma SquareSound(g: Graph, t1: seq<Op>) returns (pow: Op, mean1: Op)
    requires Wired(g) && |t1| == 3 && forall o | o in t1 :: o in g.ops
    requires MatchSquare(g, Some(t1)).Some?
    ensures MatchSquare(g, Some(t1)) == Some(t1 + [pow, mean1])
    ensures Feeds(g, t1[SUB_0], pow) && Feeds(g, pow, mean1) && Listed(g, pow, POW) && Listed(g, mean1, REDUCE)
  {
    pow := ThenOne(g, t1, SUB_0, POW);
    var t2 := t1 + [pow];
    mean1 := ThenOne(g, t2, POW_0, REDUCE);
    assert t2 + [mean1] == t1 + [pow, mean1];
  }

  /** The second half of the stem. */
  lemma StemRest(g: Graph, t3: seq<Op>) returns (add0: Op, rsqrt: Op, mul0: Op)
    requires Wired(g) && |t3| == 5 && forall o | o in t3 :: o in g.ops
    requires MatchRest(g, Some(t3)).Some?
    ensures MatchRest(g, Some(t3)) == Some(t3 + [add0, rsqrt, mul0])
    ensures Feeds(g, t3[MEAN_1], add0) && Feeds(g, add0, rsqrt) && Feeds(g, rsqrt, mul0)
    ensures Listed(g, add0, ADD) && Listed(g, rsqrt, RSQRT) && Listed(g, mul0, MULTIPLY)
  {
    add0 := ThenOne(g, t3, MEAN_1, ADD);
    var t4 := t3 + [add0];
    rsqrt := ThenOne(g, t4, ADD_0, RSQRT);
    var t5 := t4 + [rsqrt];
    mul0 := ThenOne(g, t5, RSQRT_0, MULTIPLY);
    assert t5 + [mul0] == t3 + [add0, rsqrt, mul0];
  }

  lemma CheckMul0Sound(g: Graph, n: seq<Op>) returns (mul1: Op)
    requires Wired(g) && |n| == 8 && (forall o | o in n :: o in g.ops) && CheckMul0(g, n).Some?
    ensures CheckMul0(g, n) == Some(n + [mul1])
    ensures FeedsTwo(g, n[MUL_0], mul1, n[MUL_2]) && Listed(g, mul1, MULTIPLY)
  {
    var consumers := ConsumersOf(g, Out(g, n[MUL_0]));
    assert consumers == [consumers[0], consumers[1]];
    mul1 := consumers[if consumers[0] == n[MUL_2] then 1 else 0];
    assert mul1 in consumers;
  }

  /** The three places after Mul0. */
  lemma TailSound(g: Graph, n: seq<Op>) returns (mul1: Op, add1: Op, sub1: Op)
    requires Wired(g) && |n| == 8 && forall o | o in n :: o in g.ops
    requires MatchTail(g, n).Found?
    ensures MatchTail(g, n) == Found(n + [mul1, add1, sub1])
    ensures FeedsTwo(g, n[MUL_0], mul1, n[MUL_2]) && Feeds(g, mul1, add1) && Feeds(g, n[MUL_2], sub1) && Feeds(g, sub1, add1)
    ensures Listed(g, mul1, MULTIPLY) && Listed(g, add1, ADD) && Listed(g, sub1, SUBTRACT)
    ensures exists t :: t in g.node[n[SUB_0]].inputs && t in g.node[mul1].inputs
  {
    mul1 := CheckMul0Sound(g, n);
    var m := n + [mul1];
    add1 := ThenOne(g, m, MUL_1, ADD);
    var t1 := m + [add1];
    sub1 := ThenOne(g, t1, MUL_2, SUBTRACT);
    assert t1 + [sub1] == n + [mul1, add1, sub1];
  }

  /** Every accepted match has the shape of the diagram. */
  lemma MatchHasShape(g: Graph, op: Op) returns (p: Pattern)
    requires Wired(g) && op in g.ops && MatchPattern(g, op).Found?
    ensures MatchPattern(g, op) == Found(Places(p)) && p.mean0 == op && Diagram(g, p)
  {
    var q := StemSound(g, op);
    var mul1, add1, sub1 := TailSound(g, StemPlaces(q));
    p := q.(mul1 := mul1, add1 := add1, sub1 := sub1);
    assert StemPlaces(p) == StemPlaces(q);
  }

  // ---- completeness ----

  lemma PairOf(ops: seq<Op>, x: Op, y: Op)
    requires multiset(ops) == multiset{x, y}
    ensures ops == [x, y] || ops == [y, x]
  {
    assert |multiset(ops)| == 2;
    assert ops == [ops[0], ops[1]];
    assert x in multiset(ops) && y in multiset(ops);
    if ops[0] == ops[1] {
      assert multiset{ops[0], ops[1]}[ops[0]] == 2;
    }
  }

  lemma ExtendsByTwo(g: Graph, temp: seq<Op>, index: nat, first: int, second: int, x: Op, y: Op)
    requires Wired(g) && index < |temp| && forall o | o in temp :: o in g.ops
    requires FeedsTwo(g, temp[index], x, y) && Listed(g, x, first) && Listed(g, y, second) && first != second
    ensures Then(g, Some(temp), |temp|, index, [first, second]) == Some(temp + [x] + [y])
  {
    var ops := ConsumersOf(g, Out(g, temp[index]));
    PairOf(ops, x, y);
    assert OpkindInConsumers(g, ops, first) && OpkindInConsumers(g, ops, second);
    assert forall k | 0 <= k < |[first, second]| :: [first, second][k] == first || [first, second][k] == second;
  }

  lemma StemComplete(g: Graph, p: Pattern)
    requires Wired(g) && Stem(g, p)
    ensures MatchStem(g, p.mean0) == Some(StemPlaces(p))
  {
    ExtendsByTwo(g, [p.mean0], MEAN_0, SUBTRACT, MULTIPLY, p.sub0, p.mul2);
    var t1 := [p.mean0, p.sub0, p.mul2];
    assert [p.mean0] + [p.sub0] + [p.mul2] == t1;
    SquareComplete(g, t1, p.pow, p.mean1);
    var t3 := [p.mean0, p.sub0, p.mul2, p.pow, p.mean1];
    assert t1 + [p.pow, p.mean1] == t3;
    RestComplete(g, t3, p.add0, p.rsqrt, p.mul0);
    assert t3 + [p.add0, p.rsqrt, p.mul0] == StemPlaces(p);
  }

  lemma SquareComplete(g: Graph, t1: seq<Op>, pow: Op, mean1: Op)
    requires Wired(g) && |t1| == 3 && forall o | o in t1 :: o in g.ops
    requires Feeds(g, t1[SUB_0], pow) && Feeds(g, pow, mean1) && Listed(g, pow, POW) && Listed(g, mean1, REDUCE)
    ensures MatchSquare(g, Some(t1)) == Some(t1 + [pow, mean1])
  {
    assert t1 + [pow] + [mean1] == t1 + [pow, mean1];
  }

  lemma RestComplete(g: Graph, t3: seq<Op>, add0: Op, rsqrt: Op, mul0: Op)
    requires Wired(g) && |t3| == 5 && forall o | o in t3 :: o in g.ops
    requires Feeds(g, t3[MEAN_1], add0) && Feeds(g, add0, rsqrt) && Feeds(g, rsqrt, mul0)
    requires Listed(g, add0, ADD) && Listed(g, rsqrt, RSQRT) && Listed(g, mul0, MULTIPLY)
    ensures MatchRest(g, Some(t3)) == Some(t3 + [add0, rsqrt, mul0])
  {
    assert t3 + [add0] + [rsqrt] + [mul0] == t3 + [add0, rsqrt, mul0];
  }

  lemma Mul1Found(g: Graph, stem: seq<Op>, mul1: Op)
    requires Wired(g) && |stem| == 8 && forall o | o in stem :: o in g.ops
    requires FeedsTwo(g, stem[MUL_0], mul1, stem[MUL_2]) && Listed(g, mul1, MULTIPLY) && Listed(g, stem[MUL_2], MULTIPLY)
    ensures CheckMul0(g, stem) == Some(stem + [mul1])
  {
    PairOf(ConsumersOf(g, Out(g, stem[MUL_0])), mul1, stem[MUL_2]);
  }

  lemma TailComplete(g: Graph, stem: seq<Op>, mul1: Op, add1: Op, sub1: Op)
    requires Wired(g) && |stem| == 8 && forall o | o in stem :: o in g.ops
    requires FeedsTwo(g, stem[MUL_0], mul1, stem[MUL_2]) && Listed(g, mul1, MULTIPLY) && Listed(g, stem[MUL_2], MULTIPLY)
    requires Feeds(g, mul1, add1) && Feeds(g, stem[MUL_2], sub1) && Feeds(g, sub1, add1)
    requires Listed(g, add1, ADD) && Listed(g, sub1, SUBTRACT)
    requires exists t :: t in g.node[stem[SUB_0]].inputs && t in g.node[mul1].inputs
    ensures MatchTail(g, stem) == Found(stem + [mul1, add1, sub1])
  {
    Mul1Found(g, stem, mul1);
    assert stem + [mul1] + [add1] + [sub1] == stem + [mul1, add1, sub1];
    assert ConsumersOf(g, Out(g, sub1)) == [add1];
  }

  /** The matcher accepts exactly the operations that stand at the top of the diagram, with
      the eleven operations in their places. */
  lemma MatchExactlyDiagram(g: Graph, p: Pattern)
    requires Wired(g)
    ensures p.mean0 in g.ops && MatchPattern(g, p.mean0) == Found(Places(p)) <==> Diagram(g, p)
  {
    if Diagram(g, p) {
      StemComplete(g, p);
      assert StemPlaces(p)[SUB_0] == p.sub0;
      TailComplete(g, StemPlaces(p), p.mul1, p.add1, p.sub1);
    } else if p.mean0 in g.ops && MatchPattern(g, p.mean0) == Found(Places(p)) {
      var q := MatchHasShape(g, p.mean0);
      PlacesDetermine(q, p);
    }
  }

  /** What is accepted, in the driver's numbers: two means, two subtractions, a power, three
      multiplications, two additions and a reciprocal square root. */
  lemma MatchKinds(g: Graph, op: Op)
    requires Wired(g) && op in g.ops && MatchPattern(g, op).Found?
    ensures var n := MatchPattern(g, op).ops;
            && |n| == 11 && n[0] == op && (forall i | 0 <= i < 11 :: n[i] in g.ops && n[i] in g.node)
            && KindsOf(g, n) == [59, 34, 1, 73, 59, 0, 39, 1, 1, 0, 34]
  {
    var p := MatchHasShape(g, op);
    hide *;
    KindsInPlaces(g, p);
  }

  lemma KindsInPlaces(g: Graph, p: Pattern)
    requires Diagram(g, p)
    ensures var n := Places(p);
            |n| == 11 && n[0] == p.mean0 && (forall i | 0 <= i < 11 :: n[i] in g.ops && n[i] in g.node)
            && KindsOf(g, n) == [59, 34, 1, 73, 59, 0, 39, 1, 1, 0, 34]
  {
    var n := Places(p);
    assert n == [p.mean0, p.sub0, p.mul2, p.pow, p.mean1, p.add0, p.rsqrt, p.mul0, p.mul1, p.add1, p.sub1];
    assert Kinds(g, p);
    hide Diagram; hide Places; hide Feeds; hide FeedsTwo;
  }

  /** The kinds of a list of operations. */
  function KindsOf(g: Graph, n: seq<Op>): (r: seq<int>)
    requires forall o | o in n :: o in g.node
    ensures |r| == |n| && forall i | 0 <= i < |n| :: r[i] == Kind(g, n[i])
  {
    seq(|n|, i requires 0 <= i < |n| => Kind(g, n[i]))
  }

  lemma PlacesDetermine(p: Pattern, q: Pattern)
    requires Places(p) == Places(q)
    ensures p == q
  {
    var n := Places(p);
    assert n[MEAN_0] == q.mean0 && n[SUB_0] == q.sub0 && n[MUL_2] == q.mul2 && n[POW_0] == q.pow && n[MEAN_1] == q.mean1;
    assert n[ADD_0] == q.add0 && n[RSQRT_0] == q.rsqrt && n[MUL_0] == q.mul0 && n[MUL_1] == q.mul1;
  }

  // ---- what the matcher does not look at ----

  /** The graphs agree except for the inputs of op. */
  ghost predicate SameBut(g: Graph, h: Graph, op: Op) {
    && h.ops == g.ops && h.consumers == g.consumers && h.node.Keys == g.node.Keys
    && (forall o | o in g.node :: h.node[o].kind == g.node[o].kind && h.node[o].outputs == g.node[o].outputs)
    && (forall o | o in g.node && o != op :: h.node[o].inputs == g.node[o].inputs)
  }

  lemma ExtendSame(g: Graph, h: Graph, op: Op, temp: seq<Op>, index: nat, kinds: seq<int>)
    requires Wired(g) && Wired(h) && SameBut(g, h, op) && index < |temp| && (forall o | o in temp :: o in g.ops) && kinds != []
    ensures Extend(h, temp, index, kinds) == Extend(g, temp, index, kinds)
  {
    var ops := ConsumersOf(g, g.node[temp[index]].outputs[0]);
    forall k | 0 <= k < |kinds| ensures OpkindInConsumers(h, ops, kinds[k]) == OpkindInConsumers(g, ops, kinds[k]) {
    }
    assert (exists k | 0 <= k < |kinds| :: !OpkindInConsumers(h, ops, kinds[k]))
           == exists k | 0 <= k < |kinds| :: !OpkindInConsumers(g, ops, kinds[k]);
  }

  lemma ThenSame(g: Graph, h: Graph, op: Op, temp: Option<seq<Op>>, size: nat, index: nat, kinds: seq<int>)
    requires Wired(g) && Wired(h) && SameBut(g, h, op) && index < size
    requires temp.Some? ==> |temp.value| == size && forall o | o in temp.value :: o in g.ops
    requires |kinds| == 1 || |kinds| == 2
    ensures Then(h, temp, size, index, kinds) == Then(g, temp, size, index, kinds)
  {
    if temp.Some? { ExtendSame(g, h, op, temp.value, index, kinds); }
  }

  lemma StemSame(g: Graph, h: Graph, op: Op)
    requires Wired(g) && Wired(h) && SameBut(g, h, op) && op in g.ops
    ensures MatchStem(h, op) == MatchStem(g, op)
  {
    ThenSame(g, h, op, Some([op]), 1, MEAN_0, [SUBTRACT, MULTIPLY]);
    var t1 := Then(g, Some([op]), 1, MEAN_0, [SUBTRACT, MULTIPLY]);
    if Kind(g, op) == REDUCE {
      SquareSame(g, h, op, t1);
      RestSame(g, h, op, MatchSquare(g, t1));
    }
  }

  lemma SquareSame(g: Graph, h: Graph, op: Op, temp: Option<seq<Op>>)
    requires Wired(g) && Wired(h) && SameBut(g, h, op) && (temp.Some? ==> |temp.value| == 3 && forall o | o in temp.value :: o in g.ops)
    ensures MatchSquare(h, temp) == MatchSquare(g, temp)
  {
    ThenSame(g, h, op, temp, 3, SUB_0, [POW]);
    ThenSame(g, h, op, Then(g, temp, 3, SUB_0, [POW]), 4, POW_0, [REDUCE]);
  }

  lemma RestSame(g: Graph, h: Graph, op: Op, temp: Option<seq<Op>>)
    requires Wired(g) && Wired(h) && SameBut(g, h, op) && (temp.Some? ==> |temp.value| == 5 && forall o | o in temp.value :: o in g.ops)
    ensures MatchRest(h, temp) == MatchRest(g, temp)
  {
    ThenSame(g, h, op, temp, 5, MEAN_1, [ADD]);
    var t4 := Then(g, temp, 5, MEAN_1, [ADD]);
    ThenSame(g, h, op, t4, 6, ADD_0, [RSQRT]);
    ThenSame(g, h, op, Then(g, t4, 6, ADD_0, [RSQRT]), 7, RSQRT_0, [MULTIPLY]);
  }

  lemma EndSame(g: Graph, h: Graph, op: Op, ops: seq<Op>)
    requires Wired(g) && Wired(h) && SameBut(g, h, op) && |ops| == 9 && forall o | o in ops :: o in g.ops
    ensures var t2 := Then(g, Then(g, Some(ops), 9, MUL_1, [ADD]), 10, MUL_2, [SUBTRACT]);
            && Then(h, Then(h, Some(ops), 9, MUL_1, [ADD]), 10, MUL_2, [SUBTRACT]) == t2
            && (t2.Some? ==> CheckSub1(h, t2.value) == CheckSub1(g, t2.value))
  {
    ThenSame(g, h, op, Some(ops), 9, MUL_1, [ADD]);
    ThenSame(g, h, op, Then(g, Some(ops), 9, MUL_1, [ADD]), 10, MUL_2, [SUBTRACT]);
  }

  lemma ForkSame(g: Graph, h: Graph, op: Op, stem: seq<Op>)
    requires Wired(g) && Wired(h) && SameBut(g, h, op) && |stem| == 8 && forall o | o in stem :: o in g.ops
    requires op in g.node && stem[SUB_0] != op && Kind(g, op) == REDUCE
    ensures CheckMul0(h, stem) == CheckMul0(g, stem)
    ensures CheckMul0(g, stem).Some? ==> SharesInput(h, CheckMul0(g, stem).value) == SharesInput(g, CheckMul0(g, stem).value)
  {
    if CheckMul0(g, stem).Some? { var mul1 := CheckMul0Sound(g, stem); }
  }

  lemma TailSame(g: Graph, h: Graph, op: Op, stem: seq<Op>)
    requires Wired(g) && Wired(h) && SameBut(g, h, op) && |stem| == 8 && forall o | o in stem :: o in g.ops
    requires op in g.node && stem[SUB_0] != op && Kind(g, op) == REDUCE
    ensures MatchTail(h, stem) == MatchTail(g, stem)
  {
    hide CheckMul0; hide SharesInput; hide Then; hide CheckSub1;
    var m := CheckMul0(g, stem);
    ForkSame(g, h, op, stem);
    if m.Some? { EndSame(g, h, op, m.value); }
  }

  lemma StemApart(g: Graph, op: Op)
    requires Wired(g) && op in g.ops && MatchStem(g, op).Some?
    ensures MatchStem(g, op).value[SUB_0] != op && op in g.node && Kind(g, op) == REDUCE
  {
    var p := StemSound(g, op);
  }

  /** Whatever Mean0 reads, the matcher's answer is the same: that Mean0 takes the mean of
      the tensor Sub0 and Mul1 share is never checked. */
  lemma MeanInputUnchecked(g: Graph, op: Op, inputs: seq<Tensor>)
    requires Wired(g) && op in g.ops
    ensures var h := g.(node := g.node[op := g.node[op].(inputs := inputs)]);
            Wired(h) && MatchPattern(h, op) == MatchPattern(g, op)
  {
    var h := g.(node := g.node[op := g.node[op].(inputs := inputs)]);
    assert SameBut(g, h, op);
    forall t: Tensor, o: Op | o in ConsumersOf(h, t) ensures o in h.ops {
      assert o in ConsumersOf(g, t);
    }
    StemSame(g, h, op);
    if MatchStem(g, op).Some? {
      StemApart(g, op);
      hide MatchTail; hide MatchStem; hide SameBut;
      TailSame(g, h, op, MatchStem(g, op).value);
    }
  }

  // ---- from the shape to the operands ----

  /** Arithmetic has two operands and one result, reductions and reciprocal square roots have
      one operand. */
  ghost predicate Arities(g: Graph)
    requires HasNodes(g)
  {
    forall o | o in g.ops ::
      && (Kind(g, o) in [ADD, MULTIPLY, SUBTRACT, POW] ==> |g.node[o].inputs| == 2 && |g.node[o].outputs| == 1)
      && (Kind(g, o) in [REDUCE, RSQRT] ==> |g.node[o].inputs| == 1)
  }

  /** A two-operand operation reads t in exactly one of its slots. */
  ghost predicate OneOperand(g: Graph, o: Op, t: Tensor) {
    o in g.node && |g.node[o].inputs| == 2 && Count(g.node[o].inputs, t) == 1
  }

  ghost predicate TwoOperands(g: Graph, o: Op, t: Tensor, u: Tensor) {
    o in g.node && |g.node[o].inputs| == 2 && t != u && multiset(g.node[o].inputs) == multiset{t, u}
  }

  /** The operands of the pattern: each interior tensor enters exactly where the diagram says,
      and s is the input Sub0 and Mul1 share. */
  ghost predicate Operands(g: Graph, p: Pattern, s: Tensor)
    requires Kinds(g, p)
  {
    && TwoOperands(g, p.sub0, Out(g, p.mean0), s)
    && TwoOperands(g, p.mul1, Out(g, p.mul0), s)
    && TwoOperands(g, p.mul2, Out(g, p.mean0), Out(g, p.mul0))
    && TwoOperands(g, p.add1, Out(g, p.mul1), Out(g, p.sub1))
    && g.node[p.mean1].inputs == [Out(g, p.pow)]
    && g.node[p.rsqrt].inputs == [Out(g, p.add0)]
    && OneOperand(g, p.pow, Out(g, p.sub0))
    && OneOperand(g, p.add0, Out(g, p.mean1))
    && OneOperand(g, p.mul0, Out(g, p.rsqrt))
    && OneOperand(g, p.sub1, Out(g, p.mul2))
    && |g.node[p.mean0].inputs| == 1
  }

  lemma FeedsEdge(g: Graph, constants: set<Tensor>, rank: Op -> nat, a: Op, b: Op)
    requires LiveLinked(g, constants) && Ordered(g, rank) && a in g.ops && b in g.ops && Feeds(g, a, b)
    ensures rank(a) < rank(b)
  {
    assert Out(g, a) in g.node[a].outputs && b in ConsumersOf(g, Out(g, a));
  }

  lemma FeedsTwoEdges(g: Graph, constants: set<Tensor>, rank: Op -> nat, a: Op, b: Op, c: Op)
    requires LiveLinked(g, constants) && Ordered(g, rank) && a in g.ops && b in g.ops && c in g.ops && FeedsTwo(g, a, b, c)
    ensures rank(a) < rank(b) && rank(a) < rank(c)
  {
    assert Out(g, a) in g.node[a].outputs;
    assert b in multiset(ConsumersOf(g, Out(g, a))) && c in multiset(ConsumersOf(g, Out(g, a)));
  }

  /** Along the diagram the ranks increase, which tells operations of one kind apart. */
  lemma RanksIncrease(g: Graph, constants: set<Tensor>, rank: Op -> nat, p: Pattern)
    requires LiveLinked(g, constants) && Ordered(g, rank) && Diagram(g, p)
    ensures rank(p.mean0) < rank(p.sub0) < rank(p.pow) < rank(p.mean1) < rank(p.add0)
    ensures rank(p.add0) < rank(p.rsqrt) < rank(p.mul0) < rank(p.mul1) < rank(p.add1)
    ensures rank(p.mul0) < rank(p.mul2) < rank(p.sub1) < rank(p.add1)
  {
    FeedsTwoEdges(g, constants, rank, p.mean0, p.sub0, p.mul2);
    FeedsEdge(g, constants, rank, p.sub0, p.pow);
    FeedsEdge(g, constants, rank, p.pow, p.mean1);
    FeedsEdge(g, constants, rank, p.mean1, p.add0);
    FeedsEdge(g, constants, rank, p.add0, p.rsqrt);
    FeedsEdge(g, constants, rank, p.rsqrt, p.mul0);
    FeedsTwoEdges(g, constants, rank, p.mul0, p.mul1, p.mul2);
    FeedsEdge(g, constants, rank, p.mul1, p.add1);
    FeedsEdge(g, constants, rank, p.mul2, p.sub1);
    FeedsEdge(g, constants, rank, p.sub1, p.add1);
  }

  lemma LinkedRanks(g: Graph, rank: Op -> nat, p: Pattern)
    requires Linked(g) && SingleWriter(g) && Ordered(g, rank) && Diagram(g, p)
    ensures rank(p.mean0) < rank(p.sub0) < rank(p.pow) < rank(p.mean1) < rank(p.add0)
    ensures rank(p.add0) < rank(p.rsqrt) < rank(p.mul0) < rank(p.mul1) < rank(p.add1)
    ensures rank(p.mul0) < rank(p.mul2) < rank(p.sub1) < rank(p.add1)
  {
    LinkedIsLive(g, {});
    RanksIncrease(g, {}, rank, p);
  }

  lemma TwoEntries<T>(s: seq<T>, a: T, b: T)
    requires |s| == 2 && a != b && a in s && b in s
    ensures multiset(s) == multiset{a, b}
  {
    assert s == [s[0], s[1]];
  }

  lemma NotThree<T>(s: seq<T>, a: T, b: T)
    requires |s| == 2 && Count(s, a) == 1 && a != b
    ensures Count(s, b) < 2
  {
    assert s == [s[0], s[1]];
  }

  lemma OutsDiffer(g: Graph, a: Op, b: Op)
    requires Linked(g) && SingleWriter(g) && a in g.ops && b in g.ops && a != b
    requires g.node[a].outputs != [] && g.node[b].outputs != []
    ensures Out(g, a) != Out(g, b)
  {
    assert Out(g, a) in g.node[a].outputs && Out(g, b) in g.node[b].outputs;
  }

  /** Mul1 and Mul2 are different operations: otherwise Mul2 would read Mean0's output once
      and Mul0's twice, three operands in all. */
  lemma MultipliersDiffer(g: Graph, rank: Op -> nat, p: Pattern)
    requires Linked(g) && SingleWriter(g) && Ordered(g, rank) && Diagram(g, p) && Arities(g)
    ensures p.mul1 != p.mul2
  {
    LinkedRanks(g, rank, p);
    OutsDiffer(g, p.mean0, p.mul0);
    NotThree(g.node[p.mul2].inputs, Out(g, p.mean0), Out(g, p.mul0));
  }

  /** All but two pairs of places are told apart by rank. */
  lemma AllDistinct(g: Graph, rank: Op -> nat, p: Pattern)
    requires Linked(g) && SingleWriter(g) && Ordered(g, rank) && Diagram(g, p) && Arities(g)
    ensures NoDuplicates(Places(p))
  {
    LinkedRanks(g, rank, p);
    MultipliersDiffer(g, rank, p);
    DistinctPlaces(p, rank);
  }

  lemma DistinctPlaces(p: Pattern, rank: Op -> nat)
    requires rank(p.mean0) < rank(p.sub0) < rank(p.pow) < rank(p.mean1) < rank(p.add0)
    requires rank(p.add0) < rank(p.rsqrt) < rank(p.mul0) < rank(p.mul1) < rank(p.add1)
    requires rank(p.mul0) < rank(p.mul2) < rank(p.sub1) < rank(p.add1)
    requires p.mul1 != p.mul2 && p.mul1 != p.sub1
    ensures NoDuplicates(Places(p))
  {
  }

  /** Soundness of the matcher: on an acyclic graph whose bookkeeping is truthful and whose
      arithmetic has two operands, an accepted match is eleven different operations in the
      shape of the diagram, joined by exactly its interior edges, with Sub0 and Mul1 reading
      one common further tensor. */
  lemma MatchSound(g: Graph, rank: Op -> nat, op: Op) returns (p: Pattern, s: Tensor)
    requires Linked(g) && SingleWriter(g) && Ordered(g, rank) && Wired(g) && Arities(g)
    requires op in g.ops && MatchPattern(g, op).Found?
    ensures MatchPattern(g, op) == Found(Places(p)) && p.mean0 == op
    ensures Diagram(g, p) && NoDuplicates(Places(p)) && Operands(g, p, s)
  {
    p := MatchHasShape(g, op);
    AllDistinct(g, rank, p);
    s :| s in g.node[p.sub0].inputs && s in g.node[p.mul1].inputs;
    OperandsFollow(g, rank, p, s);
  }

  lemma OperandsFollow(g: Graph, rank: Op -> nat, p: Pattern, s: Tensor)
    requires Linked(g) && SingleWriter(g) && Ordered(g, rank) && Arities(g) && Diagram(g, p)
    requires s in g.node[p.sub0].inputs && s in g.node[p.mul1].inputs
    ensures Operands(g, p, s)
  {
    SharedOperand(g, rank, p, s);
    InnerOperands(g, rank, p);
    SingleOperands(g, p);
  }

  lemma InnerOperands(g: Graph, rank: Op -> nat, p: Pattern)
    requires Linked(g) && SingleWriter(g) && Ordered(g, rank) && Arities(g) && Diagram(g, p)
    ensures TwoOperands(g, p.mul2, Out(g, p.mean0), Out(g, p.mul0))
    ensures TwoOperands(g, p.add1, Out(g, p.mul1), Out(g, p.sub1))
  {
    LinkedRanks(g, rank, p);
    OutsDiffer(g, p.mean0, p.mul0);
    TwoEntries(g.node[p.mul2].inputs, Out(g, p.mean0), Out(g, p.mul0));
    OutsDiffer(g, p.mul1, p.sub1);
    TwoEntries(g.node[p.add1].inputs, Out(g, p.mul1), Out(g, p.sub1));
  }

  lemma SingleOperands(g: Graph, p: Pattern)
    requires Linked(g) && Arities(g) && Diagram(g, p)
    ensures g.node[p.mean1].inputs == [Out(g, p.pow)] && g.node[p.rsqrt].inputs == [Out(g, p.add0)]
    ensures OneOperand(g, p.pow, Out(g, p.sub0)) && OneOperand(g, p.add0, Out(g, p.mean1))
    ensures OneOperand(g, p.mul0, Out(g, p.rsqrt)) && OneOperand(g, p.sub1, Out(g, p.mul2))
    ensures |g.node[p.mean0].inputs| == 1
  {
    SoleOperand(g, p.pow, p.mean1, REDUCE);
    SoleOperand(g, p.add0, p.rsqrt, RSQRT);
  }

  lemma SoleOperand(g: Graph, a: Op, b: Op, kind: int)
    requires Linked(g) && Arities(g) && Feeds(g, a, b) && Listed(g, b, kind)
    requires kind in [REDUCE, RSQRT]
    ensures g.node[b].inputs == [Out(g, a)]
  {
    assert g.node[b].inputs == [g.node[b].inputs[0]];
  }

  /** The shared tensor is the other operand of both. */
  lemma SharedOperand(g: Graph, rank: Op -> nat, p: Pattern, s: Tensor)
    requires Linked(g) && SingleWriter(g) && Ordered(g, rank) && Arities(g) && Diagram(g, p)
    requires s in g.node[p.sub0].inputs && s in g.node[p.mul1].inputs
    ensures TwoOperands(g, p.sub0, Out(g, p.mean0), s) && TwoOperands(g, p.mul1, Out(g, p.mul0), s)
  {
    LinkedRanks(g, rank, p);
    MultipliersDiffer(g, rank, p);
    TwoEntries(g.node[p.sub0].inputs, Out(g, p.mean0), s);
    TwoEntries(g.node[p.mul1].inputs, Out(g, p.mul0), s);
  }
}
