/** Graph outputs and a fusion step.  The matcher does not ask whether a tensor inside the pattern
    is an output of the graph; such an output loses its writer, and every other keeps its value. */
module FusionOutputs {
  import opened GraphModel
  import opened TensorLayout
  import opened Normalize
  import opened NormalizePattern
  import opened NormalizeAxes
  import opened FusionMatch
  import opened FusionRemove
  import opened FusionMeaning
  import opened FusionResult
  import opened FusionSound

  /** An operation that goes writes the tensor, and the fused one does not. */
  ghost predicate Loses(g: Graph, constants: set<Tensor>, a: Site, t: Tensor)
    requires IsOps(g, Places(a.p)) && a.p.add1 in g.node && g.node[a.p.add1].outputs != []
  {
    t != Out(g, a.p.add1) && exists x :: x in g.ops && Gone(g, constants, Places(a.p), x) && x in g.node && t in g.node[x].outputs
  }

  lemma WrittenAfter(g: Graph, h: Graph, constants: set<Tensor>, a: Site, t: Tensor)
    requires HasNodes(g) && SingleWriter(g) && Replaced(g, h, constants, a) && Written(g, t)
    ensures Written(h, t) <==> !Loses(g, constants, a, t)
  {
    var q :| q in g.ops && t in g.node[q].outputs;
    if t == Out(g, a.p.add1) { assert a.op in h.ops && t in h.node[a.op].outputs; }
    if !Gone(g, constants, Places(a.p), q) { assert q in h.ops && t in h.node[q].outputs; }
  }

  /** The valuation with another value for one tensor. */
  function Changed(w: Valuation, t: Tensor, x: Data): Valuation {
    (u: Tensor) => if u == t then x else w(u)
  }

  lemma ChangedElsewhere(w: Valuation, t: Tensor, x: Data, ts: seq<Tensor>)
    requires t !in ts
    ensures All(Changed(w, t, x), ts) == All(w, ts)
  {
  }

  lemma ChangedSolves(h: Graph, m: Machine, w: Valuation, t: Tensor, x: Data)
    requires HasNodes(h) && Solves(h, m, w) && forall o | o in h.ops :: t !in h.node[o].inputs && t !in h.node[o].outputs
    ensures Solves(h, m, Changed(w, t, x))
  {
    forall o | o in h.ops ensures OpHolds(m, Changed(w, t, x), o, h.node[o]) {
      ChangedElsewhere(w, t, x, h.node[o].inputs);
      ChangedElsewhere(w, t, x, h.node[o].outputs);
      assert OpHolds(m, w, o, h.node[o]);
    }
  }

  /** Nobody that stays reads or writes a lost tensor. */
  lemma LostUnbound(g: Graph, rank: Op -> nat, constants: set<Tensor>, a: Site, t: Tensor, o: Op)
    requires Matched(g, rank, constants, a) && a.s in g.node[a.p.mean0].inputs && SourceStays(g, a) && Written(g, t)
    requires Loses(g, constants, a, t) && HasNodes(After(g, constants, a)) && o in After(g, constants, a).ops && t != a.beta && t != a.gamma
    ensures t !in After(g, constants, a).node[o].inputs && t !in After(g, constants, a).node[o].outputs
  {
    StepReplaces(g, rank, constants, a);
    WrittenAfter(g, After(g, constants, a), constants, a, t);
    if t in After(g, constants, a).node[o].inputs { InputStillWritten(g, rank, constants, a, o, t); }
  }

  lemma BoundIsOld(g: Graph, constants: set<Tensor>, a: Site, t: Tensor)
    requires HasNodes(g) && NewHandles(g, constants, a) && Written(g, t)
    ensures t != a.beta && t != a.gamma
  {
  }

  /** A lost tensor may have any value. */
  lemma LostIsFree(g: Graph, m: Machine, v: Valuation, w: Valuation, rank: Op -> nat, data: Constants, a: Site, t: Tensor, x: Data)
    requires Matched(g, rank, data.Keys, a) && a.s in g.node[a.p.mean0].inputs && SourceStays(g, a) && Written(g, t)
    requires Loses(g, data.Keys, a, t) && Continues(g, m, v, w, data, a)
    ensures Continues(g, m, v, Changed(w, t, x), data, a)
  {
    var h := After(g, data.Keys, a);
    BoundIsOld(g, data.Keys, a, t);
    forall o | o in h.ops ensures t !in h.node[o].inputs && t !in h.node[o].outputs { LostUnbound(g, rank, data.Keys, a, t, o); }
    ChangedSolves(h, NewMachine(g, m, data, a), w, t, x);
  }

  ghost predicate OutputsKept(v: Valuation, w: Valuation, outputs: set<Tensor>) {
    forall t | t in outputs :: w(t) == v(t)
  }

  lemma WrittenKept(g: Graph, h: Graph, constants: set<Tensor>, v: Valuation, w: Valuation, a: Site, t: Tensor)
    requires HasNodes(g) && NewHandles(g, constants, a) && HasNodes(h) && Kept(h, v, w, a) && Written(g, t) && Written(h, t)
    ensures w(t) == v(t)
  {
    BoundIsOld(g, constants, a, t);
  }

  lemma OtherValue(x: Data) returns (y: Data)
    ensures y != x
  {
    y := if x.flat == [] then Dense([], [0.0]) else Dense([0], []);
  }

  /** A graph in which no output is lost. */
  lemma NoneLost(g: Graph, m: Machine, v: Valuation, w: Valuation, rank: Op -> nat, data: Constants, a: Site, outputs: set<Tensor>)
    requires Matched(g, rank, data.Keys, a) && Supported(g, m, v, data, a) && AxesAgree(a.shape, a.axes) && SourceStays(g, a)
    requires Continues(g, m, v, w, data, a) && forall t | t in outputs :: Written(g, t) && !Loses(g, data.Keys, a, t)
    ensures OutputsKept(v, w, outputs)
  {
    FusionPreservesMeaning(g, m, v, w, rank, data, a);
    StepReplaces(g, rank, data.Keys, a);
    forall t | t in outputs ensures w(t) == v(t) {
      WrittenAfter(g, After(g, data.Keys, a), data.Keys, a, t);
      WrittenKept(g, After(g, data.Keys, a), data.Keys, v, w, a, t);
    }
  }

  /** Some solution has another value for a lost output. */
  lemma LostDiffers(g: Graph, m: Machine, v: Valuation, rank: Op -> nat, data: Constants, a: Site, t: Tensor) returns (w: Valuation)
    requires Matched(g, rank, data.Keys, a) && g.node[a.p.mean0].inputs == [a.s] && Recorded(g, data, a) && Produces(g, m)
    requires SourceStays(g, a) && Written(g, t) && Loses(g, data.Keys, a, t)
    ensures Continues(g, m, v, w, data, a) && w(t) != v(t)
  {
    w := Continuation(g, m, v, rank, data, a, v(a.s));
    var x := OtherValue(v(t));
    LostIsFree(g, m, v, w, rank, data, a, t, x);
    w := Changed(w, t, x);
  }

  /** All solutions of the graph after a step give the outputs of the graph their old values exactly
      if none of the outputs is written by an operation that goes, the result of the pattern aside. */
  lemma OutputsKeptExactlyWhen(g: Graph, m: Machine, v: Valuation, rank: Op -> nat, data: Constants, a: Site, outputs: set<Tensor>)
    requires Matched(g, rank, data.Keys, a) && Supported(g, m, v, data, a) && AxesAgree(a.shape, a.axes) && Produces(g, m)
    requires SourceStays(g, a) && forall t | t in outputs :: Written(g, t)
    ensures (forall w: Valuation | Continues(g, m, v, w, data, a) :: OutputsKept(v, w, outputs))
            <==> forall t | t in outputs :: !Loses(g, data.Keys, a, t)
  {
    if t :| t in outputs && Loses(g, data.Keys, a, t) {
      var w := LostDiffers(g, m, v, rank, data, a, t);
    } else {
      forall w: Valuation | Continues(g, m, v, w, data, a) ensures OutputsKept(v, w, outputs) {
        NoneLost(g, m, v, w, rank, data, a, outputs);
      }
    }
  }
}
