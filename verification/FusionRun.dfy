/** Any number of fusion steps, one after another. */
module FusionRun {
  import opened GraphModel
  import opened FusionMatch
  import opened FusionRemove
  import opened TensorLayout
  import opened NormalizePattern
  import opened NormalizeAxes
  import opened FusionMeaning
  import opened FusionResult
  import opened FusionSound

  /** A graph with an order, the driver's parameters for its operations, the data of its
      constants and values for its tensors. */
  datatype Stage = Stage(g: Graph, rank: Op -> nat, m: Machine, data: Constants, v: Valuation)

  ghost predicate Sound(st: Stage) {
    LiveLinked(st.g, st.data.Keys) && Ordered(st.g, st.rank) && Solves(st.g, st.m, st.v) && Holds(st.v, st.data)
  }

  /** The pass can fuse at the site, and what a step asks for holds there. */
  ghost predicate Applicable(st: Stage, a: Site) {
    && Matched(st.g, st.rank, st.data.Keys, a) && Supported(st.g, st.m, st.v, st.data, a)
    && AxesAgree(a.shape, a.axes) && SourceStays(st.g, a)
  }

  /** The data of the new parameters. */
  function NewData(data: Constants, a: Site): Constants
    requires AxesFit(|a.shape|, a.axes) && a.side.beta in data && a.side.gamma in data
  {
    var d := NewDim(|a.shape|, a.axes);
    data[a.beta := Reshaped(data[a.side.beta], a.shape, d)][a.gamma := Reshaped(data[a.side.gamma], a.shape, d)]
  }

  function DataOr(data: Constants, v: Valuation): Valuation {
    (t: Tensor) => if t in data then data[t] else v(t)
  }

  function Step(st: Stage, a: Site): Stage
    requires IsOps(st.g, Places(a.p)) && Recorded(st.g, st.data, a)
  {
    var data := NewData(st.data, a);
    Stage(After(st.g, st.data.Keys, a), FusedRank(st.rank, a), NewMachine(st.g, st.m, st.data, a), data, DataOr(data, st.v))
  }

  ghost predicate Run(st: Stage, sites: seq<Site>)
    decreases |sites|
  {
    sites == [] || (Applicable(st, sites[0]) && Run(Step(st, sites[0]), sites[1..]))
  }

  ghost function End(st: Stage, sites: seq<Site>): Stage
    requires Run(st, sites)
    decreases |sites|
  {
    if sites == [] then st else End(Step(st, sites[0]), sites[1..])
  }

  lemma NewValues(st: Stage, a: Site)
    requires IsOps(st.g, Places(a.p)) && Recorded(st.g, st.data, a) && Holds(st.v, st.data) && a.beta != a.gamma
    ensures forall t: Tensor :: Step(st, a).v(t) == Patched(st.v, Step(st, a).v, a)(t)
    ensures ParametersPassed(st.g, st.data, Step(st, a).v, a) && Holds(Step(st, a).v, Step(st, a).data)
    ensures Step(st, a).data.Keys == st.data.Keys + {a.beta, a.gamma}
  {
  }

  lemma SolvesSame(g: Graph, m: Machine, v: Valuation, w: Valuation)
    requires HasNodes(g) && Solves(g, m, v) && forall t: Tensor :: v(t) == w(t)
    ensures Solves(g, m, w)
  {
    forall o | o in g.ops ensures OpHolds(m, w, o, g.node[o]) {
      SameAll(v, w, g.node[o].inputs);
      SameAll(v, w, g.node[o].outputs);
      assert OpHolds(m, v, o, g.node[o]);
    }
  }

  /** A step keeps the bookkeeping, the order and the values sound. */
  lemma StepSound(st: Stage, a: Site)
    requires Sound(st) && Applicable(st, a)
    ensures Sound(Step(st, a))
  {
    var after := Step(st, a);
    NewValues(st, a);
    StepKeepsLinks(st.g, st.rank, st.data.Keys, a);
    AfterOrdered(st.g, st.rank, st.data.Keys, a);
    OldValuesSolve(st.g, st.m, st.v, after.v, st.rank, st.data, a);
    SolvesSame(after.g, after.m, Patched(st.v, after.v, a), after.v);
  }

  ghost predicate IsRead(g: Graph, t: Tensor)
    requires HasNodes(g)
  {
    exists x :: x in g.ops && t in g.node[x].inputs
  }

  lemma ReadThrough(g: Graph, h: Graph, constants: set<Tensor>, a: Site, x: Op, t: Tensor)
    requires Replaced(g, h, constants, a) && a.p.mean0 in g.ops && a.s in g.node[a.p.mean0].inputs
    requires x in h.ops && t in h.node[x].inputs && t != a.beta && t != a.gamma
    ensures IsRead(g, t)
  {
    if x == a.op {
      assert t in g.node[a.p.mean0].inputs;
    } else {
      assert t in g.node[x].inputs;
    }
  }

  /** What is read after a step, the new parameters aside, was read before and is still written
      if it was. */
  lemma ReadBefore(g: Graph, rank: Op -> nat, constants: set<Tensor>, a: Site, t: Tensor)
    requires Matched(g, rank, constants, a) && a.s in g.node[a.p.mean0].inputs && SourceStays(g, a)
    requires HasNodes(After(g, constants, a)) && IsRead(After(g, constants, a), t) && t != a.beta && t != a.gamma
    ensures IsRead(g, t) && (Written(g, t) ==> Written(After(g, constants, a), t))
  {
    var x :| x in After(g, constants, a).ops && t in After(g, constants, a).node[x].inputs;
    StepReplaces(g, rank, constants, a);
    ReadThrough(g, After(g, constants, a), constants, a, x, t);
    if Written(g, t) { InputStillWritten(g, rank, constants, a, x, t); }
  }

  lemma StepReads(st: Stage, a: Site, t: Tensor)
    requires Applicable(st, a) && HasNodes(Step(st, a).g) && IsRead(Step(st, a).g, t) && t !in Step(st, a).data
    ensures IsRead(st.g, t) && (Written(st.g, t) ==> Written(Step(st, a).g, t))
  {
    ReadBefore(st.g, st.rank, st.data.Keys, a, t);
  }

  /** A run keeps everything sound. */
  lemma {:induction false} RunSound(st: Stage, sites: seq<Site>)
    requires Sound(st) && Run(st, sites)
    ensures Sound(End(st, sites))
    decreases |sites|
  {
    if sites != [] {
      StepSound(st, sites[0]);
      RunSound(Step(st, sites[0]), sites[1..]);
    }
  }

  /** It adds constants and keeps the values of all other tensors. */
  lemma {:induction false} RunValues(st: Stage, sites: seq<Site>, t: Tensor)
    requires Sound(st) && Run(st, sites)
    ensures t in st.data ==> t in End(st, sites).data
    ensures t !in End(st, sites).data ==> End(st, sites).v(t) == st.v(t)
    decreases |sites|
  {
    if sites != [] {
      StepSound(st, sites[0]);
      RunValues(Step(st, sites[0]), sites[1..], t);
    }
  }

  /** What is read at its end was read at its start and is still written if it was then. */
  lemma {:induction false} RunReads(st: Stage, sites: seq<Site>, t: Tensor)
    requires Sound(st) && Run(st, sites) && HasNodes(End(st, sites).g) && IsRead(End(st, sites).g, t) && t !in End(st, sites).data
    ensures IsRead(st.g, t) && (Written(st.g, t) ==> Written(End(st, sites).g, t))
    decreases |sites|
  {
    hide Sound;
    if sites != [] {
      StepSound(st, sites[0]);
      RunReads(Step(st, sites[0]), sites[1..], t);
      RunValues(Step(st, sites[0]), sites[1..], t);
      StepReads(st, sites[0], t);
    }
  }

  lemma RunSources(st: Stage, sites: seq<Site>, w: Valuation)
    requires Sound(st) && Run(st, sites) && HasNodes(End(st, sites).g) && Holds(w, End(st, sites).data)
    requires forall t: Tensor | IsRead(st.g, t) && !Written(st.g, t) && t !in st.data :: w(t) == st.v(t)
    ensures SameSources(End(st, sites).g, End(st, sites).v, w)
  {
    var end := End(st, sites);
    RunSound(st, sites);
    forall o, t: Tensor | o in end.g.ops && t in end.g.node[o].inputs && !Written(end.g, t) ensures end.v(t) == w(t) {
      assert IsRead(end.g, t);
      RunValues(st, sites, t);
      if t !in end.data { RunReads(st, sites, t); }
    }
  }

  /** Over every run of fusion steps: whatever solves the last graph, with the constants' data
      and the first graph's sources, gives each tensor of a live operation the value it had in
      the first graph. */
  lemma RunPreservesMeaning(st: Stage, sites: seq<Site>, w: Valuation, x: Op, t: Tensor)
    requires Sound(st) && Run(st, sites) && HasNodes(End(st, sites).g)
    requires Solves(End(st, sites).g, End(st, sites).m, w) && Holds(w, End(st, sites).data)
    requires forall u: Tensor | IsRead(st.g, u) && !Written(st.g, u) && u !in st.data :: w(u) == st.v(u)
    requires x in End(st, sites).g.ops && (t in End(st, sites).g.node[x].inputs || t in End(st, sites).g.node[x].outputs)
    ensures t in End(st, sites).data || w(t) == st.v(t)
  {
    var end := End(st, sites);
    RunSound(st, sites);
    RunValues(st, sites, t);
    RunSources(st, sites, w);
    Determined(end.g, end.m, end.rank, end.v, w, x);
  }
}
