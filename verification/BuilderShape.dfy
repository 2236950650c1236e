/**
 The shape of what the builder makes: one main line of steps, with everything else nested
 below it. Three ways of growing such a definition keep the shape.
 */
module BuilderShape {
  import opened Definitions
  import opened Graphs
  import opened Links
  import opened Validator

  /** The main line, a rank that references increase, and a depth that flow links increase. */
  datatype Shape = Shape(main: seq<string>, rank: map<string, nat>, depth: map<string, nat>) {
    function Last(): string
      requires main != []
    {
      main[|main| - 1]
    }
  }

  /** Every target of every step is a placeholder or a step of the definition. */
  ghost predicate Resolved(steps: Steps) {
    forall n, t :: n in steps && t in RawTargets(steps[n]) ==> Resolves(steps, t)
  }

  ghost predicate LocallyOk(n: string, d: StepDef) {
    && LegalName(n)
    && (d.kind == Task ==> d.handler != "")
    && (d.kind != Join ==> d.waitFor == [])
    && (d.kind != Condition ==> d.els == "")
    && (d.kind != Fork ==> d.parallel == [])
    && (forall t :: t in d.next || t in d.parallel || t == d.els || t == d.onFailure ==> !IsVirtual(t))
  }

  /** A join directly follows a fork and waits once for each of its branches. */
  ghost predicate JoinsClose(steps: Steps) {
    forall j :: j in steps && steps[j].kind == Join ==> ClosesFork(steps, steps[j])
  }

  ghost predicate ClosesFork(steps: Steps, d: StepDef) {
    && d.prev in steps && steps[d.prev].kind == Fork
    && NoDuplicates(d.waitFor) && |d.waitFor| == |steps[d.prev].parallel| >= 2
    && AwaitsBranches(steps, d)
  }

  /** What a join waits for lies in the branches of the fork before it, placeholders apart. */
  ghost predicate AwaitsBranches(steps: Steps, d: StepDef)
    requires d.prev in steps
  {
    forall t :: t in d.waitFor ==>
      IsVirtual(t) || exists p :: p in steps[d.prev].parallel && Reaches(Flow(steps), p, t)
  }

  lemma {:induction false} PathsGrow(g: Adjacency, h: Adjacency, u: string, v: string)
    requires Reaches(g, u, v) && forall x, y :: Edge(g, x, y) ==> Edge(h, x, y)
    ensures Reaches(h, u, v)
  {
    hide Edge;
    var p :| PathBetween(g, p, u, v);
    assert PathBetween(h, p, u, v);
  }

  lemma AwaitsStays(steps: Steps, after: Steps, d: StepDef)
    requires d.prev in steps && d.prev in after && AwaitsBranches(steps, d)
    requires forall p :: p in steps[d.prev].parallel ==> p in after[d.prev].parallel
    requires forall x, y :: Edge(Flow(steps), x, y) ==> Edge(Flow(after), x, y)
    ensures AwaitsBranches(after, d)
  {
    hide Edge, Flow, Reaches;
    forall t | t in d.waitFor && !IsVirtual(t)
      ensures exists p :: p in after[d.prev].parallel && Reaches(Flow(after), p, t)
    {
      var p :| p in steps[d.prev].parallel && Reaches(Flow(steps), p, t);
      PathsGrow(Flow(steps), Flow(after), p, t);
    }
  }

  /** Branches and else sides do not begin with a join. */
  ghost predicate EntriesOk(steps: Steps) {
    forall u, v :: u in steps && v in steps && v in Entries(steps[u]) ==> steps[v].kind != Join
  }

  function Entries(d: StepDef): seq<string> {
    d.parallel + (if d.els != "" then [d.els] else [])
  }

  ghost predicate OnLine(steps: Steps, main: seq<string>) {
    && main != []
    && (forall i :: 0 <= i < |main| ==> main[i] in steps)
    && (forall i, j :: 0 <= i < j < |main| && j == i + 1 ==> steps[main[i]].next == [main[j]])
    && steps[main[|main| - 1]].next == []
  }

  ghost predicate RankedMain(steps: Steps, main: seq<string>, rank: map<string, nat>) {
    && rank.Keys == steps.Keys
    && (forall i :: 0 <= i < |main| ==> main[i] in rank && rank[main[i]] == i)
    && (forall n :: n in steps && n !in main ==> rank[n] >= |main|)
    && Ranked(References(steps), rank)
  }

  ghost predicate Sound(steps: Steps, sh: Shape) {
    && OnLine(steps, sh.main)
    && RankedMain(steps, sh.main, sh.rank)
    && sh.depth.Keys == steps.Keys && Linked(steps, sh.depth)
    && (forall n :: n in steps ==> LocallyOk(n, steps[n]))
    && Resolved(steps)
    && (forall n :: n in steps ==> (steps[n].prev == ROOT <==> n == sh.main[0]))
    && steps[sh.main[0]].kind != Join
    && JoinsClose(steps) && EntriesOk(steps)
  }

  lemma SoundIsWellFormed(steps: Steps, sh: Shape, dlq: bool)
    requires Sound(steps, sh)
    ensures WellFormed(Definition(sh.main[0], steps, dlq))
  {
    RankedHasNoCycle(References(steps), sh.rank, sh.main[0]);
    forall n | n in steps
      ensures StepOk(steps, n)
    {
      var d := steps[n];
      assert forall t :: t in RawTargets(d) ==> Resolves(steps, t);
      assert forall t :: t in d.next || t in d.parallel || t in d.waitFor ==> t in RawTargets(d);
      assert d.onFailure != "" ==> d.onFailure in RawTargets(d);
      assert d.els != "" ==> d.els in RawTargets(d);
    }
  }

  // ---- Growing the main line ----

  /** A new step `d` named `n` after the last one of the main line. */
  function Extended(steps: Steps, last: string, n: string, d: StepDef): Steps
    requires last in steps
  {
    steps[n := d][last := steps[last].(next := steps[last].next + [n])]
  }

  /** What a step may look like when it joins the main line. */
  ghost predicate Newcomer(steps: Steps, sh: Shape, n: string, d: StepDef)
    requires sh.main != []
  {
    && n !in steps && LocallyOk(n, d)
    && d.prev == sh.Last() && d.next == [] && d.els == "" && d.onFailure == "" && d.parallel == []
    && (forall t :: t in d.waitFor ==> IsVirtual(t) || (t in steps && t !in sh.main))
    && (d.kind == Join ==> ClosesFork(steps, d))
  }

  function ExtendedShape(sh: Shape, n: string): Shape
    requires sh.main != [] && sh.Last() in sh.depth
  {
    Shape(sh.main + [n],
          InsertedRank(sh.main, sh.rank, n),
          sh.depth[n := sh.depth[sh.Last()] + 1])
  }

  /** The only new references are the link to the newcomer and what it waits for. */
  lemma ExtendedReferences(steps: Steps, last: string, n: string, d: StepDef, u: string, v: string)
    requires last in steps && n !in steps && Resolved(steps) && LegalName(n)
    requires RawTargets(d) == d.waitFor
    requires Edge(References(Extended(steps, last, n, d)), u, v)
    ensures Edge(References(steps), u, v) || (u == last && v == n) || (u == n && v in d.waitFor && !IsVirtual(v))
  {
    var after := Extended(steps, last, n, d);
    ReferenceEdges(after, u);
    if u in steps {
      ReferenceEdges(steps, u);
      assert v in RawTargets(steps[u]) || (u == last && v == n);
      assert v in RawTargets(steps[u]) ==> Resolves(steps, v);
    }
  }

  /** Inserting a name between the main line and the rest. */
  function InsertedRank(main: seq<string>, rank: map<string, nat>, n: string): map<string, nat> {
    (map x | x in rank :: if x in main then rank[x] else rank[x] + 1)[n := |main|]
  }

  lemma InsertRank(g: Adjacency, g': Adjacency, main: seq<string>, rank: map<string, nat>, n: string)
    requires main != [] && n !in rank
    requires forall i :: 0 <= i < |main| ==> main[i] in rank && rank[main[i]] == i
    requires forall x :: x in rank && x !in main ==> rank[x] >= |main|
    requires Ranked(g, rank)
    requires forall u, v :: Edge(g', u, v) ==>
               || Edge(g, u, v)
               || (u == main[|main| - 1] && v == n)
               || (u == n && v in rank && v !in main)
    ensures Ranked(g', InsertedRank(main, rank, n))
  {
    var rank' := InsertedRank(main, rank, n);
    forall u, v | Edge(g', u, v)
      ensures u in rank' && v in rank' && rank'[u] < rank'[v]
    {
      if Edge(g, u, v) {
        assert rank[u] < rank[v];
        if v in main {
          var i :| 0 <= i < |main| && main[i] == v;
          assert u in main;
        }
      } else if u == n {
      } else {
        assert u in main;
      }
    }
  }

  lemma InsertRankMain(main: seq<string>, rank: map<string, nat>, n: string)
    requires n !in rank
    requires forall i :: 0 <= i < |main| ==> main[i] in rank && rank[main[i]] == i
    requires forall x :: x in rank && x !in main ==> rank[x] >= |main|
    ensures var rank', main' := InsertedRank(main, rank, n), main + [n];
            && rank'.Keys == rank.Keys + {n}
            && (forall i :: 0 <= i < |main'| ==> main'[i] in rank' && rank'[main'[i]] == i)
            && (forall x :: x in rank' && x !in main' ==> rank'[x] >= |main'|)
  {
    var rank', main' := InsertedRank(main, rank, n), main + [n];
    forall i | 0 <= i < |main'|
      ensures main'[i] in rank' && rank'[main'[i]] == i
    {
      if i < |main| {
        assert main'[i] == main[i] && main[i] in main;
      }
    }
    forall x | x in rank' && x !in main'
      ensures rank'[x] >= |main'|
    {
      assert main'[|main|] == n;
      assert forall i :: 0 <= i < |main| ==> main'[i] == main[i];
      assert x != n && x !in main;
    }
  }

  lemma ExtendRank(steps: Steps, main: seq<string>, rank: map<string, nat>, n: string, d: StepDef)
    requires OnLine(steps, main) && RankedMain(steps, main, rank) && Resolved(steps)
    requires n !in steps && LegalName(n) && RawTargets(d) == d.waitFor
    requires forall t :: t in d.waitFor ==> IsVirtual(t) || (t in steps && t !in main)
    ensures RankedMain(Extended(steps, main[|main| - 1], n, d), main + [n], InsertedRank(main, rank, n))
  {
    var last := main[|main| - 1];
    var after := Extended(steps, last, n, d);
    forall u, v | Edge(References(after), u, v)
      ensures Edge(References(steps), u, v) || (u == last && v == n) || (u == n && v in rank && v !in main)
    {
      ExtendedReferences(steps, last, n, d, u, v);
    }
    assert after.Keys == steps.Keys + {n};
    hide References, Extended;
    InsertRank(References(steps), References(after), main, rank, n);
    InsertRankMain(main, rank, n);
  }

  lemma ExtendedFlow(steps: Steps, last: string, n: string, d: StepDef, u: string, v: string)
    requires last in steps && n !in steps && Successors(d) == []
    ensures Edge(Flow(Extended(steps, last, n, d)), u, v) <==> Edge(Flow(steps), u, v) || (u == last && v == n)
  {
    var after := Extended(steps, last, n, d);
    assert u in after ==> Flow(after)[u] == Elements(Successors(after[u]));
    assert u in steps ==> Flow(steps)[u] == Elements(Successors(steps[u]));
    if u == last {
      assert v in Successors(after[last]) <==> v in Successors(steps[last]) || v == n;
    }
  }

  lemma ExtendLinks(steps: Steps, depth: map<string, nat>, last: string, n: string, d: StepDef,
        depth': map<string, nat>)
    requires Linked(steps, depth) && last in steps && last in depth
    requires n !in steps && LegalName(n) && Successors(d) == [] && d.prev == last
    requires depth' == depth[n := depth[last] + 1]
    ensures Linked(Extended(steps, last, n, d), depth')
  {
    hide Flow, LinkedBy, Edge, LegalName;
    var after := Extended(steps, last, n, d);
    forall u, v
      ensures Edge(Flow(after), u, v) <==> Edge(Flow(steps), u, v) || (u == last && v == n)
    {
      ExtendedFlow(steps, last, n, d, u, v);
    }
    LinkedAfter(steps, Flow(steps), depth, after, Flow(after), last, n);
  }

  lemma LinkedAfter(steps: Steps, g: Adjacency, depth: map<string, nat>, after: Steps, g': Adjacency, last: string,
        n: string)
    requires LinkedBy(steps, g, depth) && last in steps && last in depth
    requires n !in steps && LegalName(n)
    requires after.Keys == steps.Keys + {n} && after[n].prev == last
    requires forall x :: x in steps ==> after[x].prev == steps[x].prev
    requires forall u, v :: Edge(g', u, v) <==> Edge(g, u, v) || (u == last && v == n)
    ensures LinkedBy(after, g', depth[n := depth[last] + 1])
  {
    forall v | v in after && after[v].prev in after
      ensures Edge(g', after[v].prev, v)
    {
      if v != n {
        assert after[v].prev != n;
      }
    }
  }

  lemma ExtendLine(steps: Steps, main: seq<string>, n: string, d: StepDef)
    requires OnLine(steps, main) && n !in steps && d.next == []
    requires main[|main| - 1] !in main[..|main| - 1]
    ensures OnLine(Extended(steps, main[|main| - 1], n, d), main + [n])
  {
    var after, main' := Extended(steps, main[|main| - 1], n, d), main + [n];
    forall i, j | 0 <= i < j < |main'| && j == i + 1
      ensures after[main'[i]].next == [main'[j]]
    {
      if j < |main| {
        assert main[i] in main[..|main| - 1];
        assert steps[main[i]].next == [main[j]];
      }
    }
  }

  lemma ExtendResolved(steps: Steps, last: string, n: string, d: StepDef)
    requires last in steps && n !in steps && Resolved(steps)
    requires RawTargets(d) == d.waitFor
    requires forall t :: t in d.waitFor ==> Resolves(steps, t)
    ensures Resolved(Extended(steps, last, n, d))
  {
    var after := Extended(steps, last, n, d);
    forall x, t | x in after && t in RawTargets(after[x])
      ensures Resolves(after, t)
    {
      if x == n {
        assert Resolves(steps, t);
      } else if t != n {
        assert t in RawTargets(steps[x]);
        assert Resolves(steps, t);
      }
    }
  }

  lemma ExtendJoins(steps: Steps, last: string, n: string, d: StepDef)
    requires last in steps && n !in steps && JoinsClose(steps)
    requires d.prev == last && (d.kind == Join ==> ClosesFork(steps, d)) && Successors(d) == []
    ensures JoinsClose(Extended(steps, last, n, d))
  {
    hide AwaitsBranches, Flow, Edge;
    var after := Extended(steps, last, n, d);
    forall x, y | Edge(Flow(steps), x, y)
      ensures Edge(Flow(after), x, y)
    {
      ExtendedFlow(steps, last, n, d, x, y);
    }
    forall j | j in after && after[j].kind == Join
      ensures ClosesFork(after, after[j])
    {
      if j != n {
        assert ClosesFork(steps, steps[j]);
      }
      AwaitsStays(steps, after, if j == n then d else steps[j]);
      SameAwaits(after, if j == n then d else steps[j], after[j]);
    }
  }

  lemma SameAwaits(steps: Steps, d: StepDef, e: StepDef)
    requires d.prev in steps && AwaitsBranches(steps, d) && e.prev == d.prev && e.waitFor == d.waitFor
    ensures AwaitsBranches(steps, e)
  {
  }

  lemma ExtendEntries(steps: Steps, last: string, n: string, d: StepDef)
    requires last in steps && n !in steps && Resolved(steps) && LegalName(n) && EntriesOk(steps)
    requires Entries(d) == []
    ensures EntriesOk(Extended(steps, last, n, d))
  {
    var after := Extended(steps, last, n, d);
    forall u, v | u in after && v in after && v in Entries(after[u])
      ensures after[v].kind != Join
    {
      assert u in steps && v in Entries(steps[u]);
      assert v in RawTargets(steps[u]);
      assert Resolves(steps, v);
    }
  }

  lemma ExtendLocal(steps: Steps, first: string, last: string, n: string, d: StepDef)
    requires last in steps && n !in steps && first in steps && LegalName(last)
    requires forall x :: x in steps ==> LocallyOk(x, steps[x])
    requires forall x :: x in steps ==> (steps[x].prev == ROOT <==> x == first)
    requires LocallyOk(n, d) && d.prev == last
    ensures var after := Extended(steps, last, n, d);
            && (forall x :: x in after ==> LocallyOk(x, after[x]))
            && (forall x :: x in after ==> (after[x].prev == ROOT <==> x == first))
  {
    var after := Extended(steps, last, n, d);
    forall x | x in after
      ensures LocallyOk(x, after[x]) && (after[x].prev == ROOT <==> x == first)
    {
      if x == last {
        assert LocallyOk(last, steps[last]);
      }
    }
  }

  lemma LineFacts(steps: Steps, sh: Shape)
    requires OnLine(steps, sh.main) && RankedMain(steps, sh.main, sh.rank)
    ensures sh.main != [] && sh.main[0] in steps && sh.Last() in steps && sh.Last() in sh.main
    ensures sh.Last() !in sh.main[..|sh.main| - 1]
    ensures steps[sh.Last()].next == []
    ensures forall i :: 0 <= i < |sh.main| ==> sh.main[i] in steps
  {
    assert sh.rank[sh.Last()] == |sh.main| - 1;
  }

  lemma Extend(steps: Steps, sh: Shape, n: string, d: StepDef)
    requires Sound(steps, sh) && Newcomer(steps, sh, n, d)
    ensures Sound(Extended(steps, sh.Last(), n, d), ExtendedShape(sh, n))
  {
    hide Linked, Resolved, JoinsClose, EntriesOk, OnLine, RankedMain, RawTargets, Successors, Entries, LocallyOk;
    hide LegalName;
    LineFacts(steps, sh);
    var main, last := sh.main, sh.Last();
    BareStep(d);
    var after, sh' := Extended(steps, last, n, d), ExtendedShape(sh, n);
    assert sh'.depth == sh.depth[n := sh.depth[last] + 1] && sh'.main[0] == main[0];
    assert LegalName(n) && LegalName(last) by {
      LegalNames(n, d);
      LegalNames(last, steps[last]);
    }
    ExtendLinks(steps, sh.depth, last, n, d, sh'.depth);
    ExtendRank(steps, main, sh.rank, n, d);
    ExtendLine(steps, main, n, d);
    ExtendResolved(steps, last, n, d);
    ExtendJoins(steps, last, n, d);
    ExtendEntries(steps, last, n, d);
    ExtendLocal(steps, main[0], last, n, d);
    ExtendKeys(steps, sh.depth, last, n, d);
  }

  lemma LegalNames(n: string, d: StepDef)
    requires LocallyOk(n, d)
    ensures LegalName(n)
  {
  }

  lemma BareStep(d: StepDef)
    requires d.next == [] && d.els == "" && d.onFailure == "" && d.parallel == []
    ensures RawTargets(d) == d.waitFor && Successors(d) == [] && Entries(d) == []
  {
  }

  lemma ExtendKeys(steps: Steps, depth: map<string, nat>, last: string, n: string, d: StepDef)
    requires last in steps && depth.Keys == steps.Keys
    ensures depth[n := depth[last] + 1].Keys == Extended(steps, last, n, d).Keys
    ensures forall x :: x in steps && x != n ==> Extended(steps, last, n, d)[x].kind == steps[x].kind
  {
  }

  // ---- Adding a compensation ----

  /** `n` becomes the compensation of `u`. */
  function Compensated(steps: Steps, u: string, n: string, d: StepDef): Steps
    requires u in steps
  {
    steps[n := d][u := steps[u].(onFailure := n)]
  }

  function CompensatedShape(sh: Shape, n: string): Shape {
    Shape(sh.main, sh.rank[n := |sh.main|], sh.depth[n := 0])
  }

  ghost predicate Isolated(n: string, d: StepDef) {
    && LocallyOk(n, d) && d.kind != Join && d.prev == ""
    && d.next == [] && d.els == "" && d.onFailure == "" && d.parallel == []
  }

  lemma CompensatedReferences(steps: Steps, u: string, n: string, d: StepDef, x: string, v: string)
    requires u in steps && n !in steps && Resolved(steps) && RawTargets(d) == [] && LegalName(n)
    requires Edge(References(Compensated(steps, u, n, d)), x, v)
    ensures Edge(References(steps), x, v) || (x == u && v == n)
  {
    var after := Compensated(steps, u, n, d);
    ReferenceEdges(after, x);
    assert x in steps;
    ReferenceEdges(steps, x);
    assert v in RawTargets(steps[x]) || (x == u && v == n);
    assert v in RawTargets(steps[x]) ==> Resolves(steps, v);
  }

  lemma CompensateRank(steps: Steps, main: seq<string>, rank: map<string, nat>, u: string, n: string, d: StepDef)
    requires OnLine(steps, main) && RankedMain(steps, main, rank) && Resolved(steps)
    requires u in main && u in steps && n !in steps && LegalName(n) && RawTargets(d) == []
    ensures RankedMain(Compensated(steps, u, n, d), main, rank[n := |main|])
  {
    hide References, RawTargets, Resolved, LegalName, OnLine;
    var after, rank' := Compensated(steps, u, n, d), rank[n := |main|];
    forall x, v | Edge(References(after), x, v)
      ensures x in rank' && v in rank' && rank'[x] < rank'[v]
    {
      CompensatedReferences(steps, u, n, d, x, v);
      if !(x == u && v == n) {
        assert Edge(References(steps), x, v);
        assert x != n && v != n;
      }
    }
    assert rank'.Keys == after.Keys;
    assert n !in main;
  }

  lemma CompensateLinks(steps: Steps, depth: map<string, nat>, u: string, n: string, d: StepDef)
    requires Linked(steps, depth) && u in steps && depth.Keys == steps.Keys
    requires n !in steps && LegalName(n) && Successors(d) == [] && d.prev == ""
    ensures Linked(Compensated(steps, u, n, d), depth[n := 0])
  {
    hide Linked, LinkedBy, LegalName;
    var after := Compensated(steps, u, n, d);
    forall x, v
      ensures Edge(Flow(after), x, v) <==> Edge(Flow(steps), x, v)
    {
      CompensatedEdges(steps, u, n, d, x, v);
    }
    LinkedUnfolds(steps, depth);
    SameLinks(steps, Flow(steps), depth, after, Flow(after), n);
    LinkedUnfolds(after, depth[n := 0]);
  }

  lemma LinkedUnfolds(steps: Steps, depth: map<string, nat>)
    ensures Linked(steps, depth) <==> LinkedBy(steps, Flow(steps), depth)
  {
  }

  lemma CompensatedEdges(steps: Steps, u: string, n: string, d: StepDef, x: string, v: string)
    requires u in steps && n !in steps && Successors(d) == []
    ensures var after := Compensated(steps, u, n, d); Edge(Flow(after), x, v) <==> Edge(Flow(steps), x, v)
  {
    var after := Compensated(steps, u, n, d);
    assert x in steps ==> Successors(after[x]) == Successors(steps[x]);
  }

  lemma SameLinks(steps: Steps, g: Adjacency, depth: map<string, nat>, after: Steps, g': Adjacency, n: string)
    requires LinkedBy(steps, g, depth) && n !in steps && LegalName(n) && n !in depth
    requires after.Keys == steps.Keys + {n} && after[n].prev == ""
    requires forall x :: x in steps ==> after[x].prev == steps[x].prev
    requires forall x, v :: Edge(g', x, v) <==> Edge(g, x, v)
    ensures LinkedBy(after, g', depth[n := 0])
  {
    forall v | v in after && after[v].prev in after
      ensures Edge(g', after[v].prev, v)
    {
      assert v != n && after[v].prev != n;
    }
  }

  lemma CompensateLocal(steps: Steps, main: seq<string>, u: string, n: string, d: StepDef)
    requires OnLine(steps, main) && u in steps && n !in steps && Isolated(n, d) && RawTargets(d) == []
    requires Entries(d) == []
    requires forall x :: x in steps ==> LocallyOk(x, steps[x])
    requires forall x :: x in steps ==> (steps[x].prev == ROOT <==> x == main[0])
    ensures var after := Compensated(steps, u, n, d);
            && OnLine(after, main)
            && (forall x :: x in after ==> LocallyOk(x, after[x]))
            && (forall x :: x in after ==> (after[x].prev == ROOT <==> x == main[0]))
            && after[main[0]].kind == steps[main[0]].kind
  {
    var after := Compensated(steps, u, n, d);
    assert LocallyOk(u, steps[u]) && LocallyOk(u, after[u]);
  }

  lemma CompensateJoins(steps: Steps, u: string, n: string, d: StepDef)
    requires u in steps && n !in steps && Isolated(n, d) && JoinsClose(steps)
    ensures JoinsClose(Compensated(steps, u, n, d))
  {
    hide AwaitsBranches;
    var after := Compensated(steps, u, n, d);
    forall x, y | Edge(Flow(steps), x, y)
      ensures Edge(Flow(after), x, y)
    {
      assert Successors(after[x]) == Successors(steps[x]);
    }
    hide Flow, Edge;
    forall j | j in after && after[j].kind == Join
      ensures ClosesFork(after, after[j])
    {
      assert ClosesFork(steps, steps[j]);
      AwaitsStays(steps, after, steps[j]);
      SameAwaits(after, steps[j], after[j]);
    }
  }

  lemma CompensateRest(steps: Steps, u: string, n: string, d: StepDef)
    requires u in steps && n !in steps && Isolated(n, d) && RawTargets(d) == [] && Entries(d) == []
    requires Resolved(steps) && JoinsClose(steps) && EntriesOk(steps) && LegalName(n)
    ensures Resolved(Compensated(steps, u, n, d))
    ensures JoinsClose(Compensated(steps, u, n, d)) && EntriesOk(Compensated(steps, u, n, d))
  {
    var after := Compensated(steps, u, n, d);
    forall x, t | x in after && t in RawTargets(after[x])
      ensures Resolves(after, t)
    {
      if t != n {
        assert t in RawTargets(steps[x]);
        assert Resolves(steps, t);
      }
    }
    CompensateJoins(steps, u, n, d);
    forall x, v | x in after && v in after && v in Entries(after[x])
      ensures after[v].kind != Join
    {
      assert v in Entries(steps[x]) && v in RawTargets(steps[x]);
      assert Resolves(steps, v);
    }
  }

  lemma Compensate(steps: Steps, sh: Shape, n: string, d: StepDef)
    requires Sound(steps, sh) && n !in steps && Isolated(n, d)
    ensures Sound(Compensated(steps, sh.Last(), n, d), CompensatedShape(sh, n))
  {
    hide Linked, Resolved, JoinsClose, EntriesOk, OnLine, RankedMain, RawTargets, Successors, Entries, LocallyOk;
    hide LegalName;
    LineFacts(steps, sh);
    BareStep(d);
    LegalNames(n, d);
    assert d.waitFor == [] by {
      NoWait(n, d);
    }
    CompensateRank(steps, sh.main, sh.rank, sh.Last(), n, d);
    CompensateLinks(steps, sh.depth, sh.Last(), n, d);
    CompensateLocal(steps, sh.main, sh.Last(), n, d);
    CompensateRest(steps, sh.Last(), n, d);
    assert sh.depth[n := 0].Keys == Compensated(steps, sh.Last(), n, d).Keys;
  }

  lemma NoWait(n: string, d: StepDef)
    requires LocallyOk(n, d) && d.kind != Join
    ensures d.waitFor == []
  {
  }

  // ---- Nesting a sub-definition ----

  /** How a nested definition hangs below a step: as one more branch, or as its else side. */
  datatype Role = AsBranch | AsElse

  function Parent(d: StepDef, role: Role, entry: string): StepDef {
    match role
    case AsBranch => d.(parallel := d.parallel + [entry])
    case AsElse => d.(els := entry)
  }

  function Nested(steps: Steps, u: string, role: Role, sub: Steps, entry: string): Steps
    requires u in steps && entry in sub
  {
    steps[u := Parent(steps[u], role, entry)] + sub[entry := sub[entry].(prev := u)]
  }

  function Shifted(m: map<string, nat>, k: nat): map<string, nat> {
    map x | x in m :: m[x] + k
  }

  function NestedShape(sh: Shape, u: string, inner: Shape): Shape
    requires u in sh.depth
  {
    Shape(sh.main, sh.rank + Shifted(inner.rank, |sh.main|), sh.depth + Shifted(inner.depth, sh.depth[u] + 1))
  }

  /** The two definitions that are put together. */
  ghost predicate Apart(steps: Steps, u: string, role: Role, sub: Steps, entry: string) {
    && u in steps && entry in sub && steps.Keys !! sub.Keys
    && LegalName(entry)
    && (if role == AsElse then steps[u].kind == Condition && steps[u].els == "" else steps[u].kind == Fork)
  }

  lemma NestedTargets(steps: Steps, u: string, role: Role, sub: Steps, entry: string, x: string, t: string)
    requires Apart(steps, u, role, sub, entry)
    ensures var after := Nested(steps, u, role, sub, entry);
            && after.Keys == steps.Keys + sub.Keys
            && (x in steps ==> (t in RawTargets(after[x]) <==> t in RawTargets(steps[x]) || (x == u && t == entry)))
            && (x in sub ==> (t in RawTargets(after[x]) <==> t in RawTargets(sub[x])))
            && (x in steps ==> (t in Successors(after[x]) <==> t in Successors(steps[x]) || (x == u && t == entry)))
            && (x in sub ==> (t in Successors(after[x]) <==> t in Successors(sub[x])))
            && (x in steps ==> (t in Entries(after[x]) <==> t in Entries(steps[x]) || (x == u && t == entry)))
            && (x in sub ==> (t in Entries(after[x]) <==> t in Entries(sub[x])))
  {
  }

  lemma NestedReferences(steps: Steps, u: string, role: Role, sub: Steps, entry: string, x: string, v: string)
    requires Apart(steps, u, role, sub, entry) && Resolved(steps) && Resolved(sub)
    requires Edge(References(Nested(steps, u, role, sub, entry)), x, v)
    ensures Edge(References(steps), x, v) || Edge(References(sub), x, v) || (x == u && v == entry)
  {
    hide RawTargets, Successors, Entries, LegalName;
    var after := Nested(steps, u, role, sub, entry);
    NestedTargets(steps, u, role, sub, entry, x, v);
    ReferenceEdges(after, x);
    if x in steps {
      ReferenceEdges(steps, x);
      assert v in RawTargets(steps[x]) ==> Resolves(steps, v);
    } else {
      ReferenceEdges(sub, x);
      assert v in RawTargets(sub[x]) ==> Resolves(sub, v);
    }
  }

  lemma NestRank(steps: Steps, main: seq<string>, rank: map<string, nat>, u: string, role: Role, sub: Steps,
        entry: string, inner: map<string, nat>)
    requires RankedMain(steps, main, rank) && Resolved(steps) && u in main
    requires inner.Keys == sub.Keys && Ranked(References(sub), inner) && Resolved(sub)
    requires Apart(steps, u, role, sub, entry)
    ensures RankedMain(Nested(steps, u, role, sub, entry), main, rank + Shifted(inner, |main|))
  {
    hide RawTargets, LegalName, Resolved, References;
    var after, rank' := Nested(steps, u, role, sub, entry), rank + Shifted(inner, |main|);
    NestedTargets(steps, u, role, sub, entry, u, entry);
    assert rank'.Keys == after.Keys;
    forall x, v | Edge(References(after), x, v)
      ensures x in rank' && v in rank' && rank'[x] < rank'[v]
    {
      NestedReferences(steps, u, role, sub, entry, x, v);
      if Edge(References(sub), x, v) {
        assert inner[x] < inner[v];
      } else if Edge(References(steps), x, v) {
        assert rank[x] < rank[v];
      } else {
        assert rank[u] < |main|;
      }
    }
    forall i | 0 <= i < |main|
      ensures main[i] in rank' && rank'[main[i]] == i
    {
      assert main[i] in rank && main[i] !in inner;
    }
  }

  lemma NestLinks(steps: Steps, depth: map<string, nat>, u: string, role: Role, sub: Steps, entry: string,
        inner: map<string, nat>)
    requires Linked(steps, depth) && depth.Keys == steps.Keys
    requires Linked(sub, inner) && inner.Keys == sub.Keys
    requires Apart(steps, u, role, sub, entry) && sub[entry].prev !in sub
    ensures Linked(Nested(steps, u, role, sub, entry), depth + Shifted(inner, depth[u] + 1))
  {
    hide RawTargets, LegalName, Entries, LinkedBy;
    var after := Nested(steps, u, role, sub, entry);
    NestedTargets(steps, u, role, sub, entry, u, entry);
    forall x, v
      ensures Edge(Flow(after), x, v) <==> Edge(Flow(steps), x, v) || Edge(Flow(sub), x, v) || (x == u && v == entry)
    {
      NestedTargets(steps, u, role, sub, entry, x, v);
    }
    LinkedTogether(steps, Flow(steps), depth, u, sub, Flow(sub), entry, inner, after, Flow(after));
  }

  lemma LinkedTogether(steps: Steps, g: Adjacency, depth: map<string, nat>, u: string, sub: Steps, h: Adjacency,
        entry: string, inner: map<string, nat>, after: Steps, g': Adjacency)
    requires LinkedBy(steps, g, depth) && depth.Keys == steps.Keys && u in steps
    requires LinkedBy(sub, h, inner) && inner.Keys == sub.Keys && entry in sub
    requires steps.Keys !! sub.Keys && sub[entry].prev !in sub
    requires after.Keys == steps.Keys + sub.Keys
    requires forall x :: x in steps ==> after[x].prev == steps[x].prev
    requires forall x :: x in sub ==> after[x].prev == if x == entry then u else sub[x].prev
    requires forall x, v :: Edge(g', x, v) <==> Edge(g, x, v) || Edge(h, x, v) || (x == u && v == entry)
    ensures LinkedBy(after, g', depth + Shifted(inner, depth[u] + 1))
  {
    hide Ranked, Shifted, Edge;
    RankedTogether(steps, g, depth, u, sub, h, entry, inner, g');
    RankedEdges(h, inner);
    EdgesTogether(steps, g, u, sub, h, entry, after, g');
    PrevTogether(steps, g, u, sub, h, entry, after, g');
  }

  lemma RankedEdges(g: Adjacency, rank: map<string, nat>)
    requires Ranked(g, rank)
    ensures forall x, v :: Edge(g, x, v) ==> x in rank
  {
  }

  lemma EdgesTogether(steps: Steps, g: Adjacency, u: string, sub: Steps, h: Adjacency, entry: string, after: Steps,
        g': Adjacency)
    requires forall x, v :: Edge(g, x, v) ==> v in steps && steps[v].prev == x
    requires forall x, v :: Edge(h, x, v) ==> v in sub && sub[v].prev == x && x in sub
    requires steps.Keys !! sub.Keys && entry in sub && u in steps && sub[entry].prev !in sub
    requires after.Keys == steps.Keys + sub.Keys
    requires forall x :: x in steps ==> after[x].prev == steps[x].prev
    requires forall x :: x in sub ==> after[x].prev == if x == entry then u else sub[x].prev
    requires forall x, v :: Edge(g', x, v) <==> Edge(g, x, v) || Edge(h, x, v) || (x == u && v == entry)
    ensures forall x, v :: Edge(g', x, v) ==> v in after && after[v].prev == x
  {
    hide Edge;
    forall x, v | Edge(g', x, v)
      ensures v in after && after[v].prev == x
    {
      if Edge(h, x, v) {
        assert v != entry;
      }
    }
  }

  lemma PrevTogether(steps: Steps, g: Adjacency, u: string, sub: Steps, h: Adjacency, entry: string, after: Steps,
        g': Adjacency)
    requires forall v :: v in steps && steps[v].prev in steps ==> Edge(g, steps[v].prev, v)
    requires forall v :: v in sub && sub[v].prev in sub ==> Edge(h, sub[v].prev, v)
    requires forall v :: v in steps ==> steps[v].prev in steps || steps[v].prev == ROOT || steps[v].prev == ""
    requires forall v :: v in sub ==> sub[v].prev in sub || sub[v].prev == ROOT || sub[v].prev == ""
    requires steps.Keys !! sub.Keys && entry in sub && u in steps
    requires ROOT !in steps && "" !in steps && ROOT !in sub && "" !in sub
    requires after.Keys == steps.Keys + sub.Keys
    requires forall x :: x in steps ==> after[x].prev == steps[x].prev
    requires forall x :: x in sub ==> after[x].prev == if x == entry then u else sub[x].prev
    requires forall x, v :: Edge(g', x, v) <==> Edge(g, x, v) || Edge(h, x, v) || (x == u && v == entry)
    ensures forall v :: v in after && after[v].prev in after ==> Edge(g', after[v].prev, v)
  {
    hide Edge;
    forall v | v in after && after[v].prev in after
      ensures Edge(g', after[v].prev, v)
    {
      if v in steps {
        assert after[v].prev in steps;
      } else if v != entry {
        assert after[v].prev in sub;
      }
    }
  }

  lemma RankedTogether(steps: Steps, g: Adjacency, depth: map<string, nat>, u: string, sub: Steps, h: Adjacency,
        entry: string, inner: map<string, nat>, g': Adjacency)
    requires Ranked(g, depth) && depth.Keys == steps.Keys && u in steps
    requires Ranked(h, inner) && inner.Keys == sub.Keys && entry in sub && steps.Keys !! sub.Keys
    requires forall x, v :: Edge(g', x, v) <==> Edge(g, x, v) || Edge(h, x, v) || (x == u && v == entry)
    ensures Ranked(g', depth + Shifted(inner, depth[u] + 1))
  {
  }

  lemma ChildOfLast(steps: Steps, depth: map<string, nat>, last: string, j: string)
    requires Linked(steps, depth) && last in steps && steps[last].next == []
    requires j in steps && steps[j].prev == last
    ensures j in Entries(steps[last])
  {
    assert Edge(Flow(steps), last, j);
    assert j in Successors(steps[last]);
  }

  /** Nothing on the main line follows the last step yet, so no join closes it. */
  lemma NoJoinAfterLast(steps: Steps, depth: map<string, nat>, last: string, j: string)
    requires Linked(steps, depth) && EntriesOk(steps) && last in steps && steps[last].next == []
    requires j in steps && steps[j].kind == Join
    ensures steps[j].prev != last
  {
    if steps[j].prev == last {
      ChildOfLast(steps, depth, last, j);
      assert false;
    }
  }

  lemma NestJoins(steps: Steps, depth: map<string, nat>, u: string, role: Role, sub: Steps, entry: string)
    requires Apart(steps, u, role, sub, entry)
    requires Linked(steps, depth) && steps[u].next == []
    requires JoinsClose(steps) && EntriesOk(steps) && JoinsClose(sub) && EntriesOk(sub)
    requires Resolved(steps) && Resolved(sub)
    requires sub[entry].kind != Join && sub[entry].prev !in sub
    requires forall x :: x in steps ==> LegalName(x)
    ensures JoinsClose(Nested(steps, u, role, sub, entry))
  {
    hide RawTargets, LegalName, Linked, EntriesOk, AwaitsBranches, Flow, Edge;
    var after := Nested(steps, u, role, sub, entry);
    NestedEdges(steps, u, role, sub, entry);
    forall j | j in after && after[j].kind == Join
      ensures ClosesFork(after, after[j])
    {
      if j in steps {
        assert ClosesFork(steps, steps[j]);
        assert steps[j].prev != u by {
          NoJoinAfterLast(steps, depth, u, j);
        }
        AwaitsStays(steps, after, steps[j]);
        SameAwaits(after, steps[j], after[j]);
      } else {
        assert ClosesFork(sub, sub[j]);
        AwaitsStays(sub, after, sub[j]);
        SameAwaits(after, sub[j], after[j]);
      }
    }
  }

  lemma NestedEdges(steps: Steps, u: string, role: Role, sub: Steps, entry: string)
    requires Apart(steps, u, role, sub, entry)
    ensures var after := Nested(steps, u, role, sub, entry);
            && (forall x, y :: Edge(Flow(steps), x, y) ==> Edge(Flow(after), x, y))
            && (forall x, y :: Edge(Flow(sub), x, y) ==> Edge(Flow(after), x, y))
  {
    hide Successors, Nested, RawTargets;
    forall x, y
      ensures Edge(Flow(steps), x, y) || Edge(Flow(sub), x, y) ==> Edge(Flow(Nested(steps, u, role, sub, entry)), x, y)
    {
      NestedTargets(steps, u, role, sub, entry, x, y);
    }
  }

  lemma NestEntries(steps: Steps, u: string, role: Role, sub: Steps, entry: string)
    requires Apart(steps, u, role, sub, entry)
    requires EntriesOk(steps) && EntriesOk(sub) && Resolved(steps) && Resolved(sub)
    requires sub[entry].kind != Join
    requires forall x :: x in steps ==> LegalName(x)
    requires forall x :: x in sub ==> LegalName(x)
    ensures EntriesOk(Nested(steps, u, role, sub, entry)) && Resolved(Nested(steps, u, role, sub, entry))
  {
    hide RawTargets, Entries, Successors;
    var after := Nested(steps, u, role, sub, entry);
    forall x, v | x in after && v in RawTargets(after[x])
      ensures Resolves(after, v)
    {
      NestedTargets(steps, u, role, sub, entry, x, v);
      if x in sub {
        assert Resolves(sub, v);
      } else if v != entry {
        assert Resolves(steps, v);
      }
    }
    forall x, v | x in after && v in after && v in Entries(after[x])
      ensures after[v].kind != Join
    {
      NestedTargets(steps, u, role, sub, entry, x, v);
      if x in sub {
        EntryResolves(sub, x, v);
      } else if !(x == u && v == entry) {
        EntryResolves(steps, x, v);
      }
    }
  }

  lemma EntryResolves(steps: Steps, x: string, v: string)
    requires Resolved(steps) && x in steps && v in Entries(steps[x])
    ensures IsVirtual(v) || v in steps
  {
    assert v in RawTargets(steps[x]);
    assert Resolves(steps, v);
  }

  /** The three kinds of steps there are after nesting. */
  lemma NestedStep(steps: Steps, u: string, role: Role, sub: Steps, entry: string, x: string)
    requires Apart(steps, u, role, sub, entry) && x in Nested(steps, u, role, sub, entry)
    ensures var d := Nested(steps, u, role, sub, entry)[x];
            if x == entry then x in sub && d == sub[x].(prev := u)
            else if x in sub then d == sub[x]
            else x in steps && d == if x == u then Parent(steps[u], role, entry) else steps[x]
  {
  }

  lemma NestLocal(steps: Steps, main: seq<string>, u: string, role: Role, sub: Steps, entry: string)
    requires Apart(steps, u, role, sub, entry) && OnLine(steps, main)
    requires forall x :: x in steps ==> LocallyOk(x, steps[x])
    requires forall x :: x in sub ==> LocallyOk(x, sub[x])
    requires forall x :: x in steps ==> (steps[x].prev == ROOT <==> x == main[0])
    requires forall x :: x in sub ==> (sub[x].prev == ROOT <==> x == entry)
    ensures var after := Nested(steps, u, role, sub, entry);
            && OnLine(after, main)
            && (forall x :: x in after ==> LocallyOk(x, after[x]))
            && (forall x :: x in after ==> (after[x].prev == ROOT <==> x == main[0]))
            && main[0] in after && after[main[0]].kind == steps[main[0]].kind
  {
    NestLine(steps, main, u, role, sub, entry);
    hide Nested, OnLine;
    var after := Nested(steps, u, role, sub, entry);
    assert main[0] in steps by { LineStartsIn(steps, main); }
    forall x | x in after
      ensures LocallyOk(x, after[x]) && (after[x].prev == ROOT <==> x == main[0])
    {
      NestedStep(steps, u, role, sub, entry, x);
      NestedStepOk(steps, u, role, sub, entry, x);
    }
  }

  lemma LineStartsIn(steps: Steps, main: seq<string>)
    requires OnLine(steps, main)
    ensures main != [] && main[0] in steps
  {
  }

  lemma NestedStepOk(steps: Steps, u: string, role: Role, sub: Steps, entry: string, x: string)
    requires Apart(steps, u, role, sub, entry) && x in Nested(steps, u, role, sub, entry)
    requires x in steps ==> LocallyOk(x, steps[x])
    requires x in sub ==> LocallyOk(x, sub[x])
    requires LocallyOk(u, steps[u])
    ensures LocallyOk(x, Nested(steps, u, role, sub, entry)[x])
    ensures u != ROOT
  {
    hide Nested;
    NestedStep(steps, u, role, sub, entry, x);
  }

  lemma NestLine(steps: Steps, main: seq<string>, u: string, role: Role, sub: Steps, entry: string)
    requires Apart(steps, u, role, sub, entry) && OnLine(steps, main)
    ensures var after := Nested(steps, u, role, sub, entry);
            OnLine(after, main) && main[0] in after && after[main[0]].kind == steps[main[0]].kind
  {
  }

  lemma NestApart(steps: Steps, sh: Shape, role: Role, sub: Steps, inner: Shape)
    requires Sound(steps, sh) && Sound(sub, inner) && steps.Keys !! sub.Keys
    requires var last := steps[sh.Last()];
             if role == AsElse then last.kind == Condition && last.els == "" else last.kind == Fork
    ensures Apart(steps, sh.Last(), role, sub, inner.main[0])
    ensures sub[inner.main[0]].prev !in sub && sub[inner.main[0]].kind != Join
    ensures forall x :: x in steps ==> LegalName(x)
    ensures forall x :: x in sub ==> LegalName(x)
  {
    hide Resolved, JoinsClose, EntriesOk, RankedMain, RawTargets, Successors, Entries, LegalName;
    forall x | x in steps ensures LegalName(x) { LegalNames(x, steps[x]); }
    forall x | x in sub ensures LegalName(x) { LegalNames(x, sub[x]); }
  }

  lemma NestGraph(steps: Steps, sh: Shape, role: Role, sub: Steps, inner: Shape)
    requires Sound(steps, sh) && Sound(sub, inner) && Apart(steps, sh.Last(), role, sub, inner.main[0])
    requires sub[inner.main[0]].prev !in sub
    ensures var after, sh' := Nested(steps, sh.Last(), role, sub, inner.main[0]), NestedShape(sh, sh.Last(), inner);
            RankedMain(after, sh'.main, sh'.rank) && Linked(after, sh'.depth) && sh'.depth.Keys == after.Keys
  {
    hide Linked, Resolved, JoinsClose, EntriesOk, OnLine, RankedMain, LocallyOk, Nested, Shifted, References, Ranked;
    LineFacts(steps, sh);
    LineFacts(sub, inner);
    var last, entry := sh.Last(), inner.main[0];
    RankFacts(sub, inner);
    NestRank(steps, sh.main, sh.rank, last, role, sub, entry, inner.rank);
    NestLinks(steps, sh.depth, last, role, sub, entry, inner.depth);
    NestKeys(steps, sh.depth, last, role, sub, entry, inner.depth, sh.depth[last] + 1);
  }

  lemma NestContents(steps: Steps, sh: Shape, role: Role, sub: Steps, inner: Shape)
    requires Sound(steps, sh) && Sound(sub, inner) && Apart(steps, sh.Last(), role, sub, inner.main[0])
    requires sub[inner.main[0]].prev !in sub && sub[inner.main[0]].kind != Join
    requires forall x :: x in steps ==> LegalName(x)
    requires forall x :: x in sub ==> LegalName(x)
    ensures var after := Nested(steps, sh.Last(), role, sub, inner.main[0]);
            && OnLine(after, sh.main) && Resolved(after) && JoinsClose(after) && EntriesOk(after)
            && (forall x :: x in after ==> LocallyOk(x, after[x]))
            && (forall x :: x in after ==> (after[x].prev == ROOT <==> x == sh.main[0]))
            && after[sh.main[0]].kind != Join
  {
    hide Linked, Resolved, JoinsClose, EntriesOk, OnLine, RankedMain, LocallyOk, Nested, Apart, LegalName;
    LineFacts(steps, sh);
    LineFacts(sub, inner);
    var last, entry := sh.Last(), inner.main[0];
    NestJoins(steps, sh.depth, last, role, sub, entry);
    NestEntries(steps, last, role, sub, entry);
    NestLocal(steps, sh.main, last, role, sub, entry);
  }

  lemma Nest(steps: Steps, sh: Shape, role: Role, sub: Steps, inner: Shape)
    requires Sound(steps, sh) && Sound(sub, inner) && steps.Keys !! sub.Keys
    requires var last := steps[sh.Last()];
             if role == AsElse then last.kind == Condition && last.els == "" else last.kind == Fork
    ensures Sound(Nested(steps, sh.Last(), role, sub, inner.main[0]), NestedShape(sh, sh.Last(), inner))
  {
    hide Linked, Resolved, JoinsClose, EntriesOk, OnLine, RankedMain, LocallyOk, Nested, Shifted, Apart, LegalName;
    NestApart(steps, sh, role, sub, inner);
    NestGraph(steps, sh, role, sub, inner);
    NestContents(steps, sh, role, sub, inner);
  }

  lemma RankFacts(steps: Steps, sh: Shape)
    requires RankedMain(steps, sh.main, sh.rank)
    ensures sh.rank.Keys == steps.Keys && Ranked(References(steps), sh.rank)
  {
  }

  lemma NestKeys(steps: Steps, depth: map<string, nat>, u: string, role: Role, sub: Steps, entry: string,
        inner: map<string, nat>, k: nat)
    requires u in steps && entry in sub && depth.Keys == steps.Keys && inner.Keys == sub.Keys
    ensures (depth + Shifted(inner, k)).Keys == Nested(steps, u, role, sub, entry).Keys
  {
  }
}
