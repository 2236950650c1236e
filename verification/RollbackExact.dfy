/**
 Exactly which steps a rollback reaches, and in which order, on linked definitions.
 */
module RollbackExact {
  import opened Definitions
  import opened Graphs
  import opened Links
  import opened Rollback

  /** `u` is a fork or a parallel step with `v` among its branches. */
  predicate IsBranch(steps: Steps, u: string, v: string) {
    u in steps && (steps[u].kind == Fork || steps[u].kind == Parallel) && v in steps[u].parallel
  }

  /** The step has been executed, whatever became of it. */
  predicate HasRun(status: map<string, StepStatus>, name: string) {
    name in status && (status[name] == Completed || status[name] == Failed || status[name] == Compensation)
  }

  /** The side on which a condition went on: all of Next if a step of it has run, or else Else. */
  predicate WentOn(d: StepDef, status: map<string, StepStatus>, v: string) {
    if exists n :: n in d.next && HasRun(status, n) then v in d.next
    else d.els != "" && v == d.els && HasRun(status, v)
  }

  /**
   Where a rollback gets forward from a step, by the definition and the statuses alone: into
   the branches of a fork, over Next, and over the executed side of a completed condition.
   */
  predicate LeadsTo(steps: Steps, status: map<string, StepStatus>, u: string, v: string) {
    || IsBranch(steps, u, v)
    || (u in steps && steps[u].kind != Condition && v in steps[u].next)
    || (u in steps && steps[u].kind == Condition && u in status && status[u] == Completed
        && WentOn(steps[u], status, v))
  }

  function Down(scene: Scene): Adjacency {
    map u | u in scene.steps ::
      set v | v in scene.steps[u].parallel + scene.steps[u].next + [scene.steps[u].els]
              && LeadsTo(scene.steps, scene.status, u, v)
  }

  /** The traversal's lists are the steps that a step leads to. */
  lemma DownIsTraversed(scene: Scene, u: string)
    requires u in scene.steps
    ensures forall v :: Edge(Down(scene), u, v) <==> LeadsTo(scene.steps, scene.status, u, v)
    ensures forall v :: Edge(Down(scene), u, v) <==> v in scene.Branches(u) + scene.Onward(u)
    ensures forall v :: IsBranch(scene.steps, u, v) <==> v in scene.Branches(u)
  {
    assert forall n :: HasRun(scene.status, n) <==> Executed(scene.status, n);
  }

  /** The step's latest row is completed or failed. */
  predicate Settled(scene: Scene, name: string) {
    name in scene.status && (scene.status[name] == Completed || scene.status[name] == Failed)
  }

  /** A traversal stops at the root or at a save point. */
  predicate StopsWell(scene: Scene) {
    scene.target == ROOT || (scene.target in scene.steps && scene.steps[scene.target].kind == SavePoint)
  }

  ghost predicate Above(scene: Scene, a: string, b: string) {
    Reaches(Flow(scene.steps), a, b)
  }

  /** A descendant is never rolled back after a step above it. */
  ghost predicate DescendantsFirst(scene: Scene, calls: seq<string>) {
    forall i, j :: 0 <= i < j < |calls| ==> !Above(scene, calls[i], calls[j])
  }

  ghost function Below(scene: Scene, name: string): set<string> {
    set x | x in scene.steps && Reaches(Down(scene), name, x)
  }

  /** The traversal added exactly `added` and called exactly its eligible members. */
  ghost predicate Exact(scene: Scene, before: set<string>, w: Walk, added: set<string>) {
    && w.ok
    && w.visited == before + added
    && (forall c :: c in w.calls <==> c in added && Settled(scene, c) && c != scene.target)
    && DescendantsFirst(scene, w.calls)
  }

  lemma ConcatDescendantsFirst(scene: Scene, a: seq<string>, b: seq<string>)
    requires DescendantsFirst(scene, a) && DescendantsFirst(scene, b)
    requires forall x, y :: x in a && y in b ==> !Above(scene, x, y)
    ensures DescendantsFirst(scene, a + b)
  {
    var c := a + b;
    forall i, j | 0 <= i < j < |c|
      ensures !Above(scene, c[i], c[j])
    {
      if i < |a| <= j {
        assert c[i] in a && c[j] in b;
      }
    }
  }

  lemma DownIsFlow(scene: Scene, depth: map<string, nat>, u: string, v: string)
    requires Linked(scene.steps, depth)
    ensures Edge(Down(scene), u, v) ==> Edge(Flow(scene.steps), u, v) && v in scene.steps && scene.steps[v].prev == u
  {
    if Edge(Down(scene), u, v) {
      assert LeadsTo(scene.steps, scene.status, u, v);
      LeadsAlongFlow(scene.steps, scene.status, u, v);
      assert Edge(Flow(scene.steps), u, v);
    }
  }

  lemma LeadsAlongFlow(steps: Steps, status: map<string, StepStatus>, u: string, v: string)
    requires LeadsTo(steps, status, u, v)
    ensures u in steps && v in Successors(steps[u])
  {
    var d := steps[u];
    assert v in d.next || v in d.parallel || (d.els != "" && v == d.els);
  }

  lemma {:induction false} DownReachesFlow(scene: Scene, depth: map<string, nat>, u: string, v: string)
    requires Linked(scene.steps, depth) && Reaches(Down(scene), u, v)
    ensures Above(scene, u, v)
  {
    var p :| PathBetween(Down(scene), p, u, v);
    forall i | 0 <= i < |p| - 1
      ensures Edge(Flow(scene.steps), p[i], p[i + 1])
    {
      assert Edge(Down(scene), p[i], p[i + 1]);
      DownIsFlow(scene, depth, p[i], p[i + 1]);
    }
    assert PathBetween(Flow(scene.steps), p, u, v);
  }

  lemma NotAboveItsAncestor(scene: Scene, depth: map<string, nat>, a: string, b: string)
    requires Linked(scene.steps, depth) && Above(scene, a, b) && a != b
    ensures !Above(scene, b, a)
  {
    ReachesDownwards(scene.steps, depth, a, b);
    if Above(scene, b, a) {
      ReachesDownwards(scene.steps, depth, b, a);
    }
  }

  lemma BelowUnfolds(scene: Scene, name: string, x: string)
    requires name in scene.steps
    ensures Reaches(Down(scene), name, x) <==>
              x == name || exists c :: Edge(Down(scene), name, c) && Reaches(Down(scene), c, x)
  {
    var g := Down(scene);
    ReachesSelf(g, name);
    if Reaches(g, name, x) && x != name {
      var c := ReachesByFirstEdge(g, name, x);
    }
    if c :| Edge(g, name, c) && Reaches(g, c, x) {
      EdgeReaches(g, name, c);
      ReachesTransitive(g, name, c, x);
    }
  }

  /** The union of what lies below the names of a list that are still new. */
  ghost function BelowAll(scene: Scene, names: seq<string>, visited: set<string>): set<string> {
    set x | x in scene.steps && exists c :: c in names && c !in visited && Reaches(Down(scene), c, x)
  }

  ghost predicate Untouched(scene: Scene, name: string, visited: set<string>) {
    forall x :: x in visited ==> !Above(scene, name, x)
  }

  lemma ExactThen(scene: Scene, before: set<string>, a: Walk, addedA: set<string>, b: Walk, addedB: set<string>)
    requires Exact(scene, before, a, addedA) && Exact(scene, a.visited, b, addedB)
    requires forall x, y :: x in addedA && y in addedB ==> !Above(scene, x, y)
    ensures Exact(scene, before, Then(a, b), addedA + addedB)
  {
    ConcatDescendantsFirst(scene, a.calls, b.calls);
  }

  /** A step's own turn, after everything below it. */
  function Self(scene: Scene, name: string, visited: set<string>): Walk {
    Walk(visited, if scene.Eligible(name) then [name] else [], true)
  }

  lemma BelowOfStep(scene: Scene, name: string, list: seq<string>, here: set<string>)
    requires name in scene.steps && list == scene.Branches(name) + scene.Onward(name)
    requires forall c :: c in list ==> c !in here
    ensures BelowAll(scene, list, here) + {name} == Below(scene, name)
  {
    DownIsTraversed(scene, name);
    forall x | x in scene.steps
      ensures x in Below(scene, name) <==> x in BelowAll(scene, list, here) + {name}
    {
      BelowUnfolds(scene, name, x);
    }
    ReachesSelf(Down(scene), name);
  }

  lemma {:induction false} ForwardExact(scene: Scene, depth: map<string, nat>, name: string, visited: set<string>)
    requires Linked(scene.steps, depth)
    requires name in scene.steps && !Above(scene, name, scene.target) && Untouched(scene, name, visited)
    ensures Exact(scene, visited, scene.Chain(name, true, visited), Below(scene, name))
    decreases scene.steps.Keys - visited, 1, 0
  {
    ReachesSelf(Flow(scene.steps), name);
    assert name !in visited && name != scene.target;
    var here := visited + {name};
    var list := scene.Branches(name) + scene.Onward(name);
    DownIsTraversed(scene, name);
    forall c | c in list
      ensures c in scene.steps && scene.steps[c].prev == name
      ensures !Above(scene, c, scene.target) && Untouched(scene, c, here) && c !in here
    {
      ChildOf(scene, depth, name, c, here);
    }
    ForwardAllExact(scene, depth, name, list, here);
    var below := scene.ChainAll(list, here);
    forall a | a in BelowAll(scene, list, here)
      ensures !Above(scene, a, name)
    {
      BelowChildIsProper(scene, depth, name, list, here, a);
    }
    BelowOfStep(scene, name, list, here);
    FinishStep(scene, visited, name, below, BelowAll(scene, list, here));
  }

  /** After what lies below it, a step is rolled back itself. */
  lemma FinishStep(scene: Scene, visited: set<string>, name: string, below: Walk, added: set<string>)
    requires name != scene.target
    requires Exact(scene, visited + {name}, below, added)
    requires forall a :: a in added ==> !Above(scene, a, name)
    ensures Exact(scene, visited, Then(below, Self(scene, name, below.visited)), added + {name})
  {
    ConcatDescendantsFirst(scene, below.calls, Self(scene, name, below.visited).calls);
  }

  lemma ChildOf(scene: Scene, depth: map<string, nat>, name: string, c: string, here: set<string>)
    requires Linked(scene.steps, depth) && name in scene.steps
    requires Edge(Down(scene), name, c)
    requires !Above(scene, name, scene.target) && Untouched(scene, name, here - {name})
    ensures c in scene.steps && scene.steps[c].prev == name
    ensures !Above(scene, c, scene.target) && Untouched(scene, c, here) && c !in here
  {
    var g := Flow(scene.steps);
    DownIsFlow(scene, depth, name, c);
    EdgeReaches(g, name, c);
    forall x | Above(scene, c, x)
      ensures Above(scene, name, x) && x != name
    {
      ReachesTransitive(g, name, c, x);
      NotAboveItsAncestor(scene, depth, name, c);
    }
    ReachesSelf(g, c);
  }

  lemma BelowChildIsProper(scene: Scene, depth: map<string, nat>, name: string, list: seq<string>,
        here: set<string>, a: string)
    requires Linked(scene.steps, depth) && name in scene.steps
    requires forall c :: c in list ==> Edge(Down(scene), name, c)
    requires a in BelowAll(scene, list, here)
    ensures Above(scene, name, a) && !Above(scene, a, name)
  {
    var g := Flow(scene.steps);
    var c :| c in list && c !in here && Reaches(Down(scene), c, a);
    DownIsFlow(scene, depth, name, c);
    DownReachesFlow(scene, depth, c, a);
    EdgeReaches(g, name, c);
    ReachesTransitive(g, name, c, a);
    if a == name {
      NotAboveItsAncestor(scene, depth, name, c);
    } else {
      NotAboveItsAncestor(scene, depth, name, a);
    }
  }

  lemma {:induction false} ForwardAllExact(scene: Scene, depth: map<string, nat>, parent: string,
        names: seq<string>, visited: set<string>)
    requires Linked(scene.steps, depth) && parent in scene.steps
    requires forall c :: c in names ==> c in scene.steps && scene.steps[c].prev == parent
    requires forall c :: c in names ==> c in visited || (Untouched(scene, c, visited) && !Above(scene, c, scene.target))
    ensures Exact(scene, visited, scene.ChainAll(names, visited), BelowAll(scene, names, visited))
    decreases scene.steps.Keys - visited, 2, |names|
  {
    if names == [] {
      assert BelowAll(scene, names, visited) == {};
    } else {
      var first, rest := names[0], names[1..];
      var w := scene.Chain(first, true, visited);
      if first in visited {
        assert BelowAll(scene, names, visited) == BelowAll(scene, rest, visited);
        ForwardAllExact(scene, depth, parent, rest, visited);
        assert w.calls + scene.ChainAll(rest, visited).calls == scene.ChainAll(rest, visited).calls;
      } else {
        ForwardExact(scene, depth, first, visited);
        forall c | c in rest && c !in w.visited
          ensures Untouched(scene, c, w.visited) && forall x :: x in Below(scene, first) ==> !Reaches(Down(scene), c, x)
        {
          SiblingUntouched(scene, depth, parent, first, c, visited);
        }
        ForwardAllExact(scene, depth, parent, rest, w.visited);
        forall c | c in rest && c !in visited && c in w.visited
          ensures c == first
        {
          DownReachesFlow(scene, depth, first, c);
          if c != first {
            SiblingsAreUnrelated(scene.steps, depth, parent, first, c);
          }
        }
        BelowAllSplits(scene, names, visited, w.visited);
        AcrossSiblings(scene, depth, parent, first, rest, w.visited);
        ExactThen(scene, visited, w, Below(scene, first), scene.ChainAll(rest, w.visited),
                  BelowAll(scene, rest, w.visited));
      }
    }
  }

  lemma SiblingUntouched(scene: Scene, depth: map<string, nat>, parent: string, first: string, c: string,
        visited: set<string>)
    requires Linked(scene.steps, depth) && parent in scene.steps && first in scene.steps && c in scene.steps
    requires scene.steps[first].prev == parent && scene.steps[c].prev == parent
    requires c !in visited + Below(scene, first) && Untouched(scene, c, visited)
    ensures Untouched(scene, c, visited + Below(scene, first))
    ensures forall x :: x in Below(scene, first) ==> !Reaches(Down(scene), c, x)
  {
    ReachesSelf(Down(scene), first);
    assert c != first;
    forall x | x in Below(scene, first)
      ensures !Above(scene, c, x) && !Reaches(Down(scene), c, x)
    {
      DownReachesFlow(scene, depth, first, x);
      SiblingsAreDisjoint(scene.steps, depth, parent, first, c, x);
      if Reaches(Down(scene), c, x) {
        DownReachesFlow(scene, depth, c, x);
      }
    }
  }

  lemma BelowAllSplits(scene: Scene, names: seq<string>, visited: set<string>, after: set<string>)
    requires names != [] && names[0] !in visited && names[0] in scene.steps
    requires after == visited + Below(scene, names[0])
    requires forall c :: c in names[1..] && c !in visited && c in after ==> c == names[0]
    ensures BelowAll(scene, names, visited) == Below(scene, names[0]) + BelowAll(scene, names[1..], after)
  {
    forall x | x in scene.steps
      ensures x in BelowAll(scene, names, visited) <==>
              x in Below(scene, names[0]) || x in BelowAll(scene, names[1..], after)
    {
      if x in BelowAll(scene, names, visited) {
        var c :| c in names && c !in visited && Reaches(Down(scene), c, x);
        if c != names[0] {
          assert c in names[1..];
        }
      }
    }
  }

  /** Steps below `first` are not above steps below its siblings. */
  lemma AcrossSiblings(scene: Scene, depth: map<string, nat>, parent: string, first: string, rest: seq<string>,
        after: set<string>)
    requires Linked(scene.steps, depth) && parent in scene.steps && first in scene.steps && first in after
    requires scene.steps[first].prev == parent
    requires forall c :: c in rest ==> c in scene.steps && scene.steps[c].prev == parent
    ensures forall a, b :: a in Below(scene, first) && b in BelowAll(scene, rest, after) ==> !Above(scene, a, b)
  {
    forall a, b | a in Below(scene, first) && b in BelowAll(scene, rest, after)
      ensures !Above(scene, a, b)
    {
      var c :| c in rest && c !in after && Reaches(Down(scene), c, b);
      DownReachesFlow(scene, depth, first, a);
      DownReachesFlow(scene, depth, c, b);
      if Above(scene, a, b) {
        ReachesTransitive(Flow(scene.steps), first, a, b);
        SiblingsAreDisjoint(scene.steps, depth, parent, first, c, b);
      }
    }
  }

  /** The steps from `name` upwards as far as the stop, both included. */
  ghost predicate Between(scene: Scene, n: string, name: string) {
    n in scene.steps && Above(scene, n, name) && (scene.target == ROOT || Above(scene, scene.target, n))
  }

  /** `x` lies in a branch of the fork `n` that does not lead to `name`. */
  ghost predicate InSideBranch(scene: Scene, n: string, name: string, x: string) {
    && n in scene.steps
    && exists p :: IsBranch(scene.steps, n, p) && !Above(scene, p, name) && Reaches(Down(scene), p, x)
  }

  /** What the backward part reaches from `name` on: the steps above, with their side branches. */
  ghost function UpSet(scene: Scene, name: string): set<string> {
    set x | x in scene.steps && exists n ::
      Between(scene, n, name) && (x == n || (n != name && InSideBranch(scene, n, name, x)))
  }

  /** Going up one link. */
  lemma AboveParent(scene: Scene, depth: map<string, nat>, n: string, name: string)
    requires Linked(scene.steps, depth) && name in scene.steps && scene.steps[name].prev in scene.steps
    ensures Above(scene, scene.steps[name].prev, name)
    ensures n != name && Above(scene, n, name) ==> Above(scene, n, scene.steps[name].prev)
    ensures Above(scene, n, scene.steps[name].prev) ==> n != name && Above(scene, n, name)
  {
    var g, prev := Flow(scene.steps), scene.steps[name].prev;
    assert Edge(g, prev, name);
    EdgeReaches(g, prev, name);
    if n != name && Above(scene, n, name) {
      var w := ReachesByLastEdge(g, n, name);
    }
    if Above(scene, n, prev) {
      ReachesTransitive(g, n, prev, name);
      NotAboveItsAncestor(scene, depth, prev, name);
    }
  }

  lemma NothingAboveTop(scene: Scene, depth: map<string, nat>, n: string, name: string)
    requires Linked(scene.steps, depth) && name in scene.steps && scene.steps[name].prev !in scene.steps
    requires Above(scene, n, name)
    ensures n == name
  {
    if n != name {
      var w := ReachesByLastEdge(Flow(scene.steps), n, name);
      assert false;
    }
  }

  lemma BranchesAreChildren(scene: Scene, depth: map<string, nat>, n: string, p: string)
    requires Linked(scene.steps, depth) && n in scene.steps && p in scene.Branches(n)
    ensures p in scene.steps && scene.steps[p].prev == n
  {
    assert p in Successors(scene.steps[n]);
    assert Edge(Flow(scene.steps), n, p);
  }

  ghost predicate OneUp(scene: Scene, depth: map<string, nat>, name: string, prev: string) {
    && Linked(scene.steps, depth) && name in scene.steps && prev in scene.steps
    && scene.steps[name].prev == prev
    && name != scene.target && Between(scene, name, name)
  }

  lemma UpSetGoesUp(scene: Scene, depth: map<string, nat>, name: string, prev: string, x: string)
    requires OneUp(scene, depth, name, prev)
    requires x in UpSet(scene, name) && x != name
    ensures x in UpSet(scene, prev) || InSideBranch(scene, prev, name, x)
  {
    var n :| Between(scene, n, name) && (x == n || (n != name && InSideBranch(scene, n, name, x)));
    AboveParent(scene, depth, n, name);
    assert Between(scene, n, prev);
    if x != n && n != prev {
      var p :| IsBranch(scene.steps, n, p) && !Above(scene, p, name) && Reaches(Down(scene), p, x);
      AboveParent(scene, depth, p, name);
      assert InSideBranch(scene, n, prev, x);
    }
  }

  lemma UpSetComesDown(scene: Scene, depth: map<string, nat>, name: string, prev: string, x: string)
    requires OneUp(scene, depth, name, prev)
    requires x in UpSet(scene, prev)
    ensures x in UpSet(scene, name) && x != name
  {
    var n :| Between(scene, n, prev) && (x == n || (n != prev && InSideBranch(scene, n, prev, x)));
    AboveParent(scene, depth, n, name);
    assert Between(scene, n, name);
    if x != n {
      var p :| IsBranch(scene.steps, n, p) && !Above(scene, p, prev) && Reaches(Down(scene), p, x);
      BranchesAreChildren(scene, depth, n, p);
      AboveParent(scene, depth, p, name);
      assert InSideBranch(scene, n, name, x);
      if x == name {
        DownReachesFlow(scene, depth, p, name);
      }
    }
  }

  lemma SideBranchIsUp(scene: Scene, depth: map<string, nat>, name: string, prev: string, x: string)
    requires OneUp(scene, depth, name, prev)
    requires x in scene.steps && InSideBranch(scene, prev, name, x)
    ensures x in UpSet(scene, name)
  {
    AboveParent(scene, depth, prev, name);
    AboveParent(scene, depth, scene.target, name);
    NotAboveItsAncestor(scene, depth, prev, name) by {
      AboveParent(scene, depth, name, name);
      ReachesSelf(Flow(scene.steps), prev);
      AboveParent(scene, depth, prev, name);
    }
    assert Between(scene, prev, name);
  }

  /** The siblings of `name` in a fork are its parent's side branches. */
  lemma SideBranchesAreSiblings(scene: Scene, depth: map<string, nat>, name: string, prev: string,
        visited: set<string>)
    requires OneUp(scene, depth, name, prev)
    requires forall p :: p in scene.Branches(prev) ==> (p in visited <==> p == name)
    ensures BelowAll(scene, scene.Branches(prev), visited) ==
            set x | x in scene.steps && InSideBranch(scene, prev, name, x)
  {
    ReachesSelf(Flow(scene.steps), name);
    forall p | p in scene.Branches(prev)
      ensures p !in visited <==> !Above(scene, p, name)
    {
      BranchesAreChildren(scene, depth, prev, p);
      if p != name {
        SiblingsAreUnrelated(scene.steps, depth, prev, p, name);
      }
    }
  }

  /** One level of the backward part: the step, its siblings in a fork, and the rest. */
  lemma UpSetUnfolds(scene: Scene, depth: map<string, nat>, name: string, prev: string, visited: set<string>)
    requires OneUp(scene, depth, name, prev)
    requires forall p :: p in scene.Branches(prev) ==> (p in visited <==> p == name)
    ensures UpSet(scene, name) == {name} + BelowAll(scene, scene.Branches(prev), visited) + UpSet(scene, prev)
  {
    SideBranchesAreSiblings(scene, depth, name, prev, visited);
    forall x | x in scene.steps
      ensures x in UpSet(scene, name) <==> x == name || InSideBranch(scene, prev, name, x) || x in UpSet(scene, prev)
    {
      if x in UpSet(scene, name) && x != name {
        UpSetGoesUp(scene, depth, name, prev, x);
      }
      if InSideBranch(scene, prev, name, x) {
        SideBranchIsUp(scene, depth, name, prev, x);
      }
      if x in UpSet(scene, prev) {
        UpSetComesDown(scene, depth, name, prev, x);
      }
    }
  }

  lemma {:induction false} AllVisited(scene: Scene, names: seq<string>, visited: set<string>)
    requires forall n :: n in names ==> n in visited
    ensures scene.ChainAll(names, visited) == Walk(visited, [], true)
    decreases |names|
  {
    if names != [] {
      AllVisited(scene, names[1..], visited);
    }
  }

  lemma UpSetAtStop(scene: Scene, depth: map<string, nat>, name: string)
    requires Linked(scene.steps, depth) && name in scene.steps && Between(scene, name, name)
    requires name == scene.target || scene.steps[name].prev !in scene.steps
    ensures UpSet(scene, name) == {name}
  {
    forall n | Between(scene, n, name)
      ensures n == name
    {
      if name == scene.target {
        if n != name {
          NotAboveItsAncestor(scene, depth, n, name);
        }
      } else {
        NothingAboveTop(scene, depth, n, name);
      }
    }
    ReachesSelf(Flow(scene.steps), name);
  }

  /** What is reached after a step is not below it. */
  lemma {:induction false} UpSetIsNotBelow(scene: Scene, depth: map<string, nat>, name: string, b: string)
    requires Linked(scene.steps, depth) && name in scene.steps && Between(scene, name, name)
    requires b in UpSet(scene, name) && b != name
    ensures !Above(scene, name, b)
  {
    var n :| Between(scene, n, name) && (b == n || (n != name && InSideBranch(scene, n, name, b)));
    if b == n {
      NotAboveItsAncestor(scene, depth, n, name);
    } else {
      var p :| IsBranch(scene.steps, n, p) && !Above(scene, p, name) && Reaches(Down(scene), p, b);
      BranchesAreChildren(scene, depth, n, p);
      DownReachesFlow(scene, depth, p, b);
      if Above(scene, name, b) {
        AncestorsAreComparable(scene.steps, depth, p, name, b);
        // `name` above `p`, hence above or equal to its parent `n`, which is above `name`.
        ReachesSelf(Flow(scene.steps), p);
        assert name != p;
        AboveParent(scene, depth, name, p);
        NotAboveItsAncestor(scene, depth, n, name);
        assert false;
      }
    }
  }

  ghost predicate BelowOnly(scene: Scene, name: string, visited: set<string>) {
    name !in visited && forall x :: x in visited ==> Above(scene, name, x)
  }

  /** The siblings of a step in a fork, when only steps below the step have been visited. */
  lemma {:induction false} SiblingsExact(scene: Scene, depth: map<string, nat>, name: string, prev: string,
        visited: set<string>)
    requires OneUp(scene, depth, name, prev) && StopsWell(scene)
    requires name in visited && forall x :: x in visited ==> Above(scene, name, x)
    ensures forall p :: p in scene.Branches(prev) ==> (p in visited <==> p == name)
    ensures Exact(scene, visited, scene.ChainAll(scene.Branches(prev), visited),
                  BelowAll(scene, scene.Branches(prev), visited))
  {
    var g := Flow(scene.steps);
    forall p | p in scene.Branches(prev)
      ensures p in scene.steps && scene.steps[p].prev == prev
      ensures p != name ==> p !in visited && Untouched(scene, p, visited) && !Above(scene, p, scene.target)
    {
      BranchesAreChildren(scene, depth, prev, p);
      if p != name {
        SiblingsAreUnrelated(scene.steps, depth, prev, name, p);
        SiblingsAreUnrelated(scene.steps, depth, prev, p, name);
        forall x | x in visited
          ensures !Above(scene, p, x)
        {
          SiblingsAreDisjoint(scene.steps, depth, prev, name, p, x);
        }
        if Above(scene, p, scene.target) {
          if scene.target == ROOT {
            ReachesDownwards(scene.steps, depth, p, ROOT);
          } else {
            ReachesTransitive(g, p, scene.target, name);
          }
          assert false;
        }
      }
    }
    ForwardAllExact(scene, depth, prev, scene.Branches(prev), visited);
  }

  lemma {:induction false} UpwardsExact(scene: Scene, depth: map<string, nat>, name: string, prev: string,
        visited: set<string>)
    requires OneUp(scene, depth, name, prev) && StopsWell(scene)
    requires name in visited && forall x :: x in visited ==> Above(scene, name, x)
    ensures Exact(scene, visited, scene.Upwards(prev, visited), UpSet(scene, name) - {name})
    decreases scene.steps.Keys - visited, 1
  {
    var list := scene.Branches(prev);
    SiblingsExact(scene, depth, name, prev, visited);
    var siblings := scene.ChainAll(list, visited);
    var added := BelowAll(scene, list, visited);
    VisitedIsBelowParent(scene, depth, name, prev, visited, siblings.visited);
    BackwardExact(scene, depth, prev, siblings.visited);
    var up := scene.Chain(prev, false, siblings.visited);
    SideIsNotAboveUp(scene, depth, prev, added);
    ExactThen(scene, visited, siblings, added, up, UpSet(scene, prev));
    UpSetUnfolds(scene, depth, name, prev, visited);
    NameIsNew(scene, depth, name, prev, visited);
    RemoveOne(UpSet(scene, name), name, added, UpSet(scene, prev));
  }

  lemma RemoveOne(all: set<string>, name: string, a: set<string>, b: set<string>)
    requires all == {name} + a + b && name !in a && name !in b
    ensures all - {name} == a + b
  {
  }

  lemma AddOne(a: set<string>, name: string, b: set<string>)
    requires name in b
    ensures a + {name} + (b - {name}) == a + b
  {
  }

  lemma VisitedIsBelowParent(scene: Scene, depth: map<string, nat>, name: string, prev: string,
        visited: set<string>, after: set<string>)
    requires OneUp(scene, depth, name, prev)
    requires forall x :: x in visited ==> Above(scene, name, x)
    requires after == visited + BelowAll(scene, scene.Branches(prev), visited)
    ensures BelowOnly(scene, prev, after) && Between(scene, prev, prev)
  {
    var g := Flow(scene.steps);
    AboveParent(scene, depth, name, name);
    AboveParent(scene, depth, scene.target, name);
    ReachesSelf(g, prev);
    forall x | x in after
      ensures Above(scene, prev, x) && x != prev
    {
      if x in visited {
        ReachesTransitive(g, prev, name, x);
      } else {
        SiblingBelowParent(scene, depth, prev, visited, x);
      }
    }
  }

  lemma SideIsNotAboveUp(scene: Scene, depth: map<string, nat>, prev: string, added: set<string>)
    requires Linked(scene.steps, depth) && prev in scene.steps && Between(scene, prev, prev)
    requires forall x :: x in added ==> Above(scene, prev, x) && x != prev
    ensures forall x, y :: x in added && y in UpSet(scene, prev) ==> !Above(scene, x, y)
  {
    forall x, y | x in added && y in UpSet(scene, prev)
      ensures !Above(scene, x, y)
    {
      if y == prev {
        NotAboveItsAncestor(scene, depth, prev, x);
      } else {
        UpSetIsNotBelow(scene, depth, prev, y);
        if Above(scene, x, y) {
          ReachesTransitive(Flow(scene.steps), prev, x, y);
        }
      }
    }
  }

  lemma SiblingBelowParent(scene: Scene, depth: map<string, nat>, prev: string, visited: set<string>, x: string)
    requires Linked(scene.steps, depth) && prev in scene.steps
    requires x in BelowAll(scene, scene.Branches(prev), visited)
    ensures Above(scene, prev, x) && !Above(scene, x, prev) && x != prev
  {
    var p :| p in scene.Branches(prev) && p !in visited && Reaches(Down(scene), p, x);
    BranchesAreChildren(scene, depth, prev, p);
    DownReachesFlow(scene, depth, p, x);
    AboveParent(scene, depth, p, p);
    ReachesTransitive(Flow(scene.steps), prev, p, x);
    if Above(scene, x, prev) {
      ReachesTransitive(Flow(scene.steps), p, x, prev);
      AboveParent(scene, depth, p, p);
    }
    ReachesSelf(Flow(scene.steps), prev);
  }

  lemma NameIsNew(scene: Scene, depth: map<string, nat>, name: string, prev: string, visited: set<string>)
    requires OneUp(scene, depth, name, prev) && name in visited
    requires forall p :: p in scene.Branches(prev) ==> (p in visited <==> p == name)
    ensures name !in BelowAll(scene, scene.Branches(prev), visited) && name !in UpSet(scene, prev)
  {
    if name in BelowAll(scene, scene.Branches(prev), visited) {
      var p :| p in scene.Branches(prev) && p !in visited && Reaches(Down(scene), p, name);
      BranchesAreChildren(scene, depth, prev, p);
      DownReachesFlow(scene, depth, p, name);
      SiblingsAreUnrelated(scene.steps, depth, prev, p, name);
    }
    if name in UpSet(scene, prev) {
      UpSetComesDown(scene, depth, name, prev, name);
    }
  }

  lemma {:induction false} BackwardExact(scene: Scene, depth: map<string, nat>, name: string, visited: set<string>)
    requires Linked(scene.steps, depth) && StopsWell(scene)
    requires name in scene.steps && Between(scene, name, name)
    requires BelowOnly(scene, name, visited)
    requires forall p :: p in scene.Branches(name) ==> p in visited
    ensures Exact(scene, visited, scene.Chain(name, false, visited), UpSet(scene, name))
    decreases scene.steps.Keys - visited, 0
  {
    if name == scene.target {
      UpSetAtStop(scene, depth, name);
    } else {
      var here := visited + {name};
      assert scene.Branches(name) + [] == scene.Branches(name);
      AllVisited(scene, scene.Branches(name), here);
      FinishBackward(scene, depth, name, visited, Walk(here, [], true), {});
    }
  }

  /** A step's own turn and everything after it, once its branches are done. */
  lemma {:induction false} FinishBackward(scene: Scene, depth: map<string, nat>, name: string,
        visited: set<string>, below: Walk, added: set<string>)
    requires Linked(scene.steps, depth) && StopsWell(scene)
    requires name in scene.steps && name != scene.target && Between(scene, name, name)
    requires BelowOnly(scene, name, visited)
    requires below == scene.ChainAll(scene.Branches(name), visited + {name})
    requires Exact(scene, visited + {name}, below, added)
    requires forall a :: a in added ==> Above(scene, name, a) && !Above(scene, a, name)
    ensures Exact(scene, visited, scene.Chain(name, false, visited), added + UpSet(scene, name))
    decreases scene.steps.Keys - visited - {name}, 2
  {
    hide Above, UpSet, Flow, Down, DescendantsFirst;
    var prev := scene.steps[name].prev;
    var done := Then(below, Self(scene, name, below.visited));
    assert scene.Branches(name) + [] == scene.Branches(name);
    FinishStep(scene, visited, name, below, added);
    if prev !in scene.steps {
      assert prev == "" || prev == ROOT;
      UpSetAtStop(scene, depth, name);
      assert scene.Chain(name, false, visited) == done;
    } else {
      ReachesSelf(Flow(scene.steps), name);
      UpwardsExact(scene, depth, name, prev, done.visited);
      var up := scene.Upwards(prev, done.visited);
      AfterOwnTurn(scene, depth, name, added);
      ExactThen(scene, visited, done, added + {name}, up, UpSet(scene, name) - {name});
      InOwnUpSet(scene, name);
      AddOne(added, name, UpSet(scene, name));
    }
  }

  lemma InOwnUpSet(scene: Scene, name: string)
    requires name in scene.steps && Between(scene, name, name)
    ensures name in UpSet(scene, name)
  {
  }

  lemma AfterOwnTurn(scene: Scene, depth: map<string, nat>, name: string, added: set<string>)
    requires Linked(scene.steps, depth) && name in scene.steps && Between(scene, name, name)
    requires forall a :: a in added ==> Above(scene, name, a)
    ensures forall x, y :: x in added + {name} && y in UpSet(scene, name) - {name} ==> !Above(scene, x, y)
  {
    forall x, y | x in added + {name} && y in UpSet(scene, name) - {name}
      ensures !Above(scene, x, y)
    {
      UpSetIsNotBelow(scene, depth, name, y);
      if Above(scene, x, y) && x != name {
        ReachesTransitive(Flow(scene.steps), name, x, y);
      }
    }
  }

  /**
   The steps a rollback from `failed` is about: those on the way up to the stop, which is
   not among them, and those in the branches of forks on the way that do not lead to `failed`.
   */
  ghost predicate Concerned(scene: Scene, failed: string, x: string) {
    && x in scene.steps
    && exists n :: Between(scene, n, failed) && n != scene.target && (x == n || InSideBranch(scene, n, failed, x))
  }

  lemma ConcernedIsReached(scene: Scene, depth: map<string, nat>, failed: string, x: string)
    requires Linked(scene.steps, depth) && StopsWell(scene)
    requires failed in scene.steps && failed != scene.target && Between(scene, failed, failed)
    ensures Concerned(scene, failed, x) <==>
              x != scene.target && (x in BelowAll(scene, scene.Branches(failed), {failed}) || x in UpSet(scene, failed))
  {
    ReachesSelf(Flow(scene.steps), failed);
    forall p | p in scene.Branches(failed)
      ensures p != failed && !Above(scene, p, failed)
    {
      BranchesAreChildren(scene, depth, failed, p);
      AboveParent(scene, depth, p, p);
    }
    if n :| Between(scene, n, failed) && InSideBranch(scene, n, failed, x) && x == scene.target {
      SideBranchMissesTarget(scene, depth, n, failed);
    }
    if x in BelowAll(scene, scene.Branches(failed), {failed}) {
      assert InSideBranch(scene, failed, failed, x);
    }
    assert scene.target in scene.steps ==> scene.Branches(scene.target) == [];
  }

  lemma SideBranchMissesTarget(scene: Scene, depth: map<string, nat>, n: string, failed: string)
    requires Linked(scene.steps, depth) && StopsWell(scene) && failed in scene.steps && Between(scene, n, failed)
    requires scene.target == ROOT || Above(scene, scene.target, failed)
    ensures !InSideBranch(scene, n, failed, scene.target)
  {
    if InSideBranch(scene, n, failed, scene.target) {
      var p :| IsBranch(scene.steps, n, p) && !Above(scene, p, failed) && Reaches(Down(scene), p, scene.target);
      BranchesAreChildren(scene, depth, n, p);
      DownReachesFlow(scene, depth, p, scene.target);
      if scene.target == ROOT {
        ReachesDownwards(scene.steps, depth, p, ROOT);
      } else {
        ReachesTransitive(Flow(scene.steps), p, scene.target, failed);
      }
    }
  }

  /**
   A rollback from `failed` to its stop calls rollbackStep on every completed or failed
   step it concerns, exactly once, on nothing else, and never on a step before one below it.
   */
  lemma {:induction false} RollbackIsExact(scene: Scene, depth: map<string, nat>, failed: string)
    requires Linked(scene.steps, depth) && StopsWell(scene)
    requires failed in scene.steps && failed != scene.target
    requires scene.target == ROOT || Above(scene, scene.target, failed)
    ensures scene.Chain(failed, false, {}).ok
    ensures NoDuplicates(scene.Chain(failed, false, {}).calls)
    ensures DescendantsFirst(scene, scene.Chain(failed, false, {}).calls)
    ensures forall c :: c in scene.Chain(failed, false, {}).calls <==> Concerned(scene, failed, c) && Settled(scene, c)
  {
    EachStepAtMostOnce(scene, failed, false, {});
    ReachesSelf(Flow(scene.steps), failed);
    var list := scene.Branches(failed);
    var below := scene.ChainAll(list, {} + {failed});
    TopBranchesExact(scene, depth, failed);
    FinishBackward(scene, depth, failed, {}, below, BelowAll(scene, list, {failed}));
    forall x | x in scene.steps
      ensures Concerned(scene, failed, x) <==>
              x != scene.target && x in BelowAll(scene, list, {failed}) + UpSet(scene, failed)
    {
      ConcernedIsReached(scene, depth, failed, x);
    }
  }

  lemma {:induction false} TopBranchesExact(scene: Scene, depth: map<string, nat>, failed: string)
    requires Linked(scene.steps, depth) && StopsWell(scene)
    requires failed in scene.steps && failed != scene.target
    requires scene.target == ROOT || Above(scene, scene.target, failed)
    ensures var list := scene.Branches(failed);
            && Exact(scene, {failed}, scene.ChainAll(list, {} + {failed}), BelowAll(scene, list, {failed}))
            && forall a :: a in BelowAll(scene, list, {failed}) ==> Above(scene, failed, a) && !Above(scene, a, failed)
  {
    var list := scene.Branches(failed);
    assert {} + {failed} == {failed};
    forall p | p in list
      ensures p in scene.steps && scene.steps[p].prev == failed
      ensures Untouched(scene, p, {failed}) && !Above(scene, p, scene.target)
    {
      BranchesAreChildren(scene, depth, failed, p);
      AboveParent(scene, depth, p, p);
      if Above(scene, p, scene.target) {
        if scene.target == ROOT {
          ReachesDownwards(scene.steps, depth, p, ROOT);
        } else {
          ReachesTransitive(Flow(scene.steps), p, scene.target, failed);
        }
        assert false;
      }
    }
    ForwardAllExact(scene, depth, failed, list, {failed});
    forall a | a in BelowAll(scene, list, {failed})
      ensures Above(scene, failed, a) && !Above(scene, a, failed)
    {
      SiblingBelowParent(scene, depth, failed, {failed}, a);
    }
  }
}
