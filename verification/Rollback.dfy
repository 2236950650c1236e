/**
 The rollback traversal: backwards along Prev from the failed step, forwards through the
 branches of every fork on the way, with one visited map shared by both modes.
 */
module Rollback {
  import opened Definitions
  import opened Graphs
  import opened Links

  datatype Branch = NextBranch | ElseBranch | NoBranch

  /** What one traversal has done: names entered, names passed to rollbackStep, no lookup error. */
  datatype Walk = Walk(visited: set<string>, calls: seq<string>, ok: bool)

  predicate Executed(status: map<string, StepStatus>, name: string) {
    name in status && status[name] in {Completed, Failed, Compensation}
  }

  /** A traversal's inputs: the definition, the statuses read before it, and where it stops. */
  datatype Scene = Scene(steps: Steps, status: map<string, StepStatus>, target: string) {

    predicate Eligible(name: string) {
      name in status && (status[name] == Completed || status[name] == Failed)
    }

    /** determineExecutedBranch */
    function ExecutedBranch(d: StepDef): Branch {
      if exists n :: n in d.next && Executed(status, n) then NextBranch
      else if d.els != "" && Executed(status, d.els) then ElseBranch
      else NoBranch
    }

    function Branches(name: string): seq<string>
      requires name in steps
    {
      if steps[name].Forks() then steps[name].parallel else []
    }

    /** Where the traversal goes on from a step inside a branch. */
    function Onward(name: string): seq<string>
      requires name in steps
    {
      var d := steps[name];
      if d.kind != Condition then d.next
      else if name !in status || status[name] != Completed then []
      else match ExecutedBranch(d)
        case NextBranch => d.next
        case ElseBranch => [d.els]
        case NoBranch => []
    }

    /** rollbackStepChainWithVisited; `inBranch` is its isParallel. */
    function Chain(name: string, inBranch: bool, visited: set<string>): (r: Walk)
      ensures visited <= r.visited && name in r.visited
      decreases steps.Keys - visited, 1, 0
    {
      if name in visited then Walk(visited, [], true)
      else
        var here := visited + {name};
        if name == target then Walk(here, [], true)
        else if name !in steps then Walk(here, [], false)
        else
          var below := ChainAll(Branches(name) + (if inBranch then Onward(name) else []), here);
          if !below.ok then below
          else
            var done := Then(below, Walk(below.visited, if Eligible(name) then [name] else [], true));
            var prev := steps[name].prev;
            if prev == "" || prev == ROOT || inBranch then done else Then(done, Upwards(prev, done.visited))
    }

    /** Backwards over the link to `prev`: the other branches of a fork, then `prev` itself. */
    function Upwards(prev: string, visited: set<string>): (r: Walk)
      ensures visited <= r.visited
      decreases steps.Keys - visited, 3, 0
    {
      var siblings := ChainAll(if prev in steps then Branches(prev) else [], visited);
      if !siblings.ok then siblings else Then(siblings, Chain(prev, false, siblings.visited))
    }

    /** The forward traversals of a list, one after the other, up to the first error. */
    function ChainAll(names: seq<string>, visited: set<string>): (r: Walk)
      ensures visited <= r.visited
      ensures r.ok ==> forall n :: n in names ==> n in r.visited
      decreases steps.Keys - visited, 2, |names|
    {
      if names == [] then Walk(visited, [], true)
      else
        var first := Chain(names[0], true, visited);
        if !first.ok then first else Then(first, ChainAll(names[1..], first.visited))
    }
  }

  function Then(a: Walk, b: Walk): Walk {
    Walk(b.visited, a.calls + b.calls, b.ok)
  }

  /** What holds of every traversal, on any definition, cyclic or inconsistent ones included. */
  ghost predicate CallsOnce(scene: Scene, before: set<string>, w: Walk) {
    && NoDuplicates(w.calls)
    && forall c :: c in w.calls ==> c in w.visited && c !in before && c in scene.steps && scene.Eligible(c)
  }

  lemma CallsOnceThen(scene: Scene, before: set<string>, a: Walk, b: Walk)
    requires CallsOnce(scene, before, a) && CallsOnce(scene, a.visited, b)
    requires before <= a.visited <= b.visited
    ensures CallsOnce(scene, before, Then(a, b))
  {
    var calls := a.calls + b.calls;
    forall i, j | 0 <= i < j < |calls|
      ensures calls[i] != calls[j]
    {
      if i < |a.calls| <= j {
        assert calls[i] in a.calls && calls[j] in b.calls;
      }
    }
  }

  /** No step is passed to rollbackStep twice in one traversal, and only eligible ones are. */
  lemma {:induction false} EachStepAtMostOnce(scene: Scene, name: string, inBranch: bool, visited: set<string>)
    ensures CallsOnce(scene, visited, scene.Chain(name, inBranch, visited))
    decreases scene.steps.Keys - visited, 1, 0
  {
    if name !in visited && name != scene.target && name in scene.steps {
      var here := visited + {name};
      var down := scene.Branches(name) + (if inBranch then scene.Onward(name) else []);
      var below := scene.ChainAll(down, here);
      EachListAtMostOnce(scene, down, here);
      if below.ok {
        var self := Walk(below.visited, if scene.Eligible(name) then [name] else [], true);
        var done := Then(below, self);
        assert CallsOnce(scene, visited, done) by {
          var calls := done.calls;
          forall i, j | 0 <= i < j < |calls|
            ensures calls[i] != calls[j]
          {
            assert calls[i] in below.calls;
          }
        }
        var prev := scene.steps[name].prev;
        if !(prev == "" || prev == ROOT || inBranch) {
          EachUpwardsAtMostOnce(scene, prev, done.visited);
          CallsOnceThen(scene, visited, done, scene.Upwards(prev, done.visited));
        }
      }
    }
  }

  lemma {:induction false} EachUpwardsAtMostOnce(scene: Scene, prev: string, visited: set<string>)
    ensures CallsOnce(scene, visited, scene.Upwards(prev, visited))
    decreases scene.steps.Keys - visited, 3, 0
  {
    var list := if prev in scene.steps then scene.Branches(prev) else [];
    var siblings := scene.ChainAll(list, visited);
    EachListAtMostOnce(scene, list, visited);
    if siblings.ok {
      EachStepAtMostOnce(scene, prev, false, siblings.visited);
      CallsOnceThen(scene, visited, siblings, scene.Chain(prev, false, siblings.visited));
    }
  }

  lemma {:induction false} EachListAtMostOnce(scene: Scene, names: seq<string>, visited: set<string>)
    ensures CallsOnce(scene, visited, scene.ChainAll(names, visited))
    decreases scene.steps.Keys - visited, 2, |names|
  {
    if names != [] {
      var first := scene.Chain(names[0], true, visited);
      EachStepAtMostOnce(scene, names[0], true, visited);
      if first.ok {
        EachListAtMostOnce(scene, names[1..], first.visited);
        CallsOnceThen(scene, visited, first, scene.ChainAll(names[1..], first.visited));
      }
    }
  }

  /** Taking the first of the names that are left. */
  lemma {:induction false} NextInList(scene: Scene, names: seq<string>, i: nat, start: set<string>, done: Walk)
    requires i < |names|
    requires scene.ChainAll(names, start) == Then(done, scene.ChainAll(names[i..], done.visited))
    ensures var w := scene.Chain(names[i], true, done.visited);
            scene.ChainAll(names, start) ==
              if w.ok then Then(Then(done, w), scene.ChainAll(names[i + 1..], w.visited)) else Then(done, w)
  {
    var w := scene.Chain(names[i], true, done.visited);
    assert names[i..][0] == names[i] && names[i..][1..] == names[i + 1..];
    if w.ok {
      ThenIsAssociative(done, w, scene.ChainAll(names[i + 1..], w.visited));
    }
  }

  lemma ThenIsAssociative(a: Walk, b: Walk, c: Walk)
    ensures Then(a, Then(b, c)) == Then(Then(a, b), c)
  {
    assert a.calls + (b.calls + c.calls) == a.calls + b.calls + c.calls;
  }

  /** The traversal as the engine runs it, on one visited map and with loops over the lists. */
  class Traversal {
    const scene: Scene
    var visited: set<string>
    var calls: seq<string>  // the rollbackStep calls, in order

    constructor (scene: Scene)
      ensures this.scene == scene && visited == {} && calls == []
    {
      this.scene := scene;
      visited, calls := {}, [];
    }

    method DetermineExecutedBranch(d: StepDef) returns (r: Branch)
      ensures r == scene.ExecutedBranch(d)
    {
      for i := 0 to |d.next|
        invariant forall j :: 0 <= j < i ==> !Executed(scene.status, d.next[j])
      {
        if Executed(scene.status, d.next[i]) {
          return NextBranch;
        }
      }
      if d.els != "" && Executed(scene.status, d.els) {
        return ElseBranch;
      }
      return NoBranch;
    }

    ghost predicate Did(w: Walk, before: seq<string>, ok: bool)
      reads this
    {
      visited == w.visited && calls == before + w.calls && ok == w.ok
    }

    method RollbackAll(names: seq<string>) returns (ok: bool)
      modifies this
      ensures Did(scene.ChainAll(names, old(visited)), old(calls), ok)
      decreases scene.steps.Keys - visited, 2
    {
      ghost var done := Walk(visited, [], true);
      assert names[0..] == names;
      ok := true;
      var i := 0;
      while i < |names|
        invariant 0 <= i <= |names|
        invariant ok && old(visited) <= visited && Did(done, old(calls), true)
        invariant scene.ChainAll(names, old(visited)) == Then(done, scene.ChainAll(names[i..], visited))
      {
        NextInList(scene, names, i, old(visited), done);
        done := Then(done, scene.Chain(names[i], true, visited));
        ok := RollbackChain(names[i], true);
        if !ok {
          return;
        }
        i := i + 1;
      }
    }

    method RollbackUpwards(prev: string) returns (ok: bool)
      modifies this
      ensures Did(scene.Upwards(prev, old(visited)), old(calls), ok)
      decreases scene.steps.Keys - visited, 3
    {
      ok := true;
      if prev in scene.steps && scene.steps[prev].Forks() {
        ok := RollbackAll(scene.steps[prev].parallel);
      }
      if ok {
        ok := RollbackChain(prev, false);
      }
    }

    /** Where to go on inside a branch. */
    method OnwardFrom(name: string) returns (r: seq<string>)
      requires name in scene.steps
      ensures r == scene.Onward(name)
    {
      var d := scene.steps[name];
      if d.kind != Condition {
        return d.next;
      }
      if name !in scene.status || scene.status[name] != Completed {
        return [];
      }
      var executed := DetermineExecutedBranch(d);
      return match executed case NextBranch => d.next case ElseBranch => [d.els] case NoBranch => [];
    }

    method RollbackChain(name: string, inBranch: bool) returns (ok: bool)
      modifies this
      ensures Did(scene.Chain(name, inBranch, old(visited)), old(calls), ok)
      decreases scene.steps.Keys - visited, 1
    {
      if name in visited {
        return true;
      }
      visited := visited + {name};
      if name == scene.target {
        return true;
      }
      if name !in scene.steps {
        return false;
      }
      var d, onward := scene.steps[name], [];
      if inBranch {
        onward := OnwardFrom(name);
      }
      ok := RollbackAll(scene.Branches(name) + onward);
      if !ok {
        return;
      }
      ghost var below := calls;
      if scene.Eligible(name) {
        calls := calls + [name];
      }
      assert calls == below + if scene.Eligible(name) then [name] else [];
      if d.prev != "" && d.prev != ROOT && !inBranch {
        ok := RollbackUpwards(d.prev);
      }
    }
  }
}
