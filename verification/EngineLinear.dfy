/**
 Linear workflows: tasks and save points in a row. What the engine's operations come to on
 them: nothing to tell a join, and a rollback that walks back to the nearest save point.
 */
module EngineLinear {
  import opened Definitions
  import opened Graphs
  import opened Validator
  import opened Searches
  import opened Rollback
  import opened JoinStates
  import opened Engine
  import opened EngineFrame

  /** The steps of `main`, in a row, with compensations beside them. */
  ghost predicate Linear(def: Definition, main: seq<string>) {
    && main != [] && NoDuplicates(main) && def.start == main[0] && !def.dlqEnabled
    && "" !in def.steps && ROOT !in def.steps
    && (forall n :: n in def.steps ==> def.steps[n].kind !in {Join, Fork, Condition})
    && forall k :: 0 <= k < |main| ==> OnLine(def.steps, main, k)
  }

  ghost predicate OnLine(steps: Steps, main: seq<string>, k: nat)
    requires k < |main|
  {
    && main[k] in steps
    && var d := steps[main[k]];
    && d.kind in {Task, SavePoint} && d.els == "" && d.parallel == []
    && d.next == (if k + 1 < |main| then [main[k + 1]] else [])
    && d.prev == (if k == 0 then ROOT else main[k - 1])
  }

  // ---- No joins, no forks, no conditions ----

  lemma {:induction false} NoForkOf(steps: Steps, order: seq<string>, name: string)
    requires forall n :: n in steps ==> steps[n].kind != Fork
    ensures ForkOf(steps, order, name) == ""
  {
    if order != [] {
      NoForkOf(steps, order[1..], name);
    }
  }

  lemma {:induction false} NoForkAbove(steps: Steps, order: seq<string>, names: seq<string>)
    requires forall n :: n in steps ==> steps[n].kind != Fork
    ensures ForkAbove(steps, order, names) == ""
  {
    if names != [] {
      NoForkOf(steps, order, names[0]);
      NoForkAbove(steps, order, names[1..]);
    }
  }

  lemma {:induction false} NoneOfKind(steps: Steps, names: seq<string>, kind: StepType)
    requires forall n :: n in steps ==> steps[n].kind != kind
    ensures FirstOfKind(steps, names, kind) == ""
  {
    if names != [] {
      NoneOfKind(steps, names[1..], kind);
    }
  }

  lemma {:induction false} NobodyToNotify(s: State, i: nat, steps: Steps, order: seq<string>, rest: seq<string>,
        name: string, success: bool)
    requires forall n :: n in steps ==> steps[n].kind != Join
    ensures Notify(s, i, steps, order, rest, name, success) == (s, true)
    decreases rest
  {
    if rest != [] {
      NobodyToNotify(s, i, steps, order, rest[1..], name, success);
    }
  }

  /** Where there are no joins, there is nothing to tell. */
  lemma NothingToTell(s: State, i: nat, steps: Steps, order: seq<string>, name: string, success: bool)
    requires forall n :: n in steps ==> steps[n].kind !in {Join, Fork, Condition}
    requires name in steps
    ensures Tell(s, i, steps, order, name, success) == (s, true)
  {
    NoneOfKind(steps, Climb(steps, steps[name].prev), Condition);
    NoForkOf(steps, order, name);
    NoForkAbove(steps, order, Climb(steps, steps[name].prev));
    NobodyToNotify(s, i, steps, order, order, name, success);
  }

  lemma NoSiblings(s: State, i: nat, steps: Steps, order: seq<string>, name: string)
    requires forall n :: n in steps ==> steps[n].kind != Fork
    ensures SkipRows(s, Siblings(s, i, steps, order, name)) == s
  {
    NoForkOf(steps, order, name);
    SameMap(SkipRows(s, {}).rows, s.rows);
  }

  // ---- The way back ----

  /** The steps from `k` down to just above `sp`. */
  function Downs(main: seq<string>, k: int, sp: int): seq<string>
    requires -1 <= sp && k < |main|
    decreases k
  {
    if k <= sp then [] else [main[k]] + Downs(main, k - 1, sp)
  }

  function TargetOf(main: seq<string>, sp: int): string
    requires -1 <= sp < |main|
  {
    if sp == -1 then ROOT else main[sp]
  }

  /** `sp` is the index of the nearest save point at or above `k`, or -1. */
  ghost predicate Nearest(def: Definition, main: seq<string>, k: int, sp: int) {
    && -1 <= sp <= k < |main|
    && (sp >= 0 ==> main[sp] in def.steps && def.steps[main[sp]].kind == SavePoint)
    && forall j :: sp < j <= k ==> main[j] in def.steps && def.steps[main[j]].kind != SavePoint
  }

  lemma {:induction false} NearestExists(def: Definition, main: seq<string>, k: int) returns (sp: int)
    requires forall j :: 0 <= j < |main| ==> main[j] in def.steps
    requires -1 <= k < |main|
    ensures Nearest(def, main, k, sp)
    decreases k
  {
    if k == -1 || def.steps[main[k]].kind == SavePoint {
      sp := k;
    } else {
      sp := NearestExists(def, main, k - 1);
    }
  }

  lemma {:induction false} NearestIsFound(def: Definition, main: seq<string>, k: nat, sp: int, strays: Strays,
        visited: set<string>)
    requires Linear(def, main) && k < |main| && Nearest(def, main, k, sp)
    requires forall j :: 0 <= j <= k ==> main[j] !in visited
    ensures NearestSavePoint(def.steps, main[k], strays, visited) == TargetOf(main, sp)
    decreases k
  {
    assert OnLine(def.steps, main, k);
    if k > 0 {
      assert OnLine(def.steps, main, k - 1);
    }
    if sp < k {
      if k == 0 {
        assert NearestSavePoint(def.steps, ROOT, strays, visited + {main[k]}) == ROOT;
      } else {
        NearestIsFound(def, main, k - 1, sp, strays, visited + {main[k]});
      }
    }
  }

  /** On a line, the traversal passes every step down to the target to rollbackStep. */
  lemma {:induction false} ChainOnLine(def: Definition, main: seq<string>, status: map<string, StepStatus>, k: nat,
        sp: int, visited: set<string>)
    requires Linear(def, main) && -1 <= sp <= k < |main|
    requires forall j :: 0 <= j <= k ==> main[j] !in visited
    requires forall j :: sp < j <= k ==> Scene(def.steps, status, TargetOf(main, sp)).Eligible(main[j])
    ensures var w := Scene(def.steps, status, TargetOf(main, sp)).Chain(main[k], false, visited);
            w.calls == Downs(main, k, sp) && w.ok
    decreases k
  {
    hide Linear, Scene.Chain, Scene.Upwards, Scene.ChainAll, Scene.Eligible, OnLine;
    var scene := Scene(def.steps, status, TargetOf(main, sp));
    LineFacts(def, main, k, sp);
    StepFacts(def.steps, main, k);
    if k <= sp {
      ChainAtTarget(scene, main[k], visited);
    } else {
      var here := visited + {main[k]};
      StepOnLine(scene, main[k], visited);
      if k > 0 {
        LineFacts(def, main, k - 1, sp);
        ChainOnLine(def, main, status, k - 1, sp, here);
        StepFacts(def.steps, main, k - 1);
        UpwardsOnLine(scene, main[k - 1], here);
        assert [main[k]] + scene.Chain(main[k - 1], false, here).calls == Downs(main, k, sp);
      } else {
        assert Downs(main, -1, sp) == [];
      }
    }
  }

  lemma LineFacts(def: Definition, main: seq<string>, k: nat, sp: int)
    requires Linear(def, main) && -1 <= sp < |main| && k < |main|
    ensures OnLine(def.steps, main, k) && main[k] != "" && main[k] != ROOT
    ensures sp < k ==> main[k] != TargetOf(main, sp)
    ensures forall j :: 0 <= j < k ==> main[j] != main[k]
  {
  }

  lemma StepFacts(steps: Steps, main: seq<string>, k: nat)
    requires k < |main| && OnLine(steps, main, k)
    ensures main[k] in steps && !steps[main[k]].Forks() && steps[main[k]].prev == (if k == 0 then ROOT else main[k - 1])
  {
  }

  lemma {:induction false} ChainAtTarget(scene: Scene, name: string, visited: set<string>)
    requires name == scene.target && name !in visited
    ensures scene.Chain(name, false, visited).calls == [] && scene.Chain(name, false, visited).ok
  {
  }

  /** A step on the line has nothing below it that the way back would visit. */
  lemma {:induction false} StepOnLine(scene: Scene, name: string, visited: set<string>)
    requires name in scene.steps && !scene.steps[name].Forks() && name !in visited && name != scene.target
    requires scene.Eligible(name)
    ensures var prev := scene.steps[name].prev;
            var here := visited + {name};
            scene.Chain(name, false, visited) ==
              if prev == "" || prev == ROOT then Walk(here, [name], true)
              else Then(Walk(here, [name], true), scene.Upwards(prev, here))
  {
    var here := visited + {name};
    assert scene.Branches(name) + [] == [];
    assert scene.ChainAll([], here) == Walk(here, [], true);
    assert [] + [name] == [name];
  }

  lemma {:induction false} UpwardsOnLine(scene: Scene, prev: string, visited: set<string>)
    requires prev in scene.steps && !scene.steps[prev].Forks()
    ensures scene.Upwards(prev, visited) == scene.Chain(prev, false, visited)
  {
    assert scene.ChainAll([], visited) == Walk(visited, [], true);
    var w := scene.Chain(prev, false, visited);
    assert [] + w.calls == w.calls;
  }

  lemma {:induction false} DownsAre(main: seq<string>, k: int, sp: int)
    requires -1 <= sp && k < |main|
    ensures forall c :: c in Downs(main, k, sp) <==> exists j :: sp < j <= k && main[j] == c
    decreases k
  {
    if k > sp {
      DownsAre(main, k - 1, sp);
    }
  }
}
