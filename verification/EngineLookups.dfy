/**
 The engine's lookups in a definition and in the rows of an instance, as loops.
 */
module EngineLookups {
  import opened Definitions
  import opened Graphs
  import opened Links
  import opened Searches
  import opened Engine
  import opened EngineMachine

  method FindForkStepForParallelStep(steps: Steps, order: seq<string>, name: string) returns (fork: string)
    ensures fork == ForkOf(steps, order, name)
  {
    assert order[0..] == order;
    for k := 0 to |order|
      invariant ForkOf(steps, order, name) == ForkOf(steps, order[k..], name)
    {
      assert order[k..][0] == order[k] && order[k..][1..] == order[k + 1..];
      if order[k] in steps && steps[order[k]].kind == Fork && name in steps[order[k]].parallel {
        return order[k];
      }
    }
    fork := "";
  }

  method FindConditionStepInBranch(steps: Steps, d: StepDef) returns (condition: string)
    ensures condition == ConditionAbove(steps, d)
  {
    var current, visited := d.prev, {};
    while current != "" && current != ROOT
      invariant ConditionAbove(steps, d) == FirstOfKind(steps, Climb(steps, current, visited), Condition)
      decreases steps.Keys - visited
    {
      if current in visited || current !in steps {
        break;
      }
      OneUp(steps, current, visited);
      if steps[current].kind == Condition {
        return current;
      }
      visited := visited + {current};
      current := steps[current].prev;
    }
    condition := "";
  }

  lemma {:induction false} OneUp(steps: Steps, name: string, visited: set<string>)
    requires name != "" && name != ROOT && name !in visited && name in steps
    ensures Climb(steps, name, visited) == [name] + Climb(steps, steps[name].prev, visited + {name})
    ensures Climb(steps, name, visited)[0] == name
    ensures Climb(steps, name, visited)[1..] == Climb(steps, steps[name].prev, visited + {name})
  {
  }

  /** The fork whose branches contain a step: the search behind two of the engine's helpers. */
  method FindForkAround(steps: Steps, order: seq<string>, name: string) returns (fork: string)
    ensures fork == ForkAround(steps, order, name)
  {
    fork := FindForkStepForParallelStep(steps, order, name);
    if fork != "" || name !in steps {
      return;
    }
    var current, visited := steps[name].prev, {};
    while current != "" && current != ROOT
      invariant ForkAround(steps, order, name) == ForkAbove(steps, order, Climb(steps, current, visited))
      decreases steps.Keys - visited
    {
      if current in visited || current !in steps {
        break;
      }
      OneUp(steps, current, visited);
      if steps[current].kind == Fork {
        return current;
      }
      var owner := FindForkStepForParallelStep(steps, order, current);
      if owner != "" {
        return owner;
      }
      visited := visited + {current};
      current := steps[current].prev;
    }
    fork := "";
  }

  method IsTerminalStepInForkBranch(steps: Steps, order: seq<string>, name: string) returns (terminal: bool)
    ensures terminal == TerminalInFork(steps, order, name)
  {
    if name !in steps || steps[name].kind == Join || steps[name].next != [] {
      return false;
    }
    var fork := FindForkAround(steps, order, name);
    terminal := fork != "";
  }

  method FindJoinStepForForkBranch(steps: Steps, order: seq<string>, name: string) returns (join: string)
    ensures join == JoinFor(steps, order, name)
  {
    var fork := FindForkAround(steps, order, name);
    if fork == "" {
      return "";
    }
    var next := steps[fork].next;
    assert next[0..] == next;
    for k := 0 to |next|
      invariant JoinFor(steps, order, name) == FirstOfKind(steps, next[k..], Join)
    {
      assert next[k..][0] == next[k] && next[k..][1..] == next[k + 1..];
      if next[k] in steps && steps[next[k]].kind == Join {
        return next[k];
      }
    }
    join := "";
  }

  method IsStepInParallelBranch(steps: Steps, name: string, fork: string) returns (inside: bool)
    requires fork in steps
    ensures inside == InBranch(steps, name, fork)
  {
    var branches := steps[fork].parallel;
    for k := 0 to |branches|
      invariant forall j :: 0 <= j < k ==>
                  name != branches[j] && !(name != "" && branches[j] in steps
                                           && Reaches(Back(steps), name, branches[j]))
    {
      assert branches[k] in steps[fork].parallel;
      if name == branches[k] {
        return true;
      }
      var below := IsStepDescendantOf(steps, name, branches[k]);
      if below {
        return true;
      }
    }
    inside := false;
  }

  // ---- Lookups in the rows ----

  method FindAwaitedFork(store: MemoryStore, i: nat, steps: Steps, order: seq<string>,
        waitFor: seq<string>) returns (fork: string)
    ensures fork == ForkAwaited(store.View(), i, steps, order, waitFor)
  {
    assert waitFor[0..] == waitFor;
    for k := 0 to |waitFor|
      invariant ForkAwaited(store.View(), i, steps, order, waitFor) ==
                ForkAwaited(store.View(), i, steps, order, waitFor[k..])
    {
      assert waitFor[k..][0] == waitFor[k] && waitFor[k..][1..] == waitFor[k + 1..];
      var known := store.AnyNamed(i, waitFor[k]);
      var owner := FindForkStepForParallelStep(steps, order, waitFor[k]);
      if known && owner != "" {
        return owner;
      }
    }
    fork := "";
  }

  /** The active rows in the branches of a fork, except those with one of the names. */
  ghost function ActiveInBranches(s: State, i: nat, steps: Steps, fork: string, except: seq<string>): set<nat>
    requires fork in steps
  {
    set id | id in s.rows && s.rows[id].instance == i && s.rows[id].name !in except
             && Active(s.rows[id].status) && InBranch(steps, s.rows[id].name, fork)
  }

  method CollectActiveInBranches(store: MemoryStore, i: nat, steps: Steps, fork: string,
        except: seq<string>) returns (ids: set<nat>)
    requires fork in steps
    ensures ids == ActiveInBranches(store.View(), i, steps, fork, except)
  {
    ids := {};
    var todo := store.steps.Keys;
    while todo != {}
      invariant todo <= store.steps.Keys
      invariant ids == ActiveInBranches(store.View(), i, steps, fork, except) - todo
      decreases todo
    {
      var id :| id in todo;
      var row := store.steps[id];
      if row.instance == i && row.name !in except && Active(row.status) {
        var inside := IsStepInParallelBranch(steps, row.name, fork);
        if inside {
          ids := ids + {id};
        }
      }
      todo := todo - {id};
    }
  }

  method HasPendingStepsInParallelBranches(store: MemoryStore, i: nat, steps: Steps, order: seq<string>,
        waitFor: seq<string>) returns (pending: bool)
    ensures pending == BranchesPending(store.View(), i, steps, order, waitFor)
  {
    var fork := FindAwaitedFork(store, i, steps, order, waitFor);
    if fork == "" {
      return false;
    }
    var ids := CollectActiveInBranches(store, i, steps, fork, waitFor);
    pending := ids != {};
    PendingIffAny(store.View(), i, steps, order, waitFor, fork);
  }

  lemma {:induction false} PendingIffAny(s: State, i: nat, steps: Steps, order: seq<string>, waitFor: seq<string>,
        fork: string)
    requires fork != "" && fork == ForkAwaited(s, i, steps, order, waitFor)
    ensures BranchesPending(s, i, steps, order, waitFor) <==> ActiveInBranches(s, i, steps, fork, waitFor) != {}
  {
    var ids := ActiveInBranches(s, i, steps, fork, waitFor);
    if ids != {} {
      var id :| id in ids;
      assert IsRowOf(s, i, id);
    }
    if BranchesPending(s, i, steps, order, waitFor) {
      var id :| IsRowOf(s, i, id) && Active(s.rows[id].status) && s.rows[id].name !in waitFor
          && InBranch(steps, s.rows[id].name, fork);
      assert id in ids;
    }
  }
}
