/**
 Where the rollback after a failure stops: at the nearest save point, which lies above the
 failed step, so that the rollback is exact.
 */
module RollbackTargets {
  import opened Definitions
  import opened Graphs
  import opened Links
  import opened Searches
  import opened Rollback
  import opened RollbackExact

  /** The nearest save point of a step of the flow is the root or a save point above the step. */
  lemma {:induction false} NearestIsAbove(steps: Steps, depth: map<string, nat>, start: string, name: string,
        strays: Strays, visited: set<string>)
    requires Linked(steps, depth) && start in steps && steps[start].prev == ROOT
    requires name in steps && Reaches(Flow(steps), start, name)
    ensures var r := NearestSavePoint(steps, name, strays, visited);
            r == ROOT || (r in steps && steps[r].kind == SavePoint && Reaches(Flow(steps), r, name))
    decreases steps.Keys - visited
  {
    ReachesSelf(Flow(steps), name);
    if name !in visited {
      if name != start {
        var w := ReachesByLastEdge(Flow(steps), start, name);
        FlowIsBackReversed(steps, depth, w, name);
        assert steps[name].prev == w && w != "";
        NearestIsAbove(steps, depth, start, w, strays, visited + {name});
        var r := NearestSavePoint(steps, w, strays, visited + {name});
        EdgeReaches(Flow(steps), w, name);
        if r != ROOT {
          ReachesTransitive(Flow(steps), r, w, name);
        }
      } else {
        assert NearestSavePoint(steps, ROOT, strays, visited + {name}) == ROOT;
      }
    }
  }

  /** The root where no save point lies above the step, or else the lowest save point above it. */
  ghost predicate IsNearestStop(steps: Steps, name: string, stop: string) {
    if stop == ROOT then forall x :: x in steps && steps[x].kind == SavePoint ==> !Reaches(Flow(steps), x, name)
    else
      && stop in steps && steps[stop].kind == SavePoint && Reaches(Flow(steps), stop, name)
      && forall x :: x in steps && steps[x].kind == SavePoint && Reaches(Flow(steps), x, name) ==>
           Reaches(Flow(steps), x, stop)
  }

  lemma PrevOfFlow(steps: Steps, depth: map<string, nat>, start: string, name: string)
    requires Linked(steps, depth) && start in steps && steps[start].prev == ROOT
    requires name in steps && Reaches(Flow(steps), start, name)
    ensures steps[name].prev != "" && name != ""
  {
    if name != start {
      var w := ReachesByLastEdge(Flow(steps), start, name);
      FlowIsBackReversed(steps, depth, w, name);
    }
  }

  lemma {:induction false} NoneIsNearer(steps: Steps, depth: map<string, nat>, start: string, name: string,
        strays: Strays, visited: set<string>, x: string)
    requires Linked(steps, depth) && start in steps && steps[start].prev == ROOT
    requires name in steps && Reaches(Flow(steps), start, name)
    requires x in steps && steps[x].kind == SavePoint && Reaches(Flow(steps), x, name)
    requires forall y :: y in visited ==> !Reaches(Flow(steps), y, name)
    ensures var r := NearestSavePoint(steps, name, strays, visited); r in steps && Reaches(Flow(steps), x, r)
    decreases steps.Keys - visited
  {
    var g := Flow(steps);
    ReachesSelf(g, name);
    PrevOfFlow(steps, depth, start, name);
    assert Considered(steps, name, strays) == steps[name] && name !in visited && name != "";
    if steps[name].kind != SavePoint {
      var w := ReachesByLastEdge(g, x, name);
      FlowIsBackReversed(steps, depth, w, name);
      assert steps[name].prev == w && w in steps && name != start;
      EdgeReaches(g, w, name);
      var z := ReachesByLastEdge(g, start, name);
      FlowIsBackReversed(steps, depth, z, name);
      ReachesDownwards(steps, depth, w, name);
      forall y | y in visited + {name}
        ensures !Reaches(g, y, w)
      {
        if Reaches(g, y, w) {
          ReachesTransitive(g, y, w, name);
          ReachesDownwards(steps, depth, y, w);
        }
      }
      NoneIsNearer(steps, depth, start, w, strays, visited + {name}, x);
    }
  }

  /** findNearestSavePoint finds the nearest stop of every step of the flow. */
  lemma {:induction false} NearestIsNearest(steps: Steps, depth: map<string, nat>, start: string, name: string,
        strays: Strays)
    requires Linked(steps, depth) && start in steps && steps[start].prev == ROOT
    requires name in steps && Reaches(Flow(steps), start, name)
    ensures IsNearestStop(steps, name, NearestSavePoint(steps, name, strays))
  {
    NearestIsAbove(steps, depth, start, name, strays, {});
    forall x | x in steps && steps[x].kind == SavePoint && Reaches(Flow(steps), x, name)
      ensures NearestSavePoint(steps, name, strays) in steps
      ensures Reaches(Flow(steps), x, NearestSavePoint(steps, name, strays))
    {
      NoneIsNearer(steps, depth, start, name, strays, {}, x);
    }
  }

  /**
   The rollback from `failed` passes to rollbackStep, exactly once, every completed or failed
   step it concerns, and nothing else, a step never before one below it.
   */
  ghost predicate ExactRollback(steps: Steps, failed: string, strays: Strays, status: map<string, StepStatus>) {
    var scene := Scene(steps, status, NearestSavePoint(steps, failed, strays));
    var w := scene.Chain(failed, false, {});
    && IsNearestStop(steps, failed, scene.target)
    && w.ok && NoDuplicates(w.calls) && DescendantsFirst(scene, w.calls)
    && forall c :: c in w.calls <==> Concerned(scene, failed, c) && Settled(scene, c)
  }

  lemma RollbackToSavePointIsExact(steps: Steps, depth: map<string, nat>, start: string, failed: string,
        strays: Strays, status: map<string, StepStatus>)
    requires Linked(steps, depth) && start in steps && steps[start].prev == ROOT
    requires failed in steps && Reaches(Flow(steps), start, failed) && steps[failed].kind != SavePoint
    ensures ExactRollback(steps, failed, strays, status)
  {
    NearestIsAbove(steps, depth, start, failed, strays, {});
    NearestIsNearest(steps, depth, start, failed, strays);
    RollbackIsExact(Scene(steps, status, NearestSavePoint(steps, failed, strays)), depth, failed);
  }
}
