/**
 The engine's searches over a definition: forward reachability with a shared visited
 map, the backward walk along Prev, and the nearest save point.
 */
module Searches {
  import opened Definitions
  import opened Graphs
  import opened Links

  /** isStepReachableFrom: depth-first search for `target`, sharing `visited` between branches. */
  class ReachSearch {
    const steps: Steps
    const target: string
    var visited: set<string>

    constructor (steps: Steps, target: string)
      ensures this.steps == steps && this.target == target && visited == {}
    {
      this.steps := steps;
      this.target := target;
      visited := {};
    }

    method Search(start: string) returns (found: bool)
      modifies this
      ensures old(visited) <= visited
      ensures found ==> Reaches(Flow(steps), start, target)
      ensures !found ==> Exhausted(Flow(steps), target, old(visited), visited, {start})
      decreases steps.Keys - visited
    {
      ghost var g := Flow(steps);
      if start == target {
        ReachesSelf(g, start);
        return true;
      }
      if start in visited {
        return false;
      }
      visited := visited + {start};
      if start !in steps {
        return false;
      }
      ghost var before := visited;
      var successors := Successors(steps[start]);
      assert g[start] == Elements(successors);
      for i := 0 to |successors|
        invariant before <= visited
        invariant Exhausted(g, target, before, visited, Elements(successors[..i]))
      {
        var next := successors[i];
        found := Search(next);
        if found {
          EdgeReaches(g, start, next);
          ReachesTransitive(g, start, next, target);
          return;
        }
        assert Elements(successors[..i + 1]) == Elements(successors[..i]) + {next};
      }
      assert successors[..|successors|] == successors;
      found := false;
    }
  }

  /**
   Between `before` and `after`, the search has entered all of `entries`, has met no
   `target`, and has left nothing open behind the names it added.
   */
  ghost predicate Exhausted(g: Adjacency, target: string, before: set<string>, after: set<string>,
        entries: set<string>) {
    && before <= after && entries <= after
    && target !in entries
    && (target in after ==> target in before)
    && forall u, v :: u in after && u !in before && Edge(g, u, v) ==> v in after && v != target
  }

  method IsStepReachableFrom(steps: Steps, target: string, start: string) returns (found: bool)
    ensures found <==> Reaches(Flow(steps), start, target)
  {
    var search := new ReachSearch(steps, target);
    found := search.Search(start);
    if !found && Reaches(Flow(steps), start, target) {
      ReachStaysInClosedSet(Flow(steps), start, target, search.visited);
      assert false;
    }
  }

  /** isStepDescendantOf: the walk up from `name` meets `ancestor`, on any links at all. */
  method IsStepDescendantOf(steps: Steps, name: string, ancestor: string) returns (found: bool)
    ensures found <==> name != "" && ancestor in steps && Reaches(Back(steps), name, ancestor)
  {
    ghost var g := Back(steps);
    var current, visited := name, {};
    ReachesSelf(g, name);
    while current != ""
      invariant Reaches(g, name, current)
      invariant name == current || name in visited
      invariant name == "" ==> current == name
      invariant current == "" ==> name == ""
      invariant ancestor !in visited
      invariant forall u, v :: u in visited && Edge(g, u, v) ==> v in visited || v == current
      decreases steps.Keys - visited
    {
      if current in visited || current !in steps {
        break;
      }
      visited := visited + {current};
      if current == ancestor {
        return true;
      }
      if steps[current].prev == "" {
        break;
      }
      EdgeReaches(g, current, steps[current].prev);
      ReachesTransitive(g, name, current, steps[current].prev);
      current := steps[current].prev;
    }
    if name != "" && ancestor in steps && Reaches(g, name, ancestor) {
      assert current != "" && (current in visited || current !in steps);
      assert current !in steps ==> forall v :: !Edge(g, current, v);
      ReachStaysInClosedSet(g, name, ancestor, visited + {current});
      assert false;
    }
    found := false;
  }

  /**
   On linked definitions the backward walk and the forward search answer the same question
   for every pair of steps.
   */
  method SearchesAgree(steps: Steps, ghost depth: map<string, nat>, below: string, above: string)
      returns (forward: bool, backward: bool)
    requires Linked(steps, depth) && below in steps && above in steps
    ensures forward == backward
    ensures forward <==> Reaches(Flow(steps), above, below)
  {
    forward := IsStepReachableFrom(steps, below, above);
    backward := IsStepDescendantOf(steps, below, above);
    ForwardIffBackward(steps, depth, above, below);
  }

  /** The steps met when walking up from `name`, stopping at a repetition or an unknown name. */
  function Ancestry(steps: Steps, name: string, visited: set<string> := {}): (r: seq<string>)
    ensures forall n :: n in r ==> n in steps && n !in visited && n != ""
    decreases steps.Keys - visited
  {
    if name == "" || name in visited || name !in steps then []
    else [name] + Ancestry(steps, steps[name].prev, visited + {name})
  }

  /** The first save point of a list of steps, or the root. */
  function FirstSavePoint(steps: Steps, names: seq<string>): (r: string)
    requires forall n :: n in names ==> n in steps
    ensures r == ROOT || (r in names && steps[r].kind == SavePoint)
  {
    if names == [] then ROOT
    else if steps[names[0]].kind == SavePoint then names[0]
    else FirstSavePoint(steps, names[1..])
  }

  /** For a step without Prev, the step with a Prev that an iteration over the definition happens to meet. */
  type Strays = map<string, string>

  /** The definition that findNearestSavePoint looks at for a step; one without Prev borrows another's. */
  function Considered(steps: Steps, name: string, strays: Strays): StepDef
    requires name in steps
  {
    if steps[name].prev == "" && name in strays && strays[name] in steps && steps[strays[name]].prev != ""
    then steps[strays[name]] else steps[name]
  }

  /** findNearestSavePoint as it is written. */
  function NearestSavePoint(steps: Steps, name: string, strays: Strays, visited: set<string> := {}): (r: string)
    ensures r == ROOT || r in steps
    decreases steps.Keys - visited
  {
    if name == "" || name in visited || name !in steps then ROOT
    else
      var d := Considered(steps, name, strays);
      if d.kind == SavePoint then name
      else NearestSavePoint(steps, d.prev, strays, visited + {name})
  }

  method FindNearestSavePoint(steps: Steps, name: string, strays: Strays) returns (r: string)
    ensures r == NearestSavePoint(steps, name, strays)
    ensures (forall n :: n in Ancestry(steps, name) ==> steps[n].prev != "") ==>
              r == FirstSavePoint(steps, Ancestry(steps, name))
  {
    var current, visited := name, {};
    while current != ""
      invariant NearestSavePoint(steps, name, strays) == NearestSavePoint(steps, current, strays, visited)
      decreases steps.Keys - visited
    {
      if current in visited || current !in steps {
        break;
      }
      var d := steps[current];
      if d.prev == "" && current in strays && strays[current] in steps && steps[strays[current]].prev != "" {
        d := steps[strays[current]];
      }
      if d.kind == SavePoint {
        NearestIsFirst(steps, name, strays, {});
        return current;
      }
      visited := visited + {current};
      current := d.prev;
    }
    NearestIsFirst(steps, name, strays, {});
    r := ROOT;
  }

  /** Where every step on the way up has a Prev, the nearest save point is the first one met. */
  lemma {:induction false} NearestIsFirst(steps: Steps, name: string, strays: Strays, visited: set<string>)
    ensures (forall n :: n in Ancestry(steps, name, visited) ==> steps[n].prev != "") ==>
              NearestSavePoint(steps, name, strays, visited) == FirstSavePoint(steps, Ancestry(steps, name, visited))
    decreases steps.Keys - visited
  {
    if name != "" && name !in visited && name in steps {
      var rest := Ancestry(steps, steps[name].prev, visited + {name});
      assert Ancestry(steps, name, visited) == [name] + rest;
      assert name in Ancestry(steps, name, visited);
      assert ([name] + rest)[1..] == rest;
      NearestIsFirst(steps, steps[name].prev, strays, visited + {name});
    }
  }
}
