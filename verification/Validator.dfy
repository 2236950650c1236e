/**
 The validator: cycle detection by coloured depth-first search, and the local
 checks on names, references and handlers.
 */
module Validator {
  import opened Definitions
  import opened Graphs

  /** Everything a step points to, in the order the validator collects it. */
  function RawTargets(step: StepDef): seq<string> {
    step.next
    + (if step.onFailure != "" then [step.onFailure] else [])
    + (if step.els != "" then [step.els] else [])
    + step.parallel
    + step.waitFor
  }

  predicate Followed(steps: Steps, target: string) {
    target != "" && !IsVirtual(target) && target in steps
  }

  /** The reference graph: which named steps a step refers to in any role. */
  function References(steps: Steps): Adjacency {
    map n | n in steps :: set v | v in RawTargets(steps[n]) && Followed(steps, v)
  }

  lemma ReferenceEdges(steps: Steps, n: string)
    requires n in steps
    ensures forall v :: Edge(References(steps), n, v) <==> v in RawTargets(steps[n]) && Followed(steps, v)
  {
  }

  /** The search state that detectCycles threads through its recursion. */
  class CycleSearch {
    const steps: Steps
    ghost const g: Adjacency
    var visited: set<string>
    var recStack: set<string>

    ghost var path: seq<string>          // the names on the recursion stack, outermost first
    ghost var left: map<string, nat>     // when each finished name was left
    ghost var clock: nat

    constructor (steps: Steps)
      ensures this.steps == steps && g == References(steps)
      ensures visited == {} && path == [] && Valid()
    {
      this.steps := steps;
      this.g := References(steps);
      visited, recStack := {}, {};
      path, left, clock := [], map[], 0;
    }

    ghost predicate Valid()
      reads this
    {
      && recStack <= visited
      && left.Keys <= visited
      && (forall n :: n in visited ==> n in recStack || n in left)
      && (forall n :: n in path <==> n in recStack)
      && recStack !! left.Keys
      && (path != [] ==> IsPath(g, path))
      && (forall n :: n in left ==> left[n] < clock)
      && LeftInOrder(g, left)
    }

    /** Colour `current` grey. */
    method Enter(current: string)
      requires Valid() && current !in visited
      requires path != [] ==> Edge(g, path[|path| - 1], current)
      modifies this
      ensures Valid() && path == old(path) + [current] && left == old(left)
      ensures visited == old(visited) + {current} && recStack == old(recStack) + {current}
    {
      PathExtend(g, path, current);
      visited := visited + {current};
      recStack := recStack + {current};
      path := path + [current];
    }

    /** Colour the innermost grey step black. */
    method Leave(current: string)
      requires Valid() && current in recStack
      requires path != [] && path[|path| - 1] == current && current !in path[..|path| - 1]
      requires forall v :: Edge(g, current, v) ==> v in left
      modifies this
      ensures Valid() && path == old(path)[..|old(path)| - 1] && visited == old(visited)
      ensures recStack == old(recStack) - {current} && left.Keys == old(left).Keys + {current}
    {
      LeaveInOrder(g, left, clock, current);
      recStack := recStack - {current};
      path := path[..|path| - 1];
      left, clock := left[current := clock], clock + 1;
    }

    /**
     From the white step `current`, either the search returns a reference that closes a
     cycle, or everything `current` refers to has been left in an order that rules cycles out.
     */
    method Detect(current: string) returns (cycle: Option<(string, string)>)
      requires g == References(steps)
      requires Valid() && current !in visited && current !in path
      requires path != [] ==> Edge(g, path[|path| - 1], current)
      modifies this
      ensures old(visited) <= visited && current in visited
      ensures cycle.None? ==> Valid() && path == old(path) && recStack == old(recStack)
      ensures cycle.None? ==> old(left).Keys <= left.Keys && current in left
      ensures cycle.Some? ==> ClosesCycle(g, (old(path) + [current])[0], cycle.value.0, cycle.value.1)
      decreases steps.Keys - visited
    {
      Enter(current);
      if current !in steps {
        Leave(current);
        return None;
      }

      var outs := RawTargets(steps[current]);
      ReferenceEdges(steps, current);
      ghost var here := path;
      for i := 0 to |outs|
        invariant Valid() && path == here && recStack == old(recStack) + {current}
        invariant old(visited) + {current} <= visited && old(left).Keys <= left.Keys
        invariant forall j :: 0 <= j < i && Followed(steps, outs[j]) ==> outs[j] in left
      {
        var next := outs[i];
        if next == "" || IsVirtual(next) || next !in steps {
          continue;
        }
        if next !in visited {
          var inner := Detect(next);
          if inner.Some? {
            assert (here + [next])[0] == here[0];
            return inner;
          }
        } else if next in recStack {
          BackEdge(g, path, next);
          return Some((current, next));
        }
      }
      Leave(current);
      cycle := None;
    }
  }

  ghost predicate ClosesCycle(g: Adjacency, start: string, u: string, v: string) {
    Reaches(g, start, u) && Edge(g, u, v) && Reaches(g, v, u)
  }

  /** References of steps that were left lead to steps that were left earlier. */
  ghost predicate LeftInOrder(g: Adjacency, left: map<string, nat>) {
    forall u, v :: u in left && Edge(g, u, v) ==> v in left && left[v] < left[u]
  }

  lemma LeaveInOrder(g: Adjacency, left: map<string, nat>, clock: nat, current: string)
    requires LeftInOrder(g, left) && current !in left
    requires forall n :: n in left ==> left[n] < clock
    requires forall v :: Edge(g, current, v) ==> v in left
    ensures LeftInOrder(g, left[current := clock])
  {
  }

  lemma BackEdge(g: Adjacency, path: seq<string>, v: string)
    requires IsPath(g, path) && v in path
    ensures Reaches(g, v, path[|path| - 1]) && Reaches(g, path[0], path[|path| - 1])
  {
    var k :| 0 <= k < |path| && path[k] == v;
    assert PathBetween(g, path[k..], v, path[|path| - 1]);
    assert PathBetween(g, path, path[0], path[|path| - 1]);
  }

  lemma LeftInOrderHasNoCycle(g: Adjacency, left: map<string, nat>, start: string)
    requires start in left && LeftInOrder(g, left)
    ensures !CycleReachable(g, start)
  {
    if CycleReachable(g, start) {
      var u :| Reaches(g, start, u) && OnCycle(g, u);
      ReachStaysInClosedSet(g, start, u, left.Keys);
      var v :| Edge(g, u, v) && Reaches(g, v, u);
      var earlier := set x | x in left && left[x] < left[u];
      ReachStaysInClosedSet(g, v, u, earlier);
      assert false;
    }
  }

  datatype Violation =
    | IllegalName(step: string)
    | UnknownNext(step: string, target: string)
    | UnknownCompensation(step: string)
    | UnknownElse(step: string)
    | UnknownParallel(step: string, target: string)
    | UnknownWaitFor(step: string, target: string)
    | MissingHandler(step: string)
    | Cycle(source: string, target: string)

  predicate Resolves(steps: Steps, target: string) {
    IsVirtual(target) || target in steps
  }

  /** The checks on one step, stated without an order. */
  predicate StepOk(steps: Steps, n: string)
    requires n in steps
  {
    var d := steps[n];
    && LegalName(n)
    && (forall t :: t in d.next ==> t in steps)
    && (d.onFailure != "" ==> d.onFailure in steps)
    && (d.els != "" ==> d.els in steps)
    && (forall t :: t in d.parallel ==> Resolves(steps, t))
    && (d.kind == Join ==> forall t :: t in d.waitFor ==> Resolves(steps, t))
    && (d.kind == Task ==> d.handler != "")
  }

  ghost predicate WellFormed(def: Definition) {
    && (forall n :: n in def.steps ==> StepOk(def.steps, n))
    && !CycleReachable(References(def.steps), def.start)
  }

  /** What each complaint of the validator says about the definition. */
  ghost predicate Justified(def: Definition, v: Violation) {
    match v
    case IllegalName(n) => n in def.steps && !LegalName(n)
    case UnknownNext(n, t) => n in def.steps && t in def.steps[n].next && t !in def.steps
    case UnknownCompensation(n) =>
      n in def.steps && def.steps[n].onFailure != "" && def.steps[n].onFailure !in def.steps
    case UnknownElse(n) => n in def.steps && def.steps[n].els != "" && def.steps[n].els !in def.steps
    case UnknownParallel(n, t) => n in def.steps && t in def.steps[n].parallel && !Resolves(def.steps, t)
    case UnknownWaitFor(n, t) =>
      n in def.steps && def.steps[n].kind == Join && t in def.steps[n].waitFor && !Resolves(def.steps, t)
    case MissingHandler(n) => n in def.steps && def.steps[n].kind == Task && def.steps[n].handler == ""
    case Cycle(u, v) => ClosesCycle(References(def.steps), def.start, u, v)
  }

  /** The first target that the definition does not know; `virtualOk` skips placeholders. */
  method FirstUnknown(steps: Steps, targets: seq<string>, virtualOk: bool) returns (r: Option<string>)
    ensures r.None? <==> forall t :: t in targets ==> t in steps || (virtualOk && IsVirtual(t))
    ensures r.Some? ==> r.value in targets && r.value !in steps && !(virtualOk && IsVirtual(r.value))
  {
    for i := 0 to |targets|
      invariant forall j :: 0 <= j < i ==> targets[j] in steps || (virtualOk && IsVirtual(targets[j]))
    {
      if virtualOk && IsVirtual(targets[i]) {
        continue;
      }
      if targets[i] !in steps {
        return Some(targets[i]);
      }
    }
    return None;
  }

  method CheckStep(def: Definition, n: string) returns (r: Option<Violation>)
    requires n in def.steps
    ensures r.None? <==> StepOk(def.steps, n)
    ensures r.Some? ==> Justified(def, r.value)
  {
    var steps, d := def.steps, def.steps[n];
    if !LegalName(n) {
      return Some(IllegalName(n));
    }
    var unknown := FirstUnknown(steps, d.next, false);
    if unknown.Some? {
      return Some(UnknownNext(n, unknown.value));
    }
    if d.onFailure != "" && d.onFailure !in steps {
      return Some(UnknownCompensation(n));
    }
    if d.els != "" && d.els !in steps {
      return Some(UnknownElse(n));
    }
    unknown := FirstUnknown(steps, d.parallel, true);
    if unknown.Some? {
      return Some(UnknownParallel(n, unknown.value));
    }
    if d.kind == Join {
      unknown := FirstUnknown(steps, d.waitFor, true);
      if unknown.Some? {
        return Some(UnknownWaitFor(n, unknown.value));
      }
    }
    if d.kind == Task && d.handler == "" {
      return Some(MissingHandler(n));
    }
    return None;
  }

  /**
   ValidateWorkflowDefinition: accepts exactly the definitions whose steps are locally
   well formed and from whose start no cycle of references can be reached. The steps are
   looked at in any order, as the source iterates over a map.
   */
  method Validate(def: Definition) returns (r: Option<Violation>)
    ensures r.None? <==> WellFormed(def)
    ensures r.Some? ==> Justified(def, r.value)
  {
    var todo := def.steps.Keys;
    while todo != {}
      invariant todo <= def.steps.Keys
      invariant forall n :: n in def.steps && n !in todo ==> StepOk(def.steps, n)
      decreases todo
    {
      var n :| n in todo;
      r := CheckStep(def, n);
      if r.Some? {
        return;
      }
      todo := todo - {n};
    }
    var cycle := FindCycle(def);
    if cycle.Some? {
      return Some(Cycle(cycle.value.0, cycle.value.1));
    }
    return None;
  }

  /** detectCycles as it is called: sound, complete and terminating on every definition. */
  method FindCycle(def: Definition) returns (cycle: Option<(string, string)>)
    ensures cycle.Some? <==> CycleReachable(References(def.steps), def.start)
    ensures cycle.Some? ==> ClosesCycle(References(def.steps), def.start, cycle.value.0, cycle.value.1)
  {
    ghost var g := References(def.steps);
    var search := new CycleSearch(def.steps);
    cycle := search.Detect(def.start);
    if cycle.Some? {
      assert OnCycle(g, cycle.value.0);
    } else {
      LeftInOrderHasNoCycle(g, search.left, def.start);
    }
  }
}
