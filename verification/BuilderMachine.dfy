/**
 The builder as the source runs it: one mutable object per (sub-)builder, changed by each call.
 Every method is proved against the value-level calls of module Builder.
 */
module BuilderMachine {
  import opened Definitions
  import opened Validator
  import opened Builder

  /** The searches behind Join, with one visited map per search. */
  class BranchSearch {
    const steps: Steps
    var visited: set<string>

    constructor (steps: Steps)
      ensures this.steps == steps && visited == {}
    {
      this.steps := steps;
      visited := {};
    }

    method FirstCondition(name: string) returns (found: string)
      modifies this
      ensures (found, visited) == ConditionIn(steps, name, old(visited))
      decreases steps.Keys - visited, 1
    {
      if name == "" || name in visited {
        return "";
      }
      visited := visited + {name};
      if name !in steps {
        return "";
      }
      if steps[name].kind == StepType.Condition {
        return name;
      }
      found := FirstConditionAmong(steps[name].next);
      if found == "" && steps[name].els != "" {
        found := FirstCondition(steps[name].els);
      }
    }

    method FirstConditionAmong(names: seq<string>) returns (found: string)
      modifies this
      ensures (found, visited) == ConditionInAny(steps, names, old(visited))
      decreases steps.Keys - visited, 2
    {
      assert names[0..] == names;
      for i := 0 to |names|
        invariant old(visited) <= visited
        invariant ConditionInAny(steps, names, old(visited)) == ConditionInAny(steps, names[i..], visited)
      {
        assert names[i..][0] == names[i] && names[i..][1..] == names[i + 1..];
        found := FirstCondition(names[i]);
        if found != "" {
          return;
        }
      }
      found := "";
    }

    method Terminals(name: string) returns (found: seq<string>)
      modifies this
      ensures (found, visited) == TerminalsIn(steps, name, old(visited))
      decreases steps.Keys - visited, 1
    {
      if name == "" || name in visited {
        return [];
      }
      visited := visited + {name};
      if name !in steps {
        return [];
      }
      if steps[name].next == [] {
        return [name];
      }
      found := TerminalsOfAll(steps[name].next);
      if steps[name].els != "" {
        var more := Terminals(steps[name].els);
        found := found + more;
      }
    }

    method TerminalsOfAll(names: seq<string>) returns (found: seq<string>)
      modifies this
      ensures (found, visited) == TerminalsInAll(steps, names, old(visited))
      decreases steps.Keys - visited, 2
    {
      found := [];
      assert names[0..] == names;
      Regroup([], [], TerminalsInAll(steps, names, visited).0);
      for i := 0 to |names|
        invariant old(visited) <= visited
        invariant TerminalsInAll(steps, names, old(visited))
                  == (var rest := TerminalsInAll(steps, names[i..], visited); (found + rest.0, rest.1))
      {
        assert names[i..][0] == names[i] && names[i..][1..] == names[i + 1..];
        var more := Terminals(names[i]);
        Regroup(found, more, TerminalsInAll(steps, names[i + 1..], visited).0);
        found := found + more;
      }
      Regroup(found, [], []);
    }
  }

  lemma Regroup(a: seq<string>, b: seq<string>, c: seq<string>)
    ensures a + (b + c) == a + b + c && [] + c == c && a + [] == a
  {
  }

  /** A failed builder stays failed; otherwise the fields are those of the specification. */
  ghost predicate Agrees(view: State, spec: State) {
    view.failed == spec.failed && (!view.failed ==> view == spec)
  }

  lemma {:induction false} FailedStaysFailed(b: State, calls: seq<Call>)
    requires b.failed
    ensures DoAll(b, calls) == b
    decreases calls
  {
    if calls != [] {
      FailedStaysFailed(b, calls[1..]);
    }
  }

  class WorkflowBuilder {
    const name: string
    const nestingLevel: nat
    const defaultMaxRetries: int
    const dlqEnabled: bool
    var steps: Steps
    var startStep: string
    var currentStep: string
    var failed: bool
    var subBuilt: seq<Definition>  // what the sub-builders have built

    constructor (name: string, nestingLevel: nat, defaultMaxRetries: int, dlqEnabled: bool)
      ensures Valid() && View() == Fresh(nestingLevel, defaultMaxRetries) && this.name == name
      ensures this.nestingLevel == nestingLevel && this.defaultMaxRetries == defaultMaxRetries
      ensures this.dlqEnabled == dlqEnabled
    {
      this.name, this.nestingLevel := name, nestingLevel;
      this.defaultMaxRetries, this.dlqEnabled := defaultMaxRetries, dlqEnabled;
      steps, startStep, currentStep, failed, subBuilt := map[], "", "", false, [];
    }

    /** Sub-builders are only kept when they have built. */
    ghost predicate Valid()
      reads this
    {
      forall k :: 0 <= k < |subBuilt| ==> WellFormed(subBuilt[k])
    }

    ghost function View(): State
      reads this
    {
      State(steps, startStep, currentStep, nestingLevel, defaultMaxRetries, failed)
    }

    /** Link the current step to `name` and make `name` the current step. */
    method Advance(name: string)
      modifies this`steps, this`currentStep
      ensures steps == Append(old(steps), old(currentStep), name) && currentStep == name
    {
      if currentStep != "" && currentStep != name && currentStep in steps {
        steps := steps[currentStep := steps[currentStep].(next := steps[currentStep].next + [name])];
      }
      currentStep := name;
    }

    method Step(name: string, handler: string, options: seq<StepOption>)
      requires Valid()
      modifies this
      ensures Valid()
      ensures Agrees(View(), Do(old(View()), Call.Step(name, handler, options)))
    {
      if failed {
        return;
      }
      if name in steps {
        failed := true;
        return;
      }
      var step := ApplyOptions(EmptyStep(Task, currentStep).(handler := handler, maxRetries := defaultMaxRetries),
                               options);
      PrevDoesNotMatter(EmptyStep(Task, currentStep).(handler := handler, maxRetries := defaultMaxRetries), options,
                        ROOT);
      if startStep == "" {
        startStep := name;
        step := step.(prev := ROOT);
      }
      steps := steps[name := step];
      Advance(name);
    }

    method OnFailure(name: string, handler: string, options: seq<StepOption>)
      requires Valid()
      modifies this
      ensures Valid()
      ensures Agrees(View(), Do(old(View()), Call.OnFailure(name, handler, options)))
    {
      if failed {
        return;
      }
      if currentStep == "" || currentStep !in steps {
        failed := true;
        return;
      }
      var step := ApplyOptions(EmptyStep(Task, "").(handler := handler, maxRetries := defaultMaxRetries), options);
      steps := steps[name := step];
      steps := steps[currentStep := steps[currentStep].(onFailure := name)];
    }

    method SavePoint(name: string)
      requires Valid()
      modifies this
      ensures Valid()
      ensures Agrees(View(), Do(old(View()), Call.SavePoint(name)))
    {
      if failed {
        return;
      }
      if name == "" || nestingLevel > 1 {
        failed := true;
        return;
      }
      steps := steps[name := EmptyStep(StepType.SavePoint, currentStep)];
      Advance(name);
    }

    /** The name to wait for on behalf of the branch that starts at `entry`. */
    method AwaitedOf(entry: string) returns (r: string)
      ensures r == Awaited(steps, entry)
    {
      var search := new BranchSearch(steps);
      var condition := search.FirstCondition(entry);
      if condition != "" {
        return VirtualName(condition);
      }
      search := new BranchSearch(steps);
      var terminals := search.Terminals(entry);
      return if terminals != [] && terminals[0] != "" then terminals[0] else entry;
    }

    method WaitForCurrent() returns (waitFor: seq<string>)
      requires currentStep in steps
      ensures waitFor == WaitList(View())
    {
      var prev := steps[currentStep];
      if !prev.Forks() {
        return [currentStep];
      }
      waitFor := [];
      for i := 0 to |prev.parallel|
        invariant |waitFor| == i
        invariant forall k :: 0 <= k < i ==> waitFor[k] == Awaited(steps, prev.parallel[k])
      {
        var awaited := AwaitedOf(prev.parallel[i]);
        waitFor := waitFor + [awaited];
      }
    }

    method Join(name: string, strategy: JoinStrategy)
      requires Valid()
      modifies this
      ensures Valid()
      ensures Agrees(View(), Do(old(View()), Call.Join(name, strategy)))
    {
      if failed {
        return;
      }
      if currentStep == "" || name == "" || currentStep !in steps {
        failed := true;
        return;
      }
      var waitFor := WaitForCurrent();
      steps := steps[name := EmptyStep(StepType.Join, currentStep).(waitFor := waitFor, strategy := strategy)];
      Advance(name);
    }

    /** Take over the steps of a branch, unless one of their names is in use. */
    method Merge(fork: string, sub: Steps, subStart: string) returns (ok: bool)
      requires subStart in sub
      modifies this`steps
      ensures ok <==> sub.Keys !! old(steps).Keys
      ensures ok ==> steps == old(steps) + sub[subStart := sub[subStart].(prev := fork)]
    {
      var todo := sub.Keys;
      ghost var hung := sub[subStart := sub[subStart].(prev := fork)];
      while todo != {}
        invariant todo <= sub.Keys
        invariant forall n :: n in sub && n !in todo ==> n !in old(steps)
        invariant steps.Keys == old(steps).Keys + (sub.Keys - todo)
        invariant forall n :: n in old(steps) ==> steps[n] == old(steps)[n]
        invariant forall n :: n in sub && n !in todo ==> steps[n] == hung[n]
        decreases todo
      {
        var n :| n in todo;
        if n in steps {
          return false;
        }
        steps := steps[n := if n == subStart then sub[n].(prev := fork) else sub[n]];
        todo := todo - {n};
      }
      SameMap(steps, old(steps) + hung);
      return true;
    }

    /** One branch of a fork: build it apart, merge it, and record where it starts. */
    method Branch(fork: string, branch: Program)
      requires !failed && fork in steps && Valid()
      modifies this`steps, this`failed, this`subBuilt
      ensures failed ==> DoBranches(old(View()), fork, [branch]).failed
      ensures !failed ==> View() == DoBranches(old(View()), fork, [branch]) && fork in steps
      ensures Valid()
      decreases branch, 1
    {
      hide Builds, DoAll, DoBranches;
      BranchAlone(View(), fork, branch);
      var sub, deeper := BuildApart(name + "_branch", branch, nestingLevel + 1, defaultMaxRetries);
      if sub.None? {
        failed := true;
        return;
      }
      subBuilt := subBuilt + [sub.value] + deeper;
      var ok := Merge(fork, sub.value.steps, sub.value.start);
      if !ok {
        failed := true;
        return;
      }
      steps := steps[fork := steps[fork].(parallel := steps[fork].parallel + [sub.value.start])];
    }

    method Fork(name: string, branches: seq<Program>)
      requires Valid()
      modifies this
      ensures Valid()
      ensures Agrees(View(), Do(old(View()), Call.Fork(name, branches)))
      decreases branches
    {
      if failed {
        return;
      }
      if |branches| < 2 {
        failed := true;
        return;
      }
      var step := EmptyStep(StepType.Fork, currentStep);
      if startStep == "" {
        startStep := name;
        step := step.(prev := ROOT);
      }
      steps := steps[name := step];
      Advance(name);
      ghost var spec := DoBranches(View(), name, branches);
      assert branches[0..] == branches;
      for i := 0 to |branches|
        invariant !failed && name in steps && currentStep == name && Valid()
        invariant DoBranches(View(), name, branches[i..]) == spec
      {
        assert branches[i..][0] == branches[i] && branches[i..][1..] == branches[i + 1..];
        OneBranch(View(), name, branches[i..]);
        Branch(name, branches[i]);
        if failed {
          return;
        }
      }
    }

    method Condition(name: string, expr: string, otherwise: Option<Program>)
      requires Valid()
      modifies this
      ensures Valid()
      ensures Agrees(View(), Do(old(View()), Call.Condition(name, expr, otherwise)))
      decreases otherwise
    {
      if failed {
        return;
      }
      if name == "" || expr == "" || currentStep == "" {
        failed := true;
        return;
      }
      var step := EmptyStep(StepType.Condition, currentStep);
      if otherwise.Some? {
        var sub, deeper := BuildApart(this.name + "_branch_else", otherwise.value, nestingLevel, defaultMaxRetries);
        if sub.None? {
          failed := true;
          return;
        }
        subBuilt := subBuilt + [sub.value] + deeper;
        var entry := sub.value.start;
        steps := steps[name := step.(els := entry)] + sub.value.steps[entry := sub.value.steps[entry].(prev := name)];
      } else {
        steps := steps[name := step];
      }
      Advance(name);
    }

    method Perform(c: Call)
      requires Valid()
      modifies this
      ensures Valid()
      ensures Agrees(View(), Do(old(View()), c))
      decreases c
    {
      match c
      case Step(name, handler, options) => Step(name, handler, options);
      case OnFailure(name, handler, options) => OnFailure(name, handler, options);
      case Fork(name, branches) => Fork(name, branches);
      case Join(name, strategy) => Join(name, strategy);
      case SavePoint(name) => SavePoint(name);
      case Condition(name, expr, otherwise) => Condition(name, expr, otherwise);
    }

    /** Make the calls one after the other on this builder. */
    method Run(calls: seq<Call>)
      requires Valid()
      modifies this
      ensures Valid()
      ensures Agrees(View(), DoAll(old(View()), calls))
      decreases calls
    {
      ghost var spec := DoAll(View(), calls);
      assert calls[0..] == calls;
      for i := 0 to |calls|
        invariant Valid() && Agrees(DoAll(View(), calls[i..]), spec)
      {
        assert calls[i..][0] == calls[i] && calls[i..][1..] == calls[i + 1..];
        ghost var before := View();
        Perform(calls[i]);
        if failed {
          FailedStaysFailed(View(), calls[i + 1..]);
          FailedStaysFailed(Do(before, calls[i]), calls[i + 1..]);
        }
      }
    }

    /**
     Build accepts exactly a named builder whose steps the validator accepts, and returns them. It
     also validates again what its sub-builders have built.
     */
    method Build() returns (r: Option<Definition>)
      requires Valid()
      ensures r.Some? <==> name != "" && Builds(View())
      ensures r.Some? ==> r.value == Definition(startStep, steps, dlqEnabled)
    {
      if failed || name == "" || startStep == "" {
        return None;
      }
      var def := Definition(startStep, steps, dlqEnabled);
      var violation := Validate(def);
      if violation.Some? {
        return None;
      }
      for k := 0 to |subBuilt| {
        violation := Validate(subBuilt[k]);
        if violation.Some? {
          return None;
        }
      }
      r := Some(def);
    }
  }

  /** A sub-builder of its own for a branch or an else side, and what its own sub-builders have built. */
  method BuildApart(name: string, program: Program, nesting: nat, defaultMaxRetries: int)
      returns (r: Option<Definition>, deeper: seq<Definition>)
    requires name != ""
    ensures var sub := DoAll(Fresh(nesting, defaultMaxRetries), program.calls);
            if Builds(sub) && sub.start in sub.steps
            then r == Some(Definition(sub.start, sub.steps, false)) else r.None?
    ensures r.Some? ==> WellFormed(r.value)
    ensures forall k :: 0 <= k < |deeper| ==> WellFormed(deeper[k])
    decreases program, 0
  {
    var sub := new WorkflowBuilder(name, nesting, defaultMaxRetries, false);
    sub.Run(program.calls);
    r := sub.Build();
    deeper := sub.subBuilt;
    if sub.startStep !in sub.steps {
      r := None;
    }
  }

  method ApplyOptions(d: StepDef, options: seq<StepOption>) returns (r: StepDef)
    ensures r == WithOptions(d, options)
  {
    r := d;
    assert options[0..] == options;
    for i := 0 to |options|
      invariant WithOptions(d, options) == WithOptions(r, options[i..])
    {
      assert options[i..][0] == options[i] && options[i..][1..] == options[i + 1..];
      r := WithOption(r, options[i]);
    }
  }

  lemma {:induction false} PrevDoesNotMatter(d: StepDef, options: seq<StepOption>, prev: string)
    ensures WithOptions(d.(prev := prev), options) == WithOptions(d, options).(prev := prev)
    decreases options
  {
    if options != [] {
      PrevDoesNotMatter(WithOption(d, options[0]), options[1..], prev);
    }
  }

  lemma {:induction false} BranchAlone(b: State, fork: string, branch: Program)
    ensures DoBranches(b, fork, [branch]) ==
            if b.failed then b else HangBranch(b, fork, DoAll(Fresh(b.nesting + 1, b.defaultMaxRetries), branch.calls))
  {
    hide HangBranch, DoAll;
    var one := [branch];
    assert one[1..] == [];
  }

  lemma {:induction false} OneBranch(b: State, fork: string, branches: seq<Program>)
    requires branches != []
    ensures DoBranches(b, fork, branches) == DoBranches(DoBranches(b, fork, branches[..1]), fork, branches[1..])
    ensures branches[..1] == [branches[0]]
    ensures DoBranches(b, fork, branches[..1]).failed ==> DoBranches(b, fork, branches).failed
  {
    hide HangBranch, DoAll;
    var one := branches[..1];
    assert one[0] == branches[0] && one[1..] == [];
  }
}
