/**
 The builder: a program of nested builder calls, and the step map it leaves behind.
 */
module Builder {
  import opened Definitions
  import opened Graphs
  import opened Validator

  datatype StepOption = MaxRetries(n: int) | NoIdempotent

  /** A builder callback is the program of the calls it makes. */
  datatype Program = Program(calls: seq<Call>)

  datatype Call =
    | Step(name: string, handler: string, options: seq<StepOption>)
    | OnFailure(name: string, handler: string, options: seq<StepOption>)
    | Fork(name: string, branches: seq<Program>)
    | Join(name: string, strategy: JoinStrategy)
    | Condition(name: string, expr: string, otherwise: Option<Program>)
    | SavePoint(name: string)

  /** The builder's fields; `failed` is a non-nil err. */
  datatype State = State(
    steps: Steps,
    start: string,
    current: string,
    nesting: nat,
    defaultMaxRetries: int,
    failed: bool)

  function Fresh(nesting: nat, defaultMaxRetries: int): State {
    State(map[], "", "", nesting, defaultMaxRetries, false)
  }

  function WithOption(d: StepDef, o: StepOption): StepDef {
    match o
    case MaxRetries(n) => if d.noIdempotent then d else d.(maxRetries := n)
    case NoIdempotent => d.(noIdempotent := true, maxRetries := 1)
  }

  function WithOptions(d: StepDef, options: seq<StepOption>): (r: StepDef)
    ensures r == d.(maxRetries := r.maxRetries, noIdempotent := r.noIdempotent)
    decreases options
  {
    if options == [] then d else WithOptions(WithOption(d, options[0]), options[1..])
  }

  function TaskStep(b: State, handler: string, prev: string, options: seq<StepOption>): StepDef {
    WithOptions(EmptyStep(Task, prev).(handler := handler, maxRetries := b.defaultMaxRetries), options)
  }

  /** Append `name` to the Next list of `current`. */
  function Append(steps: Steps, current: string, name: string): Steps {
    if current != "" && current != name && current in steps
    then steps[current := steps[current].(next := steps[current].next + [name])]
    else steps
  }

  /** Put a step on the main line, after the current one. */
  function OnMainLine(b: State, name: string, d: StepDef): State {
    b.(steps := Append(b.steps[name := d], b.current, name), current := name)
  }

  /** Steps that may come first take the root as their Prev when they do. */
  function PrevOfStarter(b: State): string {
    if b.start == "" then ROOT else b.current
  }

  function Started(b: State, name: string): State {
    if b.start == "" then b.(start := name) else b
  }

  // ---- The searches behind Join ----

  /** traverseBranchForCondition: the first condition on the way, and the names visited. */
  function ConditionIn(steps: Steps, name: string, visited: set<string>): (r: (string, set<string>))
    ensures visited <= r.1
    decreases steps.Keys - visited, 1, 0
  {
    if name == "" || name in visited then ("", visited)
    else
      var here := visited + {name};
      if name !in steps then ("", here)
      else if steps[name].kind == StepType.Condition then (name, here)
      else
        var next := ConditionInAny(steps, steps[name].next, here);
        if next.0 != "" || steps[name].els == "" then next else ConditionIn(steps, steps[name].els, next.1)
  }

  function ConditionInAny(steps: Steps, names: seq<string>, visited: set<string>): (r: (string, set<string>))
    ensures visited <= r.1
    decreases steps.Keys - visited, 2, |names|
  {
    if names == [] then ("", visited)
    else
      var first := ConditionIn(steps, names[0], visited);
      if first.0 != "" then first else ConditionInAny(steps, names[1..], first.1)
  }

  /** traverseBranchForTerminal: the steps without successor, and the names visited. */
  function TerminalsIn(steps: Steps, name: string, visited: set<string>): (r: (seq<string>, set<string>))
    ensures visited <= r.1
    decreases steps.Keys - visited, 1, 0
  {
    if name == "" || name in visited then ([], visited)
    else
      var here := visited + {name};
      if name !in steps then ([], here)
      else if steps[name].next == [] then ([name], here)
      else
        var next := TerminalsInAll(steps, steps[name].next, here);
        if steps[name].els == "" then next
        else
          var els := TerminalsIn(steps, steps[name].els, next.1);
          (next.0 + els.0, els.1)
  }

  function TerminalsInAll(steps: Steps, names: seq<string>, visited: set<string>): (r: (seq<string>, set<string>))
    ensures visited <= r.1
    decreases steps.Keys - visited, 2, |names|
  {
    if names == [] then ([], visited)
    else
      var first := TerminalsIn(steps, names[0], visited);
      var rest := TerminalsInAll(steps, names[1..], first.1);
      (first.0 + rest.0, rest.1)
  }

  /** The name a join waits for on behalf of a branch. */
  function Awaited(steps: Steps, branchStart: string): string {
    var condition := ConditionIn(steps, branchStart, {}).0;
    if condition != "" then VirtualName(condition)
    else
      var terminals := TerminalsIn(steps, branchStart, {}).0;
      if terminals != [] && terminals[0] != "" then terminals[0] else branchStart
  }

  function AwaitedAll(steps: Steps, starts: seq<string>): (r: seq<string>)
    ensures |r| == |starts| && forall i :: 0 <= i < |r| ==> r[i] == Awaited(steps, starts[i])
  {
    if starts == [] then [] else [Awaited(steps, starts[0])] + AwaitedAll(steps, starts[1..])
  }

  function WaitList(b: State): seq<string>
    requires b.current in b.steps
  {
    var d := b.steps[b.current];
    if d.Forks() then AwaitedAll(b.steps, d.parallel) else [b.current]
  }

  // ---- The calls ----

  /** Build: no error so far, a first step, and a definition the validator accepts. */
  ghost predicate Builds(b: State) {
    !b.failed && b.start != "" && WellFormed(Definition(b.start, b.steps, false))
  }

  function Fail(b: State): State {
    b.(failed := true)
  }

  /** The steps of a sub-builder, its first one hung below `parent`. */
  function Hung(sub: State, parent: string): Steps
    requires sub.start in sub.steps
  {
    sub.steps[sub.start := sub.steps[sub.start].(prev := parent)]
  }

  ghost function Do(b: State, c: Call): State
    decreases c
  {
    if b.failed then b
    else match c
      case Step(name, handler, options) =>
        if name in b.steps then Fail(b)
        else OnMainLine(Started(b, name), name, TaskStep(b, handler, PrevOfStarter(b), options))
      case OnFailure(name, handler, options) =>
        if b.current == "" || b.current !in b.steps then Fail(b)
        else
          var steps := b.steps[name := TaskStep(b, handler, "", options)];
          b.(steps := steps[b.current := steps[b.current].(onFailure := name)])
      case Fork(name, branches) =>
        if |branches| < 2 then Fail(b)
        else DoBranches(OnMainLine(Started(b, name), name, EmptyStep(StepType.Fork, PrevOfStarter(b))), name, branches)
      case Join(name, strategy) =>
        if b.current == "" || name == "" || b.current !in b.steps then Fail(b)
        else OnMainLine(b, name, EmptyStep(StepType.Join, b.current).(waitFor := WaitList(b), strategy := strategy))
      case SavePoint(name) =>
        if name == "" || b.nesting > 1 then Fail(b)
        else OnMainLine(b, name, EmptyStep(StepType.SavePoint, b.current))
      case Condition(name, expr, otherwise) =>
        if name == "" || expr == "" || b.current == "" then Fail(b)
        else
          var d := EmptyStep(StepType.Condition, b.current);
          match otherwise
          case None => OnMainLine(b, name, d)
          case Some(program) =>
            var sub := DoAll(Fresh(b.nesting, b.defaultMaxRetries), program.calls);
            if !Builds(sub) || sub.start !in sub.steps then Fail(b)
            else
              var steps := b.steps[name := d.(els := sub.start)] + Hung(sub, name);
              b.(steps := Append(steps, b.current, name), current := name)
  }

  /** Merge in a branch that was built on its own. */
  ghost function HangBranch(b: State, fork: string, sub: State): State {
    if !Builds(sub) || sub.start !in sub.steps || !(sub.steps.Keys !! b.steps.Keys) || fork !in b.steps then Fail(b)
    else
      var steps := b.steps + Hung(sub, fork);
      b.(steps := steps[fork := steps[fork].(parallel := steps[fork].parallel + [sub.start])])
  }

  /** The branches of a fork, one after the other. */
  ghost function DoBranches(b: State, fork: string, branches: seq<Program>): State
    decreases branches
  {
    if b.failed || branches == [] then b
    else
      var sub := DoAll(Fresh(b.nesting + 1, b.defaultMaxRetries), branches[0].calls);
      DoBranches(HangBranch(b, fork, sub), fork, branches[1..])
  }

  ghost function DoAll(b: State, calls: seq<Call>): State
    decreases calls
  {
    if calls == [] then b else DoAll(Do(b, calls[0]), calls[1..])
  }
}
