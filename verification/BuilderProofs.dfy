/**
 Every good builder program builds, and what it builds is linked both ways.
 */
module BuilderProofs {
  import opened Definitions
  import opened Graphs
  import opened Links
  import opened Validator
  import opened Builder
  import opened BuilderShape

  // ---- Good programs ----

  predicate GoodCall(c: Call, nesting: nat, afterFork: bool)
    decreases c
  {
    LegalName(c.name) &&
    match c
    case Step(_, handler, _) => handler != ""
    case OnFailure(_, handler, _) => handler != ""
    case Fork(_, branches) => |branches| >= 2 && GoodBranches(branches, nesting + 1)
    case Join(_, _) => afterFork
    case SavePoint(_) => nesting <= 1
    case Condition(_, expr, otherwise) => expr != "" && (otherwise.Some? ==> GoodProgram(otherwise.value, nesting))
  }

  /** Whether the current step is a fork that a join may close. */
  predicate AfterFork(c: Call, before: bool) {
    c.Fork? || (c.OnFailure? && before)
  }

  predicate GoodCalls(calls: seq<Call>, nesting: nat, afterFork: bool)
    decreases calls
  {
    calls == [] ||
    (GoodCall(calls[0], nesting, afterFork) && GoodCalls(calls[1..], nesting, AfterFork(calls[0], afterFork)))
  }

  /** A program begins with a step or a fork. */
  predicate GoodProgram(p: Program, nesting: nat)
    decreases p
  {
    p.calls != [] && (p.calls[0].Step? || p.calls[0].Fork?) && GoodCalls(p.calls, nesting, false)
  }

  predicate GoodBranches(branches: seq<Program>, nesting: nat)
    decreases branches
  {
    branches == [] || (GoodProgram(branches[0], nesting) && GoodBranches(branches[1..], nesting))
  }

  function Names(c: Call): set<string>
    decreases c
  {
    {c.name} +
    match c
    case Fork(_, branches) => NamesOfBranches(branches)
    case Condition(_, _, Some(p)) => NamesOfAll(p.calls)
    case _ => {}
  }

  function NamesOfAll(calls: seq<Call>): set<string>
    decreases calls
  {
    if calls == [] then {} else Names(calls[0]) + NamesOfAll(calls[1..])
  }

  function NamesOfBranches(branches: seq<Program>): set<string>
    decreases branches
  {
    if branches == [] then {} else NamesOfAll(branches[0].calls) + NamesOfBranches(branches[1..])
  }

  /** No name is used twice, at any level of nesting. */
  predicate Distinct(calls: seq<Call>)
    decreases calls
  {
    calls == [] || (DistinctCall(calls[0]) && Names(calls[0]) !! NamesOfAll(calls[1..]) && Distinct(calls[1..]))
  }

  predicate DistinctCall(c: Call)
    decreases c
  {
    match c
    case Fork(name, branches) => name !in NamesOfBranches(branches) && DistinctBranches(branches)
    case Condition(name, _, Some(p)) => name !in NamesOfAll(p.calls) && Distinct(p.calls)
    case _ => true
  }

  predicate DistinctBranches(branches: seq<Program>)
    decreases branches
  {
    branches == [] ||
    (Distinct(branches[0].calls) && NamesOfAll(branches[0].calls) !! NamesOfBranches(branches[1..])
     && DistinctBranches(branches[1..]))
  }

  // ---- The main line of a program ----

  /** The calls that put a step on the main line. */
  function MainCalls(calls: seq<Call>): seq<Call> {
    if calls == [] then []
    else (if calls[0].OnFailure? then [] else [calls[0]]) + MainCalls(calls[1..])
  }

  function KindOf(c: Call): StepType {
    match c
    case Step(_, _, _) => Task
    case OnFailure(_, _, _) => Task
    case Fork(_, _) => StepType.Fork
    case Join(_, _) => StepType.Join
    case SavePoint(_) => StepType.SavePoint
    case Condition(_, _, _) => StepType.Condition
  }

  function LineOf(calls: seq<Call>): (r: seq<string>)
    ensures |r| == |calls| && forall i :: 0 <= i < |r| ==> r[i] == calls[i].name
  {
    seq(|calls|, i requires 0 <= i < |calls| => calls[i].name)
  }

  ghost predicate Placed(steps: Steps, line: seq<Call>) {
    forall i :: 0 <= i < |line| ==> line[i].name in steps && steps[line[i].name].kind == KindOf(line[i])
  }

  function FirstCondition(line: seq<Call>): string {
    if line == [] then "" else if line[0].Condition? then line[0].name else FirstCondition(line[1..])
  }

  /** What a join waits for on behalf of a branch, read off the branch's program. */
  function EntryOf(line: seq<Call>): string
    requires line != []
  {
    if FirstCondition(line) != "" then VirtualName(FirstCondition(line)) else line[|line| - 1].name
  }

  // ---- What the searches find along a line ----

  ghost predicate LineAt(steps: Steps, line: seq<Call>) {
    && line != [] && Placed(steps, line) && OnLine(steps, LineOf(line))
    && NoDuplicates(LineOf(line))
    && forall i :: 0 <= i < |line| ==> LegalName(line[i].name) && LocallyOk(line[i].name, steps[line[i].name])
  }

  lemma LineTail(steps: Steps, line: seq<Call>)
    requires LineAt(steps, line) && |line| > 1
    ensures LineAt(steps, line[1..]) && steps[line[0].name].next == [line[1].name]
  {
    var names, tail := LineOf(line), LineOf(line[1..]);
    assert forall i :: 0 <= i < |tail| ==> tail[i] == names[i + 1];
    assert steps[names[0]].next == [names[1]];
    forall i, j | 0 <= i < j < |tail| && j == i + 1
      ensures steps[tail[i]].next == [tail[j]]
    {
      assert steps[names[i + 1]].next == [names[j + 1]];
    }
  }

  lemma {:induction false} ConditionOnLine(steps: Steps, line: seq<Call>, visited: set<string>)
    requires LineAt(steps, line)
    requires forall i :: 0 <= i < |line| ==> line[i].name !in visited
    ensures ConditionIn(steps, line[0].name, visited).0 == FirstCondition(line)
    decreases |line|
  {
    var name := line[0].name;
    var here := visited + {name};
    if line[0].Condition? {
    } else if |line| == 1 {
      assert steps[LineOf(line)[0]].next == [];
      assert FirstCondition(line[1..]) == "";
    } else {
      LineTail(steps, line);
      forall i | 0 <= i < |line| - 1
        ensures line[1..][i].name !in here
      {
        assert LineOf(line)[0] != LineOf(line)[i + 1];
      }
      ConditionOnLine(steps, line[1..], here);
      SingleNext(steps, line[1].name, here);
    }
  }

  lemma {:induction false} SingleNext(steps: Steps, name: string, visited: set<string>)
    ensures ConditionInAny(steps, [name], visited).0 == ConditionIn(steps, name, visited).0
    ensures TerminalsInAll(steps, [name], visited).0 == TerminalsIn(steps, name, visited).0
  {
    var one := [name];
    assert one[1..] == [];
    var c := ConditionIn(steps, name, visited);
    assert ConditionInAny(steps, one[1..], c.1).0 == "";
    var t := TerminalsIn(steps, name, visited);
    assert TerminalsInAll(steps, one[1..], t.1).0 == [];
    assert t.0 + [] == t.0;
  }

  lemma {:induction false} TerminalOnLine(steps: Steps, line: seq<Call>, visited: set<string>)
    requires LineAt(steps, line) && FirstCondition(line) == ""
    requires forall i :: 0 <= i < |line| ==> line[i].name !in visited
    ensures TerminalsIn(steps, line[0].name, visited).0 == [line[|line| - 1].name]
    decreases |line|
  {
    var name := line[0].name;
    var here := visited + {name};
    if |line| == 1 {
      assert steps[LineOf(line)[0]].next == [];
    } else {
      LineTail(steps, line);
      assert LegalName(name) && !line[0].Condition?;
      forall i | 0 <= i < |line| - 1
        ensures line[1..][i].name !in here
      {
        assert LineOf(line)[0] != LineOf(line)[i + 1];
      }
      TerminalOnLine(steps, line[1..], here);
      SingleNext(steps, line[1].name, here);
    }
  }

  lemma {:induction false} FirstConditionIsOnLine(line: seq<Call>)
    ensures FirstCondition(line) != "" ==>
              exists i :: 0 <= i < |line| && line[i].name == FirstCondition(line) && line[i].Condition?
  {
    if line != [] && !line[0].Condition? {
      FirstConditionIsOnLine(line[1..]);
      if FirstCondition(line) != "" {
        var i :| 0 <= i < |line[1..]| && line[1..][i].name == FirstCondition(line) && line[1..][i].Condition?;
        assert line[i + 1] == line[1..][i];
      }
    }
  }

  /** A branch is awaited by its first condition on the main line, or else by its last step. */
  lemma AwaitedOnLine(steps: Steps, line: seq<Call>)
    requires LineAt(steps, line)
    ensures Awaited(steps, line[0].name) == EntryOf(line)
  {
    ConditionOnLine(steps, line, {});
    if FirstCondition(line) == "" {
      TerminalOnLine(steps, line, {});
      assert LegalName(line[|line| - 1].name);
    }
  }

  // ---- One call ----

  /** The builder stands at the end of a sound main line made by `line`. */
  ghost predicate Tracks(b: State, sh: Shape, line: seq<Call>) {
    && !b.failed && line != []
    && Sound(b.steps, sh)
    && sh.main == LineOf(line) && Placed(b.steps, line)
    && b.start == line[0].name && b.current == line[|line| - 1].name
  }

  /** The current step is a fork whose branches run along `lines`. */
  ghost predicate AtFork(b: State, line: seq<Call>, lines: seq<seq<Call>>) {
    && b.current in b.steps && b.steps[b.current].kind == StepType.Fork
    && |b.steps[b.current].parallel| == |lines|
    && (forall k :: 0 <= k < |lines| ==>
           LineAt(b.steps, lines[k]) && lines[k][0].name == b.steps[b.current].parallel[k])
    && Apart2(line, lines)
  }

  /** The branch lines share no name with the main line or with each other. */
  ghost predicate Apart2(line: seq<Call>, lines: seq<seq<Call>>) {
    && (forall k, i, j :: 0 <= k < |lines| && 0 <= i < |lines[k]| && 0 <= j < |line| ==>
           lines[k][i].name != line[j].name)
    && (forall k, l, i, j :: 0 <= k < l < |lines| && 0 <= i < |lines[k]| && 0 <= j < |lines[l]| ==>
           lines[k][i].name != lines[l][j].name)
  }

  /** A call that is not the first of its program and has fresh names. */
  ghost predicate Ready(b: State, c: Call, afterFork: bool) {
    GoodCall(c, b.nesting, afterFork) && DistinctCall(c) && Names(c) !! b.steps.Keys
  }

  lemma SoundNames(steps: Steps, sh: Shape)
    requires Sound(steps, sh)
    ensures sh.main != [] && sh.main[0] in steps && sh.Last() in steps && steps[sh.Last()].next == []
    ensures "" !in steps && ROOT !in steps
    ensures forall x :: x in steps ==> LegalName(x)
    ensures sh.depth.Keys == steps.Keys
  {
  }

  lemma ExtendCall(b: State, sh: Shape, line: seq<Call>, c: Call, d: StepDef)
    requires Tracks(b, sh, line) && Newcomer(b.steps, sh, c.name, d) && d.kind == KindOf(c)
    ensures Tracks(OnMainLine(b, c.name, d), ExtendedShape(sh, c.name), line + [c])
    ensures OnMainLine(b, c.name, d).steps == Extended(b.steps, b.current, c.name, d)
  {
    hide Sound, Newcomer;
    assert b.current == sh.Last() && b.current in b.steps && c.name !in b.steps && b.current != "" by {
      SoundNames(b.steps, sh);
      NewcomerIsNew(b.steps, sh, c.name, d);
    }
    Extend(b.steps, sh, c.name, d);
    var after := OnMainLine(b, c.name, d);
    assert after.steps == Extended(b.steps, b.current, c.name, d);
    assert LineOf(line + [c]) == LineOf(line) + [c.name];
  }

  lemma NewcomerIsNew(steps: Steps, sh: Shape, n: string, d: StepDef)
    requires sh.main != [] && Newcomer(steps, sh, n, d)
    ensures n !in steps
  {
  }

  lemma {:induction false} DoStep(b: State, sh: Shape, line: seq<Call>, c: Call)
    requires Tracks(b, sh, line) && c.Step? && Ready(b, c, false)
    ensures Tracks(Do(b, c), ExtendedShape(sh, c.name), line + [c])
    ensures Do(b, c).steps.Keys == b.steps.Keys + Names(c)
  {
    hide Sound;
    SoundNames(b.steps, sh);
    var d := TaskStep(b, c.handler, b.current, c.options);
    ExtendCall(b, sh, line, c, d);
  }

  lemma {:induction false} DoSavePoint(b: State, sh: Shape, line: seq<Call>, c: Call)
    requires Tracks(b, sh, line) && c.SavePoint? && Ready(b, c, false)
    ensures Tracks(Do(b, c), ExtendedShape(sh, c.name), line + [c])
    ensures Do(b, c).steps.Keys == b.steps.Keys + Names(c)
  {
    hide Sound;
    SoundNames(b.steps, sh);
    ExtendCall(b, sh, line, c, EmptyStep(StepType.SavePoint, b.current));
  }

  lemma {:induction false} DoOnFailure(b: State, sh: Shape, line: seq<Call>, c: Call)
    requires Tracks(b, sh, line) && c.OnFailure? && GoodCall(c, b.nesting, false) && c.name !in b.steps
    ensures Tracks(Do(b, c), CompensatedShape(sh, c.name), line)
    ensures Do(b, c).steps == Compensated(b.steps, b.current, c.name, TaskStep(b, c.handler, "", c.options))
  {
    hide Sound;
    SoundNames(b.steps, sh);
    var d := TaskStep(b, c.handler, "", c.options);
    Compensate(b.steps, sh, c.name, d);
    assert Do(b, c).steps == Compensated(b.steps, b.current, c.name, d);
  }

  // ---- Join ----

  lemma EntriesAreFresh(b: State, line: seq<Call>, lines: seq<seq<Call>>, k: nat)
    requires AtFork(b, line, lines) && k < |lines|
    ensures var e := EntryOf(lines[k]); IsVirtual(e) || (e in b.steps && e !in LineOf(line))
  {
    FirstConditionIsOnLine(lines[k]);
    var last := lines[k][|lines[k]| - 1];
    assert last.name in b.steps;
  }

  lemma EntriesDiffer(b: State, line: seq<Call>, lines: seq<seq<Call>>, k: nat, l: nat)
    requires AtFork(b, line, lines) && k < l < |lines|
    ensures EntryOf(lines[k]) != EntryOf(lines[l])
  {
    FirstConditionIsOnLine(lines[k]);
    FirstConditionIsOnLine(lines[l]);
    var a, c := FirstCondition(lines[k]), FirstCondition(lines[l]);
    var x, y := lines[k][|lines[k]| - 1].name, lines[l][|lines[l]| - 1].name;
    assert LegalName(x) && LegalName(y);
    if a != "" && c != "" {
      assert VirtualName(a)[5..] == a && VirtualName(c)[5..] == c;
    }
  }

  /** The wait list has one entry per branch, read off the branch's own program. */
  lemma WaitListIsEntries(b: State, line: seq<Call>, lines: seq<seq<Call>>)
    requires AtFork(b, line, lines)
    ensures |WaitList(b)| == |lines| && forall k :: 0 <= k < |lines| ==> WaitList(b)[k] == EntryOf(lines[k])
    ensures NoDuplicates(WaitList(b))
    ensures forall t :: t in WaitList(b) ==> IsVirtual(t) || (t in b.steps && t !in LineOf(line))
  {
    forall k | 0 <= k < |lines|
      ensures WaitList(b)[k] == EntryOf(lines[k])
      ensures IsVirtual(EntryOf(lines[k])) || (EntryOf(lines[k]) in b.steps && EntryOf(lines[k]) !in LineOf(line))
    {
      AwaitedOnLine(b.steps, lines[k]);
      EntriesAreFresh(b, line, lines, k);
    }
    forall k, l | 0 <= k < l < |lines|
      ensures WaitList(b)[k] != WaitList(b)[l]
    {
      EntriesDiffer(b, line, lines, k, l);
    }
  }

  lemma {:induction false} DoJoin(b: State, sh: Shape, line: seq<Call>, lines: seq<seq<Call>>, c: Call)
    requires Tracks(b, sh, line) && c.Join? && Ready(b, c, true) && AtFork(b, line, lines) && |lines| >= 2
    ensures Tracks(Do(b, c), ExtendedShape(sh, c.name), line + [c])
    ensures Do(b, c).steps.Keys == b.steps.Keys + Names(c)
    ensures Do(b, c).steps[c.name].waitFor == WaitList(b)
  {
    hide Sound, AtFork, WaitList;
    SoundNames(b.steps, sh);
    ForkFacts(b, line, lines);
    WaitListIsEntries(b, line, lines);
    var d := EmptyStep(StepType.Join, b.current).(waitFor := WaitList(b), strategy := c.strategy);
    JoinAwaitsBranches(b, line, lines, d);
    assert Newcomer(b.steps, sh, c.name, d);
    ExtendCall(b, sh, line, c, d);
  }

  /** Along a line of next links, the flow leads from the first step to each other one. */
  lemma {:induction false} LineFlows(steps: Steps, line: seq<Call>, i: nat)
    requires LineAt(steps, line) && i < |line|
    ensures Reaches(Flow(steps), line[0].name, line[i].name)
    decreases i
  {
    if i == 0 {
      ReachesSelf(Flow(steps), line[0].name);
    } else {
      LineFlows(steps, line, i - 1);
      var u, v := LineOf(line)[i - 1], LineOf(line)[i];
      assert steps[u].next == [v] && v in Successors(steps[u]);
      EdgeReaches(Flow(steps), u, v);
      ReachesTransitive(Flow(steps), line[0].name, u, v);
    }
  }

  lemma JoinAwaitsBranches(b: State, line: seq<Call>, lines: seq<seq<Call>>, d: StepDef)
    requires AtFork(b, line, lines) && d.prev == b.current && d.waitFor == WaitList(b)
    ensures AwaitsBranches(b.steps, d)
  {
    hide WaitList, Reaches;
    WaitListIsEntries(b, line, lines);
    forall k | 0 <= k < |lines|
      ensures IsVirtual(EntryOf(lines[k]))
              || (lines[k][0].name in b.steps[b.current].parallel
                  && Reaches(Flow(b.steps), lines[k][0].name, EntryOf(lines[k])))
    {
      assert LineAt(b.steps, lines[k]) && lines[k][0].name == b.steps[b.current].parallel[k];
      LineFlows(b.steps, lines[k], |lines[k]| - 1);
    }
  }

  lemma ForkFacts(b: State, line: seq<Call>, lines: seq<seq<Call>>)
    requires AtFork(b, line, lines)
    ensures b.current in b.steps && b.steps[b.current].kind == StepType.Fork && |b.steps[b.current].parallel| == |lines|
  {
  }

  // ---- Lines and frames ----

  lemma LineFrame(steps: Steps, after: Steps, line: seq<Call>)
    requires LineAt(steps, line)
    requires forall i :: 0 <= i < |line| ==>
               && line[i].name in after
               && after[line[i].name] == steps[line[i].name].(prev := after[line[i].name].prev)
    ensures LineAt(after, line)
  {
    forall i | 0 <= i < |line|
      ensures line[i].name in after && after[line[i].name].kind == KindOf(line[i])
      ensures LocallyOk(line[i].name, after[line[i].name])
    {
      assert LocallyOk(line[i].name, steps[line[i].name]);
    }
    var names := LineOf(line);
    forall i, j | 0 <= i < j < |names| && j == i + 1
      ensures after[names[i]].next == [names[j]]
    {
      assert steps[names[i]].next == [names[j]];
    }
    assert after[names[|names| - 1]].next == steps[names[|names| - 1]].next;
  }

  lemma LineOfTracked(b: State, sh: Shape, line: seq<Call>)
    requires Tracks(b, sh, line)
    ensures LineAt(b.steps, line)
  {
    assert forall i :: 0 <= i < |sh.main| ==> sh.rank[sh.main[i]] == i;
  }

  lemma {:induction false} NamesInclude(calls: seq<Call>, i: nat)
    requires i < |MainCalls(calls)|
    ensures MainCalls(calls)[i].name in NamesOfAll(calls)
  {
    if calls[0].OnFailure? {
      NamesInclude(calls[1..], i);
    } else if i > 0 {
      NamesInclude(calls[1..], i - 1);
    }
  }

  // ---- The first call ----

  lemma Base(n: string, d: StepDef)
    requires LocallyOk(n, d) && d.prev == ROOT && d.kind != StepType.Join
    requires d.next == [] && d.els == "" && d.onFailure == "" && d.parallel == []
    ensures Sound(map[n := d], Shape([n], map[n := 0], map[n := 0]))
  {
    BareStep(d);
    var steps := map[n := d];
    assert forall v :: !Edge(References(steps), n, v);
    assert forall v :: !Edge(Flow(steps), n, v);
  }

  lemma FirstOnLine(b: State, c: Call, d: StepDef)
    requires !b.failed && b.steps == map[] && b.start == "" && b.current == ""
    requires LocallyOk(c.name, d) && d.prev == ROOT && d.kind == KindOf(c) && d.kind != StepType.Join
    requires d.next == [] && d.els == "" && d.onFailure == "" && d.parallel == []
    ensures Tracks(OnMainLine(Started(b, c.name), c.name, d), Shape([c.name], map[c.name := 0], map[c.name := 0]), [c])
    ensures OnMainLine(Started(b, c.name), c.name, d).steps == map[c.name := d]
  {
    hide Sound;
    Base(c.name, d);
    assert LineOf([c]) == [c.name];
  }

  // ---- Nesting ----

  lemma HangsAsElse(steps: Steps, current: string, name: string, d: StepDef, sub: State)
    requires current in steps && name !in steps && current != "" && sub.start in sub.steps
    requires steps.Keys !! sub.steps.Keys && name !in sub.steps && d.els == "" && d.next == []
    ensures Append(steps[name := d.(els := sub.start)] + Hung(sub, name), current, name)
            == Nested(Extended(steps, current, name, d), name, AsElse, sub.steps, sub.start)
  {
    SameMap(Append(steps[name := d.(els := sub.start)] + Hung(sub, name), current, name),
            Nested(Extended(steps, current, name, d), name, AsElse, sub.steps, sub.start));
  }

  lemma HangsAsBranch(steps: Steps, fork: string, sub: State)
    requires fork in steps && sub.start in sub.steps && steps.Keys !! sub.steps.Keys
    ensures var merged := steps + Hung(sub, fork);
            merged[fork := merged[fork].(parallel := merged[fork].parallel + [sub.start])]
            == Nested(steps, fork, AsBranch, sub.steps, sub.start)
  {
    var merged := steps + Hung(sub, fork);
    SameMap(merged[fork := merged[fork].(parallel := merged[fork].parallel + [sub.start])],
            Nested(steps, fork, AsBranch, sub.steps, sub.start));
  }

  lemma TrackedBuilds(b: State, sh: Shape, line: seq<Call>)
    requires Tracks(b, sh, line)
    ensures Builds(b) && b.start in b.steps && b.start == sh.main[0]
  {
    SoundNames(b.steps, sh);
    SoundIsWellFormed(b.steps, sh, false);
  }

  lemma NestCall(b: State, sh: Shape, line: seq<Call>, role: Role, sub: State, inner: Shape, subLine: seq<Call>,
        after: State)
    requires Tracks(b, sh, line) && Tracks(sub, inner, subLine) && b.steps.Keys !! sub.steps.Keys
    requires b.current in b.steps && sub.start in sub.steps
    requires var d := b.steps[b.current];
             if role == AsElse then d.kind == StepType.Condition && d.els == "" else d.kind == StepType.Fork
    requires after == b.(steps := Nested(b.steps, b.current, role, sub.steps, sub.start))
    ensures b.current in sh.depth
    ensures Tracks(after, NestedShape(sh, b.current, inner), line)
    ensures after.steps.Keys == b.steps.Keys + sub.steps.Keys
  {
    hide Sound;
    SoundNames(b.steps, sh);
    SoundNames(sub.steps, inner);
    assert sh.Last() == b.current && inner.main[0] == sub.start;
    Nest(b.steps, sh, role, sub.steps, inner);
    forall i | 0 <= i < |line|
      ensures line[i].name in after.steps && after.steps[line[i].name].kind == KindOf(line[i])
    {
      assert line[i].name in b.steps && line[i].name !in sub.steps;
    }
  }

  /** A condition with an else side is a step on the main line with the else side nested below. */
  lemma {:induction false} ConditionDoes(b: State, c: Call, d: StepDef, sub: State, mid: State)
    requires !b.failed && c.Condition? && c.otherwise.Some? && c.expr != "" && LegalName(c.name)
    requires b.current in b.steps && b.current != "" && c.name !in b.steps
    requires d == EmptyStep(StepType.Condition, b.current)
    requires sub == DoAll(Fresh(b.nesting, b.defaultMaxRetries), c.otherwise.value.calls)
    requires Builds(sub) && sub.start in sub.steps && b.steps.Keys !! sub.steps.Keys && c.name !in sub.steps
    requires mid == OnMainLine(b, c.name, d) && mid.steps == Extended(b.steps, b.current, c.name, d)
    ensures Do(b, c) == mid.(steps := Nested(mid.steps, c.name, AsElse, sub.steps, sub.start))
  {
    hide Builds, DoAll;
    HangsAsElse(b.steps, b.current, c.name, d, sub);
  }

  lemma {:induction false} ConditionWithElse(b: State, sh: Shape, line: seq<Call>, c: Call, d: StepDef, sub: State,
        inner: Shape, subLine: seq<Call>, mid: State)
    requires Tracks(b, sh, line) && c.Condition? && c.otherwise.Some? && c.expr != "" && LegalName(c.name)
    requires c.name !in b.steps && b.steps.Keys !! sub.steps.Keys && c.name !in sub.steps
    requires sub == DoAll(Fresh(b.nesting, b.defaultMaxRetries), c.otherwise.value.calls) && Tracks(sub, inner, subLine)
    requires d == EmptyStep(StepType.Condition, b.current) && mid == OnMainLine(b, c.name, d)
    requires b.current in b.steps && mid.steps == Extended(b.steps, b.current, c.name, d)
    requires sh.main != [] && sh.Last() in sh.depth && Tracks(mid, ExtendedShape(sh, c.name), line + [c])
    requires mid.current == c.name && mid.steps.Keys == b.steps.Keys + {c.name} && mid.steps[c.name] == d
    ensures c.name in ExtendedShape(sh, c.name).depth
    ensures Tracks(Do(b, c), NestedShape(ExtendedShape(sh, c.name), c.name, inner), line + [c])
    ensures Do(b, c).steps.Keys == b.steps.Keys + {c.name} + sub.steps.Keys
    ensures Do(b, c).nesting == mid.nesting && Do(b, c).defaultMaxRetries == mid.defaultMaxRetries
  {
    hide Sound, Tracks, Builds, DoAll, Do, Nested, Extended, OnMainLine, ExtendedShape, NestedShape;
    TrackedBuilds(sub, inner, subLine);
    TrackedFacts(b, sh, line);
    ConditionDoes(b, c, d, sub, mid);
    NestCall(mid, ExtendedShape(sh, c.name), line + [c], AsElse, sub, inner, subLine, Do(b, c));
  }

  lemma {:induction false} DoCondition(b: State, sh: Shape, line: seq<Call>, c: Call) returns (sh': Shape)
    requires Tracks(b, sh, line) && c.Condition? && Ready(b, c, false)
    ensures Tracks(Do(b, c), sh', line + [c])
    ensures Do(b, c).steps.Keys == b.steps.Keys + Names(c)
    ensures Do(b, c).nesting == b.nesting && Do(b, c).defaultMaxRetries == b.defaultMaxRetries
    decreases c, 0
  {
    hide Sound, Tracks, DoAll, Do, Extended, OnMainLine, ExtendedShape, NestedShape;
    var d := EmptyStep(StepType.Condition, b.current);
    var mid := OnMainLine(b, c.name, d);
    TrackedFacts(b, sh, line);
    ConditionExtends(b, sh, line, c, d);
    sh' := ExtendedShape(sh, c.name);
    if c.otherwise.Some? {
      var program := c.otherwise.value;
      var inner := ProgramSound(program, b.nesting, b.defaultMaxRetries);
      var sub := DoAll(Fresh(b.nesting, b.defaultMaxRetries), program.calls);
      ConditionWithElse(b, sh, line, c, d, sub, inner, MainCalls(program.calls), mid);
      sh' := NestedShape(sh', c.name, inner);
    }
  }

  lemma {:induction false} ConditionExtends(b: State, sh: Shape, line: seq<Call>, c: Call, d: StepDef)
    requires Tracks(b, sh, line) && c.Condition? && Ready(b, c, false)
    requires d == EmptyStep(StepType.Condition, b.current)
    ensures sh.main != [] && sh.Last() in sh.depth
    ensures var mid := OnMainLine(b, c.name, d);
            && Tracks(mid, ExtendedShape(sh, c.name), line + [c])
            && mid.steps == Extended(b.steps, b.current, c.name, d)
            && mid.steps.Keys == b.steps.Keys + {c.name}
            && mid.current == c.name && c.name in mid.steps && mid.steps[c.name] == d
            && mid.nesting == b.nesting && mid.defaultMaxRetries == b.defaultMaxRetries
            && (c.otherwise.None? ==> Do(b, c) == mid)
  {
    hide Sound;
    SoundNames(b.steps, sh);
    ExtendCall(b, sh, line, c, d);
  }

  function LinesOf(branches: seq<Program>): seq<seq<Call>> {
    if branches == [] then [] else [MainCalls(branches[0].calls)] + LinesOf(branches[1..])
  }

  lemma ForkGrows(b: State, line: seq<Call>, lines: seq<seq<Call>>, sub: State, inner: Shape, subLine: seq<Call>,
        after: State)
    requires AtFork(b, line, lines) && Placed(b.steps, line) && Tracks(sub, inner, subLine)
    requires b.steps.Keys !! sub.steps.Keys && sub.start in sub.steps
    requires after == b.(steps := Nested(b.steps, b.current, AsBranch, sub.steps, sub.start))
    requires line != [] && line[|line| - 1].name == b.current
    ensures AtFork(after, line, lines + [subLine])
  {
    hide LineAt, Apart2, Tracks;
    var lines' := lines + [subLine];
    LineOfTracked(sub, inner, subLine);
    LinePlaced(sub.steps, subLine);
    forall k | 0 <= k < |lines'|
      ensures LineAt(after.steps, lines'[k]) && lines'[k] != []
      ensures lines'[k][0].name == after.steps[b.current].parallel[k]
    {
      if k < |lines| {
        LinePlaced(b.steps, lines[k]);
        OldLineStays(b, line, lines, k, sub.steps, sub.start);
      } else {
        NewLineComes(b.steps, b.current, sub, inner, subLine);
      }
    }
    forall k | 0 <= k < |lines| ensures Placed(b.steps, lines[k]) { LinePlaced(b.steps, lines[k]); }
    BranchIsApart(b.steps, sub.steps, line, lines, subLine);
  }

  lemma LinePlaced(steps: Steps, line: seq<Call>)
    requires LineAt(steps, line)
    ensures line != [] && Placed(steps, line)
  {
  }

  lemma OldLineStays(b: State, line: seq<Call>, lines: seq<seq<Call>>, k: nat, sub: Steps, entry: string)
    requires AtFork(b, line, lines) && k < |lines| && line != [] && line[|line| - 1].name == b.current
    requires entry in sub && b.steps.Keys !! sub.Keys
    ensures LineAt(Nested(b.steps, b.current, AsBranch, sub, entry), lines[k])
  {
    var after := Nested(b.steps, b.current, AsBranch, sub, entry);
    forall i | 0 <= i < |lines[k]|
      ensures lines[k][i].name in after && after[lines[k][i].name] == b.steps[lines[k][i].name]
    {
      assert lines[k][i].name in b.steps && lines[k][i].name != line[|line| - 1].name;
    }
    LineFrame(b.steps, after, lines[k]);
  }

  lemma NewLineComes(steps: Steps, u: string, sub: State, inner: Shape, subLine: seq<Call>)
    requires Tracks(sub, inner, subLine) && u in steps && sub.start in sub.steps && steps.Keys !! sub.steps.Keys
    ensures LineAt(Nested(steps, u, AsBranch, sub.steps, sub.start), subLine) && subLine[0].name == sub.start
  {
    hide Sound;
    LineOfTracked(sub, inner, subLine);
    LineFrame(sub.steps, Nested(steps, u, AsBranch, sub.steps, sub.start), subLine);
  }

  lemma BranchIsApart(steps: Steps, sub: Steps, line: seq<Call>, lines: seq<seq<Call>>, subLine: seq<Call>)
    requires Apart2(line, lines) && steps.Keys !! sub.Keys && Placed(steps, line) && Placed(sub, subLine)
    requires forall k :: 0 <= k < |lines| ==> Placed(steps, lines[k])
    ensures Apart2(line, lines + [subLine])
  {
    var lines': seq<seq<Call>> := lines + [subLine];
    forall k, i, j | 0 <= k < |lines'| && 0 <= i < |lines'[k]| && 0 <= j < |line|
      ensures lines'[k][i].name != line[j].name
    {
      if k == |lines| {
        assert subLine[i].name in sub && line[j].name in steps;
      }
    }
    forall k, l, i, j | 0 <= k < l < |lines'| && 0 <= i < |lines'[k]| && 0 <= j < |lines'[l]|
      ensures lines'[k][i].name != lines'[l][j].name
    {
      if l == |lines| {
        assert Placed(steps, lines[k]);
        assert lines[k][i].name in steps && subLine[j].name in sub;
      }
    }
  }

  /** The first branch is nested below the fork, then come the others. */
  lemma {:induction false} BranchDoes(b: State, branches: seq<Program>, sub: State, mid: State)
    requires !b.failed && branches != [] && b.current in b.steps
    requires sub == DoAll(Fresh(b.nesting + 1, b.defaultMaxRetries), branches[0].calls)
    requires Builds(sub) && sub.start in sub.steps && b.steps.Keys !! sub.steps.Keys
    requires mid == b.(steps := Nested(b.steps, b.current, AsBranch, sub.steps, sub.start))
    ensures DoBranches(b, b.current, branches) == DoBranches(mid, b.current, branches[1..])
  {
    hide Builds, DoAll;
    HangsAsBranch(b.steps, b.current, sub);
    assert HangBranch(b, b.current, sub) == mid;
    hide HangBranch, Nested;
  }

  lemma TrackedFacts(b: State, sh: Shape, line: seq<Call>)
    requires Tracks(b, sh, line)
    ensures !b.failed && line != [] && Placed(b.steps, line)
    ensures b.current == line[|line| - 1].name && b.current in b.steps && b.current in sh.depth && b.current != ""
  {
    SoundNames(b.steps, sh);
  }

  lemma {:induction false} BranchesSound(b: State, sh: Shape, line: seq<Call>, lines: seq<seq<Call>>,
        branches: seq<Program>)
      returns (sh': Shape)
    requires Tracks(b, sh, line) && AtFork(b, line, lines)
    requires GoodBranches(branches, b.nesting + 1) && DistinctBranches(branches)
    requires NamesOfBranches(branches) !! b.steps.Keys
    ensures var after := DoBranches(b, b.current, branches);
            && Tracks(after, sh', line)
            && AtFork(after, line, lines + LinesOf(branches))
            && after.steps.Keys == b.steps.Keys + NamesOfBranches(branches)
            && after.nesting == b.nesting && after.defaultMaxRetries == b.defaultMaxRetries
            && after.current == b.current
    decreases branches
  {
    hide Sound, AtFork, Tracks, Builds, Placed, Nested, NestedShape, DoAll, MainCalls;
    TrackedFacts(b, sh, line);
    sh' := sh;
    if branches == [] {
      assert lines + LinesOf(branches) == lines;
    } else {
      var program := branches[0];
      var inner := ProgramSound(program, b.nesting + 1, b.defaultMaxRetries);
      var sub := DoAll(Fresh(b.nesting + 1, b.defaultMaxRetries), program.calls);
      var subLine := MainCalls(program.calls);
      TrackedBuilds(sub, inner, subLine);
      ForkFacts(b, line, lines);
      var mid := b.(steps := Nested(b.steps, b.current, AsBranch, sub.steps, sub.start));
      BranchDoes(b, branches, sub, mid);
      NestCall(b, sh, line, AsBranch, sub, inner, subLine, mid);
      ForkGrows(b, line, lines, sub, inner, subLine, mid);
      sh' := BranchesSound(mid, NestedShape(sh, b.current, inner), line, lines + [subLine], branches[1..]);
      assert lines + [subLine] + LinesOf(branches[1..]) == lines + LinesOf(branches);
    }
  }

  lemma {:induction false} ForkExtends(b: State, sh: Shape, line: seq<Call>, c: Call, d: StepDef)
    requires Tracks(b, sh, line) && c.Fork? && Ready(b, c, false)
    requires d == EmptyStep(StepType.Fork, b.current)
    ensures sh.main != [] && sh.Last() in sh.depth
    ensures var mid := OnMainLine(b, c.name, d);
            && Tracks(mid, ExtendedShape(sh, c.name), line + [c])
            && AtFork(mid, line + [c], [])
            && mid.steps.Keys == b.steps.Keys + {c.name}
            && mid.current == c.name && mid.nesting == b.nesting && mid.defaultMaxRetries == b.defaultMaxRetries
            && Do(b, c) == DoBranches(mid, mid.current, c.branches)
  {
    hide Sound, DoBranches;
    SoundNames(b.steps, sh);
    ExtendCall(b, sh, line, c, d);
    EmptyFork(OnMainLine(b, c.name, d), line + [c]);
    assert Started(b, c.name) == b;
  }

  lemma {:induction false} DoFork(b: State, sh: Shape, line: seq<Call>, c: Call) returns (sh': Shape)
    requires Tracks(b, sh, line) && c.Fork? && Ready(b, c, false)
    ensures Tracks(Do(b, c), sh', line + [c]) && AtFork(Do(b, c), line + [c], LinesOf(c.branches))
    ensures Do(b, c).steps.Keys == b.steps.Keys + Names(c)
    ensures Do(b, c).nesting == b.nesting && Do(b, c).defaultMaxRetries == b.defaultMaxRetries
    decreases c, 0
  {
    hide Tracks, AtFork, OnMainLine, ExtendedShape, Do, DoBranches, LinesOf;
    var d := EmptyStep(StepType.Fork, b.current);
    ForkExtends(b, sh, line, c, d);
    var mid := OnMainLine(b, c.name, d);
    sh' := BranchesSound(mid, ExtendedShape(sh, c.name), line + [c], [], c.branches);
    assert [] + LinesOf(c.branches) == LinesOf(c.branches);
  }

  // ---- Whole programs ----

  lemma AtForkAfterCompensation(b: State, line: seq<Call>, lines: seq<seq<Call>>, n: string, d: StepDef, after: State)
    requires AtFork(b, line, lines) && n !in b.steps && line != [] && b.current == line[|line| - 1].name
    requires after == b.(steps := Compensated(b.steps, b.current, n, d))
    ensures AtFork(after, line, lines)
  {
    forall k | 0 <= k < |lines|
      ensures LineAt(after.steps, lines[k])
    {
      forall i | 0 <= i < |lines[k]|
        ensures lines[k][i].name in after.steps && after.steps[lines[k][i].name] == b.steps[lines[k][i].name]
      {
        assert lines[k][i].name in b.steps && lines[k][i].name != line[|line| - 1].name;
      }
      LineFrame(b.steps, after.steps, lines[k]);
    }
  }

  lemma {:induction false} CallSound(b: State, sh: Shape, line: seq<Call>, lines: seq<seq<Call>>, c: Call,
        afterFork: bool)
      returns (sh': Shape, lines': seq<seq<Call>>)
    requires Tracks(b, sh, line) && Ready(b, c, afterFork)
    requires afterFork ==> AtFork(b, line, lines) && |lines| >= 2
    ensures Tracks(Do(b, c), sh', line + if c.OnFailure? then [] else [c])
    ensures Do(b, c).steps.Keys == b.steps.Keys + Names(c)
    ensures Do(b, c).nesting == b.nesting && Do(b, c).defaultMaxRetries == b.defaultMaxRetries
    ensures AfterFork(c, afterFork) ==>
            AtFork(Do(b, c), line + (if c.OnFailure? then [] else [c]), lines') && |lines'| >= 2
    ensures c.Fork? ==> lines' == LinesOf(c.branches)
    ensures c.OnFailure? ==> lines' == lines
    decreases c, 1
  {
    hide Sound, AtFork;
    SoundNames(b.steps, sh);
    lines' := lines;
    match c
    case Step(_, _, _) =>
      DoStep(b, sh, line, c);
      sh' := ExtendedShape(sh, c.name);
    case OnFailure(_, _, _) =>
      DoOnFailure(b, sh, line, c);
      sh' := CompensatedShape(sh, c.name);
      assert line + [] == line;
      if afterFork {
        AtForkAfterCompensation(b, line, lines, c.name, TaskStep(b, c.handler, "", c.options), Do(b, c));
      }
    case Fork(_, _) =>
      sh' := DoFork(b, sh, line, c);
      lines' := LinesOf(c.branches);
      LinesCount(c.branches);
    case Join(_, _) =>
      DoJoin(b, sh, line, lines, c);
      sh' := ExtendedShape(sh, c.name);
    case SavePoint(_) =>
      DoSavePoint(b, sh, line, c);
      sh' := ExtendedShape(sh, c.name);
    case Condition(_, _, _) =>
      sh' := DoCondition(b, sh, line, c);
  }

  lemma {:induction false} LinesCount(branches: seq<Program>)
    ensures |LinesOf(branches)| == |branches|
    ensures forall k :: 0 <= k < |branches| ==> LinesOf(branches)[k] == MainCalls(branches[k].calls)
  {
    if branches != [] {
      LinesCount(branches[1..]);
    }
  }

  lemma {:induction false} CallsSound(b: State, sh: Shape, line: seq<Call>, lines: seq<seq<Call>>,
        calls: seq<Call>, afterFork: bool)
      returns (sh': Shape)
    requires Tracks(b, sh, line)
    requires GoodCalls(calls, b.nesting, afterFork) && Distinct(calls) && NamesOfAll(calls) !! b.steps.Keys
    requires afterFork ==> AtFork(b, line, lines) && |lines| >= 2
    ensures Tracks(DoAll(b, calls), sh', line + MainCalls(calls))
    ensures DoAll(b, calls).steps.Keys == b.steps.Keys + NamesOfAll(calls)
    decreases calls
  {
    hide Sound, AtFork, Tracks;
    sh' := sh;
    if calls == [] {
      assert line + MainCalls(calls) == line;
    } else {
      var c := calls[0];
      var head := if c.OnFailure? then [] else [c];
      var mid, lines' := CallSound(b, sh, line, lines, c, afterFork);
      sh' := CallsSound(Do(b, c), mid, line + head, lines', calls[1..], AfterFork(c, afterFork));
      assert line + head + MainCalls(calls[1..]) == line + MainCalls(calls);
    }
  }

  lemma {:induction false} FirstCallSound(b: State, c: Call) returns (sh: Shape, lines: seq<seq<Call>>)
    requires b == Fresh(b.nesting, b.defaultMaxRetries)
    requires (c.Step? || c.Fork?) && GoodCall(c, b.nesting, false) && DistinctCall(c)
    ensures Tracks(Do(b, c), sh, [c]) && Do(b, c).steps.Keys == Names(c)
    ensures Do(b, c).nesting == b.nesting && Do(b, c).defaultMaxRetries == b.defaultMaxRetries
    ensures c.Fork? ==> AtFork(Do(b, c), [c], lines) && |lines| >= 2 && lines == LinesOf(c.branches)
    decreases c
  {
    hide Sound, AtFork;
    var d := if c.Step? then TaskStep(b, c.handler, ROOT, c.options) else EmptyStep(StepType.Fork, ROOT);
    FirstOnLine(b, c, d);
    var first := OnMainLine(Started(b, c.name), c.name, d);
    sh := Shape([c.name], map[c.name := 0], map[c.name := 0]);
    lines := [];
    if c.Fork? {
      EmptyFork(first, [c]);
      sh := BranchesSound(first, sh, [c], [], c.branches);
      lines := LinesOf(c.branches);
      assert [] + lines == lines;
      LinesCount(c.branches);
    }
  }

  lemma {:induction false} ProgramSound(p: Program, nesting: nat, defaultMaxRetries: int) returns (sh: Shape)
    requires GoodProgram(p, nesting) && Distinct(p.calls)
    ensures var b := DoAll(Fresh(nesting, defaultMaxRetries), p.calls);
            Tracks(b, sh, MainCalls(p.calls)) && b.steps.Keys == NamesOfAll(p.calls)
    decreases p
  {
    hide Sound, AtFork, Tracks, Do;
    var c := p.calls[0];
    var b := Fresh(nesting, defaultMaxRetries);
    assert GoodCall(c, nesting, false) && DistinctCall(c);
    var first, lines := FirstCallSound(b, c);
    sh := CallsSound(Do(b, c), first, [c], lines, p.calls[1..], AfterFork(c, false));
    assert MainCalls(p.calls) == [c] + MainCalls(p.calls[1..]);
  }

  lemma EmptyFork(b: State, line: seq<Call>)
    requires b.current in b.steps && b.steps[b.current].kind == StepType.Fork && b.steps[b.current].parallel == []
    ensures AtFork(b, line, [])
  {
  }
}
