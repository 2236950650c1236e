/**
 From the builder to the engine: what good programs are to the theorems about runs.
 */
module Workflows {
  import opened Definitions
  import opened Graphs
  import opened Links
  import opened Builder
  import BuilderShape
  import opened BuilderProofs
  import opened BuilderTheorems
  import JoinStates
  import Engine
  import EngineJoins
  import EngineLinear
  import EngineAtomicity
  import Rollback
  import Searches
  import RollbackExact
  import RollbackTargets

  /** The workflow a program builds. */
  ghost function Workflow(p: Program, retries: int, dlq: bool): Definition {
    Definition(Run(p, retries).start, Run(p, retries).steps, dlq)
  }

  // ---- Which kinds of steps a program makes ----

  predicate OfKinds(c: Call, kinds: set<StepType>)
    decreases c
  {
    && KindOf(c) in kinds
    && match c
       case Join(_, strategy) => strategy == All
       case Fork(_, branches) => BranchesOfKinds(branches, kinds)
       case Condition(_, _, Some(p)) => AllOfKinds(p.calls, kinds)
       case _ => true
  }

  predicate AllOfKinds(calls: seq<Call>, kinds: set<StepType>)
    decreases calls
  {
    calls == [] || (OfKinds(calls[0], kinds) && AllOfKinds(calls[1..], kinds))
  }

  predicate BranchesOfKinds(branches: seq<Program>, kinds: set<StepType>)
    decreases branches
  {
    branches == [] || (AllOfKinds(branches[0].calls, kinds) && BranchesOfKinds(branches[1..], kinds))
  }

  ghost predicate StepsOfKinds(steps: Steps, kinds: set<StepType>) {
    forall n :: n in steps ==> steps[n].kind in kinds && (steps[n].kind == StepType.Join ==> steps[n].strategy == All)
  }

  lemma {:induction false} DoKinds(b: State, c: Call, kinds: set<StepType>)
    requires OfKinds(c, kinds) && StepsOfKinds(b.steps, kinds)
    ensures StepsOfKinds(Do(b, c).steps, kinds)
    decreases c
  {
    hide Builds, WaitList, DoAll, DoBranches;
    if !b.failed {
      if c.Fork? {
        if |c.branches| >= 2 {
          var first := OnMainLine(Started(b, c.name), c.name, EmptyStep(StepType.Fork, PrevOfStarter(b)));
          LineKinds(Started(b, c.name), c.name, EmptyStep(StepType.Fork, PrevOfStarter(b)), kinds);
          BranchesKinds(first, c.name, c.branches, kinds);
        }
      } else if c.Condition? {
        if c.otherwise.Some? {
          DoAllKinds(Fresh(b.nesting, b.defaultMaxRetries), c.otherwise.value.calls, kinds);
        }
      } else {
        SimpleKinds(b, c, kinds);
      }
    }
  }

  lemma LineKinds(b: State, name: string, d: StepDef, kinds: set<StepType>)
    requires StepsOfKinds(b.steps, kinds) && d.kind in kinds && (d.kind == StepType.Join ==> d.strategy == All)
    ensures StepsOfKinds(OnMainLine(b, name, d).steps, kinds)
  {
  }

  lemma {:induction false} SimpleKinds(b: State, c: Call, kinds: set<StepType>)
    requires OfKinds(c, kinds) && StepsOfKinds(b.steps, kinds) && !c.Fork? && !c.Condition?
    ensures StepsOfKinds(Do(b, c).steps, kinds)
  {
    hide Builds, WaitList, DoAll, DoBranches;
  }

  lemma {:induction false} BranchesKinds(b: State, fork: string, branches: seq<Program>, kinds: set<StepType>)
    requires BranchesOfKinds(branches, kinds) && StepsOfKinds(b.steps, kinds)
    ensures StepsOfKinds(DoBranches(b, fork, branches).steps, kinds)
    decreases branches
  {
    hide HangBranch, DoAll;
    if !b.failed && branches != [] {
      var sub := DoAll(Fresh(b.nesting + 1, b.defaultMaxRetries), branches[0].calls);
      DoAllKinds(Fresh(b.nesting + 1, b.defaultMaxRetries), branches[0].calls, kinds);
      HangKinds(b, fork, sub, kinds);
      BranchesKinds(HangBranch(b, fork, sub), fork, branches[1..], kinds);
    }
  }

  lemma HangKinds(b: State, fork: string, sub: State, kinds: set<StepType>)
    requires StepsOfKinds(b.steps, kinds) && StepsOfKinds(sub.steps, kinds)
    ensures StepsOfKinds(HangBranch(b, fork, sub).steps, kinds)
  {
    hide Builds;
  }

  lemma {:induction false} DoAllKinds(b: State, calls: seq<Call>, kinds: set<StepType>)
    requires AllOfKinds(calls, kinds) && StepsOfKinds(b.steps, kinds)
    ensures StepsOfKinds(DoAll(b, calls).steps, kinds)
    decreases calls
  {
    hide Do;
    if calls != [] {
      DoKinds(b, calls[0], kinds);
      DoAllKinds(Do(b, calls[0]), calls[1..], kinds);
    }
  }

  // ---- What the programs are to the engine ----

  const WithoutConditions: set<StepType> := {Task, StepType.Fork, StepType.Join, StepType.SavePoint}

  /** In what a good program builds, no join comes first anywhere. */
  lemma GoodHasNoJoinFirst(p: Program, retries: int, dlq: bool)
    requires Good(p)
    ensures EngineJoins.NoJoinFirst(Workflow(p, retries, dlq))
  {
    var depth := GoodProgramsBuild(p, retries);
    var steps := Run(p, retries).steps;
    assert "" !in steps;
    forall u, v | u in steps && v in steps && (v in steps[u].parallel || v == steps[u].els)
      ensures steps[v].kind != StepType.Join
    {
      assert v in BuilderShape.Entries(steps[u]);
    }
  }

  /** What a good program builds has links that run both ways, conditions included. */
  lemma GoodIsFlowing(p: Program, retries: int, dlq: bool) returns (depth: map<string, nat>)
    requires Good(p)
    ensures EngineJoins.Flowing(Workflow(p, retries, dlq), depth)
  {
    hide Linked, EngineJoins.NoJoinFirst, Good, Builds, DoAll;
    depth := GoodProgramsBuild(p, retries);
    GoodHasNoJoinFirst(p, retries, dlq);
  }

  /** What the joins of a good program wait for lies in the branches that they close. */
  lemma GoodAwaitsBelow(p: Program, retries: int)
    requires Good(p)
    ensures EngineJoins.AwaitsBelow(Run(p, retries).steps)
    ensures forall n :: n in Run(p, retries).steps ==> !IsVirtual(n)
  {
    hide Linked, Good, Builds, DoAll;
    var depth := GoodProgramsBuild(p, retries);
    GoodNames(p, retries);
    var steps := Run(p, retries).steps;
    forall j | j in steps && steps[j].kind == StepType.Join
      ensures BuilderShape.ClosesFork(steps, steps[j])
    {
    }
  }

  lemma GoodNames(p: Program, retries: int)
    requires Good(p)
    ensures forall n :: n in Run(p, retries).steps ==> LegalName(n)
  {
    hide Tracks;
    var sh := ProgramSound(p, 1, retries);
    TrackedNames(Run(p, retries), sh, MainCalls(p.calls));
  }

  lemma TrackedNames(b: State, sh: BuilderShape.Shape, line: seq<Call>)
    requires Tracks(b, sh, line)
    ensures forall n :: n in b.steps ==> LegalName(n)
  {
    SoundNames(b.steps, sh);
  }

  /** A good program without conditions, whose joins wait for all, builds a synchronous workflow. */
  lemma GoodIsSynchronous(p: Program, retries: int, dlq: bool) returns (depth: map<string, nat>)
    requires Good(p) && AllOfKinds(p.calls, WithoutConditions)
    ensures EngineJoins.Synchronous(Workflow(p, retries, dlq), depth)
  {
    hide Linked, EngineJoins.Flowing, Good, Builds, DoAll;
    depth := GoodIsFlowing(p, retries, dlq);
    var _ := GoodProgramsBuild(p, retries);
    DoAllKinds(Fresh(1, retries), p.calls, WithoutConditions);
    var steps := Run(p, retries).steps;
    forall j | j in steps && steps[j].kind == StepType.Join
      ensures steps[j].strategy == All && steps[j].waitFor != [] && NoDuplicates(steps[j].waitFor)
    {
      assert BuilderShape.ClosesFork(steps, steps[j]);
    }
  }

  /** A good program of steps, compensations and save points builds a linear workflow. */
  lemma GoodIsLinear(p: Program, retries: int)
    requires Good(p) && AllOfKinds(p.calls, {Task, StepType.SavePoint})
    ensures EngineLinear.Linear(Workflow(p, retries, false), LineOf(MainCalls(p.calls)))
  {
    var sh := ProgramSound(p, 1, retries);
    DoAllKinds(Fresh(1, retries), p.calls, {Task, StepType.SavePoint});
    TrackedIsLinear(Run(p, retries), sh, MainCalls(p.calls));
  }

  lemma TrackedIsLinear(b: State, sh: BuilderShape.Shape, line: seq<Call>)
    requires Tracks(b, sh, line) && StepsOfKinds(b.steps, {Task, StepType.SavePoint})
    ensures EngineLinear.Linear(Definition(b.start, b.steps, false), LineOf(line))
  {
    hide Tracks, BuilderShape.Sound;
    var def, main := Definition(b.start, b.steps, false), LineOf(line);
    TrackedLine(b, sh, line);
    forall k | 0 <= k < |main|
      ensures EngineLinear.OnLine(def.steps, main, k)
    {
      StepOfLine(b, sh, line, k);
    }
  }

  lemma TrackedLine(b: State, sh: BuilderShape.Shape, line: seq<Call>)
    requires Tracks(b, sh, line)
    ensures line != [] && b.start == line[0].name && NoDuplicates(LineOf(line)) && "" !in b.steps && ROOT !in b.steps
  {
    LineOfTracked(b, sh, line);
    SoundNames(b.steps, sh);
  }

  lemma StepOfLine(b: State, sh: BuilderShape.Shape, line: seq<Call>, k: nat)
    requires Tracks(b, sh, line) && StepsOfKinds(b.steps, {Task, StepType.SavePoint}) && k < |line|
    ensures EngineLinear.OnLine(b.steps, LineOf(line), k)
  {
    hide BuilderShape.Sound, BuilderShape.Resolved, BuilderShape.JoinsClose, BuilderShape.EntriesOk;
    hide BuilderShape.RankedMain;
    var main := LineOf(line);
    LocalOnLine(b.steps, sh, main, k);
    if k > 0 {
      PrevOnLine(b.steps, sh, main, k);
    } else {
      RootOnLine(b.steps, sh, main);
    }
  }

  lemma LocalOnLine(steps: Steps, sh: BuilderShape.Shape, main: seq<string>, k: nat)
    requires BuilderShape.Sound(steps, sh) && sh.main == main && k < |main|
    requires StepsOfKinds(steps, {Task, StepType.SavePoint})
    ensures main[k] in steps
    ensures var d := steps[main[k]];
            && d.kind in {Task, StepType.SavePoint} && d.els == "" && d.parallel == []
            && d.next == (if k + 1 < |main| then [main[k + 1]] else [])
  {
    hide Linked, BuilderShape.Resolved, BuilderShape.JoinsClose, BuilderShape.EntriesOk, BuilderShape.RankedMain;
    assert BuilderShape.LocallyOk(main[k], steps[main[k]]);
    if k + 1 < |main| {
      assert steps[main[k]].next == [main[k + 1]];
    }
  }

  lemma RootOnLine(steps: Steps, sh: BuilderShape.Shape, main: seq<string>)
    requires BuilderShape.Sound(steps, sh) && sh.main == main
    ensures main != [] && main[0] in steps && steps[main[0]].prev == ROOT
  {
  }

  lemma PrevOnLine(steps: Steps, sh: BuilderShape.Shape, main: seq<string>, k: nat)
    requires BuilderShape.Sound(steps, sh) && sh.main == main && 0 < k < |main|
    ensures main[k] in steps && steps[main[k]].prev == main[k - 1]
  {
    hide BuilderShape.Resolved, BuilderShape.JoinsClose, BuilderShape.EntriesOk, BuilderShape.RankedMain;
    assert steps[main[k - 1]].next == [main[k]];
    assert main[k] in Successors(steps[main[k - 1]]);
    assert Edge(Flow(steps), main[k - 1], main[k]);
  }

  /** A store of good linear programs is one that the theorems about linear sagas are about. */
  lemma GoodProgramsAreAllLinear(programs: map<string, Program>, retries: int,
                                 defs: map<string, Definition>, lines: EngineAtomicity.Lines)
    requires defs.Keys == programs.Keys && lines.Keys == programs.Keys
    requires forall w :: w in programs ==>
             Good(programs[w]) && AllOfKinds(programs[w].calls, {Task, StepType.SavePoint})
    requires forall w :: w in programs ==> defs[w] == Workflow(programs[w], retries, false)
                                           && lines[w] == LineOf(MainCalls(programs[w].calls))
    ensures EngineAtomicity.AllLinear(defs, lines)
  {
    hide EngineLinear.Linear, Good, AllOfKinds, Workflow, MainCalls, LineOf;
    forall w | w in programs
      ensures EngineLinear.Linear(defs[w], lines[w])
    {
      GoodIsLinear(programs[w], retries);
    }
  }

  /**
   The rollback after a failure in what a good program builds: from a step of the flow that is
   no save point, to the nearest save point above it.
   */
  lemma GoodRollbackIsExact(p: Program, retries: int, failed: string, strays: Searches.Strays,
        status: map<string, StepStatus>)
    requires Good(p)
    requires var b := Run(p, retries);
             Reaches(Flow(b.steps), b.start, failed) && failed in b.steps && b.steps[failed].kind != StepType.SavePoint
    ensures RollbackTargets.ExactRollback(Run(p, retries).steps, failed, strays, status)
  {
    hide RollbackTargets.ExactRollback;
    var depth := GoodProgramsBuild(p, retries);
    var b := Run(p, retries);
    RollbackTargets.RollbackToSavePointIsExact(b.steps, depth, b.start, failed, strays, status);
  }
}
