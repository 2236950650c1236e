/**
 What is promised of builder programs: a good program passes Build and leaves links that run
 both ways, a join is accepted exactly after a fork, and it waits once for every branch.
 */
module BuilderTheorems {
  import opened Definitions
  import opened Graphs
  import opened Links
  import opened Validator
  import opened Builder
  import opened BuilderShape
  import opened BuilderProofs

  /** The state a program leaves in a new builder. */
  ghost function Run(p: Program, defaultMaxRetries: int): State {
    DoAll(Fresh(1, defaultMaxRetries), p.calls)
  }

  ghost predicate Good(p: Program) {
    GoodProgram(p, 1) && Distinct(p.calls)
  }

  /**
   Every good program builds; its links are a forest that runs both ways, its joins close
   forks, and the steps are exactly those the program names.
   */
  lemma GoodProgramsBuild(p: Program, retries: int) returns (depth: map<string, nat>)
    requires Good(p)
    ensures var b := Run(p, retries);
            && Builds(b)
            && Linked(b.steps, depth)
            && JoinsClose(b.steps) && EntriesOk(b.steps)
            && b.steps.Keys == NamesOfAll(p.calls)
            && b.start in b.steps && b.steps[b.start].prev == ROOT && b.steps[b.start].kind != StepType.Join
            && forall n, t :: n in b.steps && t in b.steps[n].parallel ==> t in b.steps
  {
    var sh := ProgramSound(p, 1, retries);
    var b := Run(p, retries);
    TrackedBuilds(b, sh, MainCalls(p.calls));
    BranchesExist(b.steps, sh);
    depth := sh.depth;
  }

  lemma BranchesExist(steps: Steps, sh: Shape)
    requires Sound(steps, sh)
    ensures forall n, t :: n in steps && t in steps[n].parallel ==> t in steps
  {
    forall n, t | n in steps && t in steps[n].parallel
      ensures t in steps
    {
      assert LocallyOk(n, steps[n]) && t in RawTargets(steps[n]);
      assert Resolves(steps, t);
    }
  }

  // ---- What later calls leave alone ----

  lemma {:induction false} DoAllAppend(b: State, xs: seq<Call>, ys: seq<Call>)
    ensures DoAll(b, xs + ys) == DoAll(DoAll(b, xs), ys)
    decreases xs
  {
    if xs == [] {
      assert xs + ys == ys;
    } else {
      assert (xs + ys)[0] == xs[0] && (xs + ys)[1..] == xs[1..] + ys;
      DoAllAppend(Do(b, xs[0]), xs[1..], ys);
    }
  }

  /** Calls that do not name a step leave its kind and its wait list alone, and add no other step. */
  ghost predicate Keeps(steps: Steps, after: Steps, x: string) {
    if x in steps then x in after && after[x].waitFor == steps[x].waitFor && after[x].kind == steps[x].kind
    else x !in after
  }

  lemma {:induction false} DoKeeps(b: State, c: Call, x: string)
    requires x !in Names(c)
    ensures Keeps(b.steps, Do(b, c).steps, x)
    decreases c
  {
    hide Builds, WaitList;
    if !b.failed {
      match c
      case Fork(name, branches) =>
        if |branches| >= 2 {
          var first := OnMainLine(Started(b, name), name, EmptyStep(StepType.Fork, PrevOfStarter(b)));
          assert Keeps(b.steps, first.steps, x);
          BranchesKeep(first, name, branches, x);
        }
      case Condition(_, _, Some(program)) =>
        DoAllKeeps(Fresh(b.nesting, b.defaultMaxRetries), program.calls, x);
      case _ =>
    }
  }

  lemma {:induction false} BranchesKeep(b: State, fork: string, branches: seq<Program>, x: string)
    requires x !in NamesOfBranches(branches)
    ensures Keeps(b.steps, DoBranches(b, fork, branches).steps, x)
    decreases branches
  {
    hide HangBranch, Keeps, DoAll;
    if b.failed || branches == [] {
      KeepsItself(b.steps, x);
    } else {
      var sub := DoAll(Fresh(b.nesting + 1, b.defaultMaxRetries), branches[0].calls);
      DoAllKeeps(Fresh(b.nesting + 1, b.defaultMaxRetries), branches[0].calls, x);
      HangKeeps(b, fork, sub, x);
      BranchesKeep(HangBranch(b, fork, sub), fork, branches[1..], x);
      KeepsTwice(b.steps, HangBranch(b, fork, sub).steps, DoBranches(b, fork, branches).steps, x);
    }
  }

  lemma KeepsItself(steps: Steps, x: string)
    ensures Keeps(steps, steps, x)
  {
  }

  lemma KeepsTwice(a: Steps, b: Steps, c: Steps, x: string)
    requires Keeps(a, b, x) && Keeps(b, c, x)
    ensures Keeps(a, c, x)
  {
  }

  lemma HangKeeps(b: State, fork: string, sub: State, x: string)
    requires Keeps(map[], sub.steps, x)
    ensures Keeps(b.steps, HangBranch(b, fork, sub).steps, x)
  {
    hide Builds;
  }

  lemma {:induction false} DoAllKeeps(b: State, calls: seq<Call>, x: string)
    requires x !in NamesOfAll(calls)
    ensures Keeps(b.steps, DoAll(b, calls).steps, x)
    decreases calls
  {
    hide Do;
    if calls != [] {
      DoKeeps(b, calls[0], x);
      DoAllKeeps(Do(b, calls[0]), calls[1..], x);
    }
  }

  // ---- Join ----

  /** Whether a join may come next. */
  predicate EndsAtFork(calls: seq<Call>, before: bool)
    decreases calls
  {
    if calls == [] then before else EndsAtFork(calls[1..], AfterFork(calls[0], before))
  }

  lemma {:induction false} GoodCallsAppend(xs: seq<Call>, ys: seq<Call>, nesting: nat, before: bool)
    ensures GoodCalls(xs + ys, nesting, before) <==>
            GoodCalls(xs, nesting, before) && GoodCalls(ys, nesting, EndsAtFork(xs, before))
    decreases xs
  {
    if xs == [] {
      assert xs + ys == ys;
    } else {
      assert (xs + ys)[0] == xs[0] && (xs + ys)[1..] == xs[1..] + ys;
      GoodCallsAppend(xs[1..], ys, nesting, AfterFork(xs[0], before));
    }
  }

  lemma {:induction false} NamesAppend(xs: seq<Call>, ys: seq<Call>)
    ensures NamesOfAll(xs + ys) == NamesOfAll(xs) + NamesOfAll(ys)
  {
    if xs == [] {
      assert xs + ys == ys;
    } else {
      hide Names;
      assert (xs + ys)[0] == xs[0] && (xs + ys)[1..] == xs[1..] + ys;
      NamesAppend(xs[1..], ys);
    }
  }

  lemma {:induction false} DistinctAppend(xs: seq<Call>, ys: seq<Call>)
    ensures Distinct(xs + ys) <==> Distinct(xs) && Distinct(ys) && NamesOfAll(xs) !! NamesOfAll(ys)
  {
    hide Names, DistinctCall;
    if xs == [] {
      assert xs + ys == ys;
    } else {
      assert (xs + ys)[0] == xs[0] && (xs + ys)[1..] == xs[1..] + ys;
      DistinctAppend(xs[1..], ys);
      NamesAppend(xs[1..], ys);
    }
  }

  /** Looking at the whole program, the last main-line call decides. */
  lemma {:induction false} EndsAtForkIsLast(calls: seq<Call>, before: bool)
    ensures EndsAtFork(calls, before) <==>
              if MainCalls(calls) == [] then before else MainCalls(calls)[|MainCalls(calls)| - 1].Fork?
    decreases calls
  {
    if calls != [] {
      EndsAtForkIsLast(calls[1..], AfterFork(calls[0], before));
    }
  }

  /** The line of next links leads from its first step to each other one. */
  lemma {:induction false} LineReaches(steps: Steps, main: seq<string>, i: nat)
    requires OnLine(steps, main) && i < |main|
    requires forall k :: 0 <= k < |main| ==> LegalName(main[k])
    ensures Reaches(References(steps), main[0], main[i])
  {
    var g := References(steps);
    if i == 0 {
      ReachesSelf(g, main[0]);
    } else {
      LineReaches(steps, main, i - 1);
      assert steps[main[i - 1]].next == [main[i]];
      ReferenceEdges(steps, main[i - 1]);
      assert main[i] in RawTargets(steps[main[i - 1]]) && Followed(steps, main[i]);
      EdgeReaches(g, main[i - 1], main[i]);
      ReachesTransitive(g, main[0], main[i - 1], main[i]);
    }
  }

  lemma {:induction false} JoinWaitsForCurrent(b: State, c: Call)
    requires !b.failed && c.Join? && LegalName(c.name) && c.name !in b.steps
    requires b.current in b.steps && LegalName(b.current) && !b.steps[b.current].Forks()
    ensures var g := References(Do(b, c).steps); Edge(g, b.current, c.name) && Edge(g, c.name, b.current)
  {
    var after := Do(b, c).steps;
    ReferenceEdges(after, b.current);
    ReferenceEdges(after, c.name);
    assert after[b.current].next[|after[b.current].next| - 1] == c.name;
    assert c.name in RawTargets(after[b.current]);
    assert after[c.name].waitFor == [b.current];
    assert b.current in RawTargets(after[c.name]);
  }

  /** After a step that is no fork, a join and its predecessor refer to each other. */
  lemma {:induction false} JoinAfterOtherFails(b: State, sh: Shape, line: seq<Call>, c: Call)
    requires Tracks(b, sh, line) && c.Join? && LegalName(c.name) && c.name !in b.steps
    requires !line[|line| - 1].Fork?
    ensures !Builds(Do(b, c))
  {
    hide Sound, WaitList;
    SoundNames(b.steps, sh);
    var after := Do(b, c);
    var g := References(after.steps);
    var names := LineOf(line + [c]);
    TrackedOnLine(b, sh, line);
    assert names == LineOf(line) + [c.name];
    LineGrows(b, LineOf(line), c, names);
    assert LegalName(b.current) && !b.steps[b.current].Forks();
    assert after.start == names[0];
    hide Do, References;
    JoinWaitsForCurrent(b, c);
    LineReaches(after.steps, names, |line| - 1);
    EdgeReaches(g, c.name, b.current);
    assert OnCycle(g, b.current);
    assert CycleReachable(g, after.start);
  }

  lemma TrackedOnLine(b: State, sh: Shape, line: seq<Call>)
    requires Tracks(b, sh, line)
    ensures OnLine(b.steps, LineOf(line)) && NoDuplicates(LineOf(line))
  {
    LineOfTracked(b, sh, line);
  }

  lemma {:induction false} LineGrows(b: State, main: seq<string>, c: Call, names: seq<string>)
    requires OnLine(b.steps, main) && NoDuplicates(main)
    requires !b.failed && c.Join? && c.name != "" && c.name !in b.steps && b.current == main[|main| - 1]
    requires b.current != ""
    requires names == main + [c.name]
    ensures OnLine(Do(b, c).steps, names)
  {
    hide WaitList;
    var after := Do(b, c).steps;
    forall i, j | 0 <= i < j < |names| && j == i + 1
      ensures after[names[i]].next == [names[j]]
    {
      if j < |main| {
        assert b.steps[main[i]].next == [main[j]];
        assert main[i] != main[|main| - 1];
      }
    }
  }

  lemma JoinMayFollow(p: Program, c: Call)
    requires Good(p) && c.Join? && LegalName(c.name) && c.name !in NamesOfAll(p.calls) && EndsAtFork(p.calls, false)
    ensures Good(Program(p.calls + [c]))
  {
    hide Names;
    var one := [c];
    assert one[1..] == [];
    assert Names(c) == {c.name} by { JoinNames(c); }
    assert NamesOfAll(one) == {c.name} + {};
    assert Distinct(one);
    GoodCallsAppend(p.calls, one, 1, false);
    DistinctAppend(p.calls, one);
  }

  lemma {:induction false} JoinNames(c: Call)
    requires c.Join?
    ensures Names(c) == {c.name}
  {
  }

  /** Join is accepted exactly when the last step on the main line is a fork. */
  lemma JoinBuildsIffAfterFork(p: Program, retries: int, name: string, strategy: JoinStrategy)
    requires Good(p) && LegalName(name) && name !in NamesOfAll(p.calls)
    ensures MainCalls(p.calls) != []
    ensures Builds(Run(Program(p.calls + [Call.Join(name, strategy)]), retries))
            <==> MainCalls(p.calls)[|MainCalls(p.calls)| - 1].Fork?
  {
    var c := Call.Join(name, strategy);
    var q := Program(p.calls + [c]);
    var line := MainCalls(p.calls);
    EndsAtForkIsLast(p.calls, false);
    assert line == [p.calls[0]] + MainCalls(p.calls[1..]);
    if line[|line| - 1].Fork? {
      JoinMayFollow(p, c);
      var _ := GoodProgramsBuild(q, retries);
    } else {
      var sh := ProgramSound(p, 1, retries);
      var b := Run(p, retries);
      DoAllAppend(Fresh(1, retries), p.calls, [c]);
      assert DoAll(b, [c]) == Do(b, c) by { assert [c][1..] == []; }
      JoinAfterOtherFails(b, sh, line, c);
    }
  }

  // ---- What joins wait for ----

  /**
   One name per branch, in order: the placeholder of the first condition on the branch's main
   line, or else the branch's last main-line step.
   */
  ghost predicate WaitsForAll(waitFor: seq<string>, branches: seq<Program>) {
    && |waitFor| == |branches| >= 2 && NoDuplicates(waitFor)
    && forall k :: 0 <= k < |branches| ==>
         && MainCalls(branches[k].calls) != []
         && waitFor[k] == EntryOf(MainCalls(branches[k].calls))
  }

  /** The branches a join would close after the call. */
  function OpenAfter(c: Call, open: seq<Program>): seq<Program> {
    if c.Fork? then c.branches else if c.OnFailure? then open else []
  }

  /** Every join among the calls, at any level of nesting, waits for the branches of the fork it closes. */
  ghost predicate JoinsWait(steps: Steps, calls: seq<Call>, open: seq<Program>)
    decreases calls
  {
    calls == [] || (CallWaits(steps, calls[0], open) && JoinsWait(steps, calls[1..], OpenAfter(calls[0], open)))
  }

  ghost predicate CallWaits(steps: Steps, c: Call, open: seq<Program>)
    decreases c
  {
    match c
    case Join(name, _) => name in steps && WaitsForAll(steps[name].waitFor, open)
    case Fork(_, branches) => BranchesWait(steps, branches)
    case Condition(_, _, Some(p)) => JoinsWait(steps, p.calls, [])
    case _ => true
  }

  ghost predicate BranchesWait(steps: Steps, branches: seq<Program>)
    decreases branches
  {
    branches == [] || (JoinsWait(steps, branches[0].calls, []) && BranchesWait(steps, branches[1..]))
  }

  /** The wait lists of the named steps are still there. */
  ghost predicate ListsStay(steps: Steps, after: Steps, names: set<string>) {
    forall x :: x in names && x in steps ==> x in after && after[x].waitFor == steps[x].waitFor
  }

  lemma {:induction false} JoinsStillWait(steps: Steps, after: Steps, calls: seq<Call>, open: seq<Program>)
    requires JoinsWait(steps, calls, open) && ListsStay(steps, after, NamesOfAll(calls))
    ensures JoinsWait(after, calls, open)
    decreases calls
  {
    hide WaitsForAll;
    if calls != [] {
      CallStillWaits(steps, after, calls[0], open);
      JoinsStillWait(steps, after, calls[1..], OpenAfter(calls[0], open));
    }
  }

  lemma {:induction false} CallStillWaits(steps: Steps, after: Steps, c: Call, open: seq<Program>)
    requires CallWaits(steps, c, open) && ListsStay(steps, after, Names(c))
    ensures CallWaits(after, c, open)
    decreases c
  {
    hide WaitsForAll;
    match c
    case Fork(_, branches) => BranchesStillWait(steps, after, branches);
    case Condition(_, _, Some(p)) => JoinsStillWait(steps, after, p.calls, []);
    case _ =>
  }

  lemma {:induction false} BranchesStillWait(steps: Steps, after: Steps, branches: seq<Program>)
    requires BranchesWait(steps, branches) && ListsStay(steps, after, NamesOfBranches(branches))
    ensures BranchesWait(after, branches)
    decreases branches
  {
    if branches != [] {
      JoinsStillWait(steps, after, branches[0].calls, []);
      BranchesStillWait(steps, after, branches[1..]);
    }
  }

  /** Calls leave the lists of steps alone that they do not name. */
  lemma {:induction false} LaterCallsKeepLists(b: State, later: seq<Call>, names: set<string>)
    requires names !! NamesOfAll(later)
    ensures ListsStay(b.steps, DoAll(b, later).steps, names)
  {
    forall x | x in names && x in b.steps
      ensures x in DoAll(b, later).steps && DoAll(b, later).steps[x].waitFor == b.steps[x].waitFor
    {
      DoAllKeeps(b, later, x);
    }
  }

  lemma {:induction false} LaterBranchesKeepLists(b: State, fork: string, later: seq<Program>, names: set<string>)
    requires names !! NamesOfBranches(later)
    ensures ListsStay(b.steps, DoBranches(b, fork, later).steps, names)
  {
    forall x | x in names && x in b.steps
      ensures x in DoBranches(b, fork, later).steps && DoBranches(b, fork, later).steps[x].waitFor == b.steps[x].waitFor
    {
      BranchesKeep(b, fork, later, x);
    }
  }

  lemma HangKeepsLists(b: State, fork: string, sub: State, names: set<string>)
    requires !HangBranch(b, fork, sub).failed
    ensures b.failed || ListsStay(sub.steps, HangBranch(b, fork, sub).steps, names)
  {
    hide Builds;
  }

  lemma {:induction false} BranchesDoWait(b: State, fork: string, branches: seq<Program>)
    requires !b.failed && !DoBranches(b, fork, branches).failed
    requires GoodBranches(branches, b.nesting + 1) && DistinctBranches(branches)
    ensures BranchesWait(DoBranches(b, fork, branches).steps, branches)
    decreases branches
  {
    hide HangBranch, DoAll, DoBranches, JoinsWait, GoodProgram, GoodBranches, Distinct, DistinctBranches;
    hide NamesOfAll, NamesOfBranches;
    if branches != [] {
      BranchFacts(branches, b.nesting + 1);
      var rest := branches[1..];
      var sub := DoAll(Fresh(b.nesting + 1, b.defaultMaxRetries), branches[0].calls);
      var hung := HangBranch(b, fork, sub);
      FirstHangs(b, fork, branches);
      HangIs(b, fork, sub);
      ProgramWaits(branches[0], b.nesting + 1, b.defaultMaxRetries);
      HungWaits(b, fork, branches[0].calls, sub, rest);
      BranchesDoWait(hung, fork, rest);
    }
  }

  lemma {:induction false} BranchFacts(branches: seq<Program>, nesting: nat)
    requires branches != [] && GoodBranches(branches, nesting) && DistinctBranches(branches)
    ensures GoodProgram(branches[0], nesting) && GoodBranches(branches[1..], nesting)
    ensures Distinct(branches[0].calls) && DistinctBranches(branches[1..])
    ensures NamesOfAll(branches[0].calls) !! NamesOfBranches(branches[1..])
  {
    hide GoodProgram, Distinct, NamesOfAll;
  }

  lemma FirstHangs(b: State, fork: string, branches: seq<Program>)
    requires !b.failed && branches != [] && !DoBranches(b, fork, branches).failed
    ensures var sub := DoAll(Fresh(b.nesting + 1, b.defaultMaxRetries), branches[0].calls);
            var hung := HangBranch(b, fork, sub);
            !hung.failed && DoBranches(b, fork, branches) == DoBranches(hung, fork, branches[1..])
  {
    hide HangBranch, DoAll;
  }

  /** A branch's joins wait as they did, when it is hung below the fork and others follow. */
  lemma {:induction false} HungWaits(b: State, fork: string, calls: seq<Call>, sub: State, rest: seq<Program>)
    requires !b.failed && !HangBranch(b, fork, sub).failed && JoinsWait(sub.steps, calls, [])
    requires NamesOfAll(calls) !! NamesOfBranches(rest)
    ensures JoinsWait(DoBranches(HangBranch(b, fork, sub), fork, rest).steps, calls, [])
  {
    hide HangBranch, DoBranches, JoinsWait, ListsStay, NamesOfAll, NamesOfBranches;
    var hung := HangBranch(b, fork, sub);
    HangKeepsLists(b, fork, sub, NamesOfAll(calls));
    JoinsStillWait(sub.steps, hung.steps, calls, []);
    LaterBranchesKeepLists(hung, fork, rest, NamesOfAll(calls));
    JoinsStillWait(hung.steps, DoBranches(hung, fork, rest).steps, calls, []);
  }

  lemma HangIs(b: State, fork: string, sub: State)
    ensures HangBranch(b, fork, sub).nesting == b.nesting
    ensures HangBranch(b, fork, sub).defaultMaxRetries == b.defaultMaxRetries
  {
    hide Builds;
  }

  lemma {:induction false} ElseKeepsLists(b: State, c: Call, sub: State, names: set<string>)
    requires c.Condition? && c.otherwise.Some? && !Do(b, c).failed
    requires sub == DoAll(Fresh(b.nesting, b.defaultMaxRetries), c.otherwise.value.calls)
    ensures ListsStay(sub.steps, Do(b, c).steps, names)
  {
    hide Builds, DoAll;
  }

  lemma {:induction false} NestedWaits(b: State, c: Call)
    requires !b.failed && !Do(b, c).failed && !c.Join?
    requires GoodCall(c, b.nesting, false) && DistinctCall(c)
    ensures CallWaits(Do(b, c).steps, c, [])
    decreases c, 0
  {
    match c
    case Fork(name, branches) =>
      hide DoAll, DoBranches, BranchesWait;
      BranchesDoWait(OnMainLine(Started(b, name), name, EmptyStep(StepType.Fork, PrevOfStarter(b))), name, branches);
    case Condition(_, _, Some(p)) =>
      hide DoAll, ListsStay, Do;
      var sub := DoAll(Fresh(b.nesting, b.defaultMaxRetries), p.calls);
      ProgramWaits(p, b.nesting, b.defaultMaxRetries);
      ElseKeepsLists(b, c, sub, NamesOfAll(p.calls));
      JoinsStillWait(sub.steps, Do(b, c).steps, p.calls, []);
    case _ =>
  }

  lemma {:induction false} JoinWaits(b: State, line: seq<Call>, open: seq<Program>, c: Call)
    requires c.Join? && !b.failed && AtFork(b, line, LinesOf(open)) && |open| >= 2
    requires c.name != "" && c.name !in b.steps && "" !in b.steps
    ensures CallWaits(Do(b, c).steps, c, open)
  {
    hide WaitList, EntryOf, MainCalls;
    var lines := LinesOf(open);
    LinesCount(open);
    forall k | 0 <= k < |lines| ensures lines[k] != [] {
      assert LineAt(b.steps, lines[k]);
    }
    WaitListIsEntries(b, line, lines);
    assert Do(b, c).steps[c.name].waitFor == WaitList(b);
  }

  lemma {:induction false} GoodWithoutFork(c: Call, nesting: nat, afterFork: bool)
    requires GoodCall(c, nesting, afterFork)
    ensures !c.Join? ==> GoodCall(c, nesting, false)
    ensures c.Join? ==> afterFork && LegalName(c.name)
  {
  }

  lemma {:induction false} OpenDoesNotMatter(steps: Steps, c: Call, open: seq<Program>)
    requires !c.Join? && CallWaits(steps, c, [])
    ensures CallWaits(steps, c, open)
  {
  }

  lemma {:induction false} CallsWait(b: State, sh: Shape, line: seq<Call>, open: seq<Program>, calls: seq<Call>,
        afterFork: bool)
    requires Tracks(b, sh, line)
    requires GoodCalls(calls, b.nesting, afterFork) && Distinct(calls) && NamesOfAll(calls) !! b.steps.Keys
    requires afterFork ==> AtFork(b, line, LinesOf(open)) && |open| >= 2
    ensures JoinsWait(DoAll(b, calls).steps, calls, open)
    decreases calls
  {
    if calls != [] {
      hide Sound, AtFork, Do, CallWaits, ListsStay, GoodCall, DistinctCall, Names, LinesOf;
      var c, rest := calls[0], calls[1..];
      var sh', lines' := CallSound(b, sh, line, LinesOf(open), c, afterFork);
      LinesCount(open);
      OneCallWaits(b, sh, line, open, c, afterFork);
      LaterCallsKeepLists(Do(b, c), rest, Names(c));
      CallStillWaits(Do(b, c).steps, DoAll(Do(b, c), rest).steps, c, open);
      if c.Fork? { LinesCount(c.branches); }
      CallsWait(Do(b, c), sh', line + if c.OnFailure? then [] else [c], OpenAfter(c, open), rest,
                AfterFork(c, afterFork));
    }
  }

  lemma {:induction false} OneCallWaits(b: State, sh: Shape, line: seq<Call>, open: seq<Program>, c: Call,
        afterFork: bool)
    requires Tracks(b, sh, line) && Ready(b, c, afterFork) && !Do(b, c).failed
    requires afterFork ==> AtFork(b, line, LinesOf(open)) && |open| >= 2
    ensures CallWaits(Do(b, c).steps, c, open)
    decreases c, 1
  {
    hide Sound, AtFork, Do, CallWaits, GoodCall, DistinctCall, LinesOf;
    SoundNames(b.steps, sh);
    GoodWithoutFork(c, b.nesting, afterFork);
    if c.Join? {
      JoinNames(c);
      JoinWaits(b, line, open, c);
    } else {
      NestedWaits(b, c);
      OpenDoesNotMatter(Do(b, c).steps, c, open);
    }
  }

  lemma {:induction false} ProgramWaits(p: Program, nesting: nat, retries: int)
    requires GoodProgram(p, nesting) && Distinct(p.calls)
    ensures JoinsWait(DoAll(Fresh(nesting, retries), p.calls).steps, p.calls, [])
    decreases p
  {
    hide AtFork, Tracks, Do, CallWaits, ListsStay, GoodCall, DistinctCall, Names, LinesOf;
    var c, rest, b := p.calls[0], p.calls[1..], Fresh(nesting, retries);
    GoodWithoutFork(c, nesting, false);
    var sh, lines := FirstCallSound(b, c);
    assert !Do(b, c).failed by { TrackedFacts(Do(b, c), sh, [c]); }
    NestedWaits(b, c);
    LaterCallsKeepLists(Do(b, c), rest, Names(c));
    CallStillWaits(Do(b, c).steps, DoAll(Do(b, c), rest).steps, c, []);
    if c.Fork? { LinesCount(c.branches); }
    CallsWait(Do(b, c), sh, [c], OpenAfter(c, []), rest, AfterFork(c, false));
  }

  /**
   In what a good program builds, every join waits for one name per branch of the fork it
   closes, in order, wherever the two stand: on the main line, in a branch or on an else side.
   Compensations between the two and calls that come later change nothing.
   */
  lemma JoinWaitsForEveryBranch(p: Program, retries: int)
    requires Good(p)
    ensures JoinsWait(Run(p, retries).steps, p.calls, [])
  {
    ProgramWaits(p, 1, retries);
  }
}
