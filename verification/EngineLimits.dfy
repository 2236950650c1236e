/**
 Where the engine falls short of what is said about it: steps that are not idempotent may run
 twice, and dropping a finished step's queue item can take another instance's item with it.
 */
module EngineLimits {
  import opened Definitions
  import opened Validator
  import opened Rollback
  import opened JoinStates
  import opened Engine
  import opened EngineFrame
  import opened EngineRuns
  import opened EngineLinear
  import opened EngineSagas
  import opened EngineForward
  import opened EngineBackward
  import opened EngineAtomicity

  // ---- Steps that are not idempotent ----

  const Failing := Choice(true, false, true, [], map[], None)

  /** A failed run of a task is logged once, whatever follows. */
  lemma FailedRunIsLogged(s: State, q: nat, i: nat, def: Definition, main: seq<string>, ids: seq<nat>)
    requires Picked(s, q, Failing, i, def, main, ids) && def.steps[main[|ids| - 1]].kind == Task
    ensures ids != [] && Count(ExecuteNext(s, q, Failing).log, Ran(LastOf(ids))) == Count(s.log, Ran(LastOf(ids))) + 1
  {
    hide Forward, ExecuteNext, FailedRun, Linear, Issued;
    PickedFacts(s, q, Failing, i, def, main, ids);
    var id, d := LastOf(ids), def.steps[main[|ids| - 1]];
    LoggedRun(s.log, id);
    FailedRunIs(s, q, id, d);
    if s.rows[id].retry + 1 < RunLimit(d) {
      RetryIs(s, q, i, def, main, ids);
    } else {
      FinalIsLogged(s, q, i, def, main, ids);
    }
  }

  lemma {:induction false} LoggedRun(log: seq<Entry>, id: nat)
    ensures Count(log + [Ran(id)], Ran(id)) == Count(log, Ran(id)) + 1
    ensures Count(log + [Ran(id)] + [Ended(id, false)], Ran(id)) == Count(log, Ran(id)) + 1
  {
    CountNote(log, Ran(id), Ran(id));
    CountNote(log + [Ran(id)], Ended(id, false), Ran(id));
  }

  lemma FinalIsLogged(s: State, q: nat, i: nat, def: Definition, main: seq<string>, ids: seq<nat>)
    requires Picked(s, q, Failing, i, def, main, ids) && def.steps[main[|ids| - 1]].kind == Task
    requires s.rows[LastOf(ids)].retry + 1 >= RunLimit(def.steps[main[|ids| - 1]])
    ensures ExecuteNext(s, q, Failing).log == s.log + [Ran(LastOf(ids))] + [Ended(LastOf(ids), false)]
  {
    hide Forward, ExecuteNext, FailedRun, RollbackFrom, Issued, Nearest, Keeps, RunLimit;
    PickedFacts(s, q, Failing, i, def, main, ids);
    var id, name := LastOf(ids), main[|ids| - 1];
    var d := def.steps[name];
    FailedRunIs(s, q, id, d);
    LineIsDefined(def, main);
    var sp := NearestExists(def, main, |ids| - 1);
    NearestIsInRange(def, main, |ids| - 1, sp);
    FailsForGood(s, q, Failing, i, def, main, ids, sp);
    FailedIsIssued(s, q, Failing, i, def, main, ids);
    RollbackFromKeeps(Note(FailedRun(s, q, id, d), Ended(id, false)), i, def.steps, name, TargetOf(main, sp));
  }

  lemma NearestIsInRange(def: Definition, main: seq<string>, k: int, sp: int)
    requires Nearest(def, main, k, sp)
    ensures -1 <= sp <= k < |main|
  {
  }

  lemma RetryIs(s: State, q: nat, i: nat, def: Definition, main: seq<string>, ids: seq<nat>)
    requires Picked(s, q, Failing, i, def, main, ids) && def.steps[main[|ids| - 1]].kind == Task
    requires s.rows[LastOf(ids)].retry + 1 < RunLimit(def.steps[main[|ids| - 1]])
    ensures ExecuteNext(s, q, Failing) ==
            Enqueue(FailedRun(s, q, LastOf(ids), def.steps[main[|ids| - 1]]), i, LastOf(ids))
  {
    hide Forward, ExecuteNext, Issued, FailStep, BuryStep, Linear, Retries;
    PickedFacts(s, q, Failing, i, def, main, ids);
    RunsTheStep(s, q, Failing, i, def, main, ids);
    RetriesBelowLimit(def.steps[main[|ids| - 1]], s.rows[LastOf(ids)]);
  }

  const Passing := Choice(true, true, true, [], map[], None)

  /** The instance's saga waits for step `k` of its line, whose handler has run and failed `j` times. */
  ghost predicate WaitsAt(s: State, defs: map<string, Definition>, lines: Lines, workflow: string, i: nat,
        ids: seq<nat>, k: nat, j: nat) {
    && World(s, lines) && s.defs == defs && workflow in defs && workflow in lines && InstanceOf(s, i, workflow)
    && Forward(s, i, defs[workflow].steps, lines[workflow], ids)
    && |ids| == k + 1 && LastOf(ids) in s.rows
    && s.rows[LastOf(ids)].retry == j && Count(s.log, Ran(LastOf(ids))) == j
  }

  ghost predicate InstanceOf(s: State, i: nat, workflow: string) {
    i in s.instances && s.instances[i].workflow == workflow
  }

  ghost predicate RowNamed(s: State, i: nat, id: nat, name: string) {
    IsRowOf(s, i, id) && s.rows[id].name == name
  }

  /** Where a saga waits, a worker with the handler can pick its item. */
  lemma PicksWaiting(s: State, defs: map<string, Definition>, lines: Lines, workflow: string, i: nat, ids: seq<nat>,
        k: nat, j: nat,              c: Choice) returns (q: nat)
    requires WaitsAt(s, defs, lines, workflow, i, ids, k, j) && c.late.None? && c.hasHandler
    ensures Picked(s, q, c, i, defs[workflow], lines[workflow], ids)
    ensures k < |lines[workflow]| && lines[workflow][k] in defs[workflow].steps
    ensures !LacksHandler(defs[workflow].steps, s.rows[LastOf(ids)], c)
    ensures RowNamed(s, i, LastOf(ids), lines[workflow][k])
  {
    assert HasItem(s, i, LastOf(ids));
    q :| q in s.queue && s.queue[q] == Item(i, LastOf(ids));
    RowsOnLine(s, i, defs[workflow].steps, lines[workflow], ids, k);
  }

  /** Start a workflow in an empty engine. */
  lemma ReachesStart(defs: map<string, Definition>, lines: Lines, workflow: string)
    returns (events: seq<Event>, i: nat, ids: seq<nat>)
    requires AllLinear(defs, lines) && workflow in defs && WellFormed(defs[workflow])
    requires defs[workflow].start in defs[workflow].steps
    ensures PlainRun(events) && WaitsAt(After(Initial(defs), events), defs, lines, workflow, i, ids, 0, 0)
  {
    hide WellFormed, Linear, Forward, StartWorkflow, Budget;
    var s0, main := Initial(defs), lines[workflow];
    InitialWorld(defs, lines);
    LineStarts(defs[workflow], main);
    i, ids := s0.nextInstance, [s0.nextRow];
    events := [Start(workflow)];
    OneEvent(s0, Start(workflow));
    StartIs(s0, workflow);
    NewIsForward(s0, workflow, main);
    StartWorld(s0, workflow, lines);
    CountAbsent(s0.log, Ran(s0.nextRow));
  }

  lemma LineStarts(def: Definition, main: seq<string>)
    requires Linear(def, main)
    ensures main != [] && main[0] == def.start
  {
  }

  /** Let the step succeed: the saga waits for the next one. */
  lemma PassesStep(s: State, defs: map<string, Definition>, lines: Lines, workflow: string, i: nat, ids: seq<nat>,
        k: nat)
      returns (e: Event, ids': seq<nat>)
    requires WaitsAt(s, defs, lines, workflow, i, ids, k, 0) && k + 1 < |lines[workflow]|
    ensures Plain(e) && WaitsAt(Step(s, e), defs, lines, workflow, i, ids', k + 1, 0)
  {
    hide Forward, ExecuteNext, LacksHandler, Linear, Issued;
    var q := PicksWaiting(s, defs, lines, workflow, i, ids, k, 0, Passing);
    e, ids' := Execute(q, Passing), ids + [s.nextRow];
    GoesOn(s, q, Passing, i, defs[workflow], lines[workflow], ids);
    ExecuteWorld(s, q, Passing, lines);
    ExecuteKeepsWorkflow(s, q, Passing);
    NothingRunYet(ExecuteNext(s, q, Passing), i, defs[workflow].steps, lines[workflow], ids');
  }

  lemma NothingRunYet(s: State, i: nat, steps: Steps, main: seq<string>, ids: seq<nat>)
    requires Forward(s, i, steps, main, ids) && LastOf(ids) in s.rows && s.rows[LastOf(ids)].retry == 0
    ensures Count(s.log, Ran(LastOf(ids))) == 0
  {
  }

  /** Let the handler fail with a retry left. */
  lemma FailsOnce(s: State, defs: map<string, Definition>, lines: Lines, workflow: string, i: nat, ids: seq<nat>,
        k: nat, j: nat)
      returns (e: Event)
    requires WaitsAt(s, defs, lines, workflow, i, ids, k, j) && k < |lines[workflow]|
    requires lines[workflow][k] in defs[workflow].steps
    requires var d := defs[workflow].steps[lines[workflow][k]]; d.kind == Task && j + 1 < RunLimit(d)
    ensures Plain(e) && WaitsAt(Step(s, e), defs, lines, workflow, i, ids, k, j + 1)
  {
    hide Forward, ExecuteNext, LacksHandler, Linear, Issued;
    var q := PicksWaiting(s, defs, lines, workflow, i, ids, k, j, Failing);
    e := Execute(q, Failing);
    FailedRunIsLogged(s, q, i, defs[workflow], lines[workflow], ids);
    RetriesStep(s, q, Failing, i, defs[workflow], lines[workflow], ids);
    ExecuteWorld(s, q, Failing, lines);
    ExecuteKeepsWorkflow(s, q, Failing);
  }

  lemma {:induction false} ReachesStep(defs: map<string, Definition>, lines: Lines, workflow: string, k: nat)
      returns (events: seq<Event>, i: nat, ids: seq<nat>)
    requires AllLinear(defs, lines) && workflow in defs && WellFormed(defs[workflow])
    requires defs[workflow].start in defs[workflow].steps
    requires k < |lines[workflow]|
    ensures PlainRun(events) && WaitsAt(After(Initial(defs), events), defs, lines, workflow, i, ids, k, 0)
    decreases k
  {
    hide WaitsAt, Linear, WellFormed, Step, After;
    if k == 0 {
      events, i, ids := ReachesStart(defs, lines, workflow);
    } else {
      var before, e;
      before, i, ids := ReachesStep(defs, lines, workflow, k - 1);
      e, ids := PassesStep(After(Initial(defs), before), defs, lines, workflow, i, ids, k - 1);
      events := before + [e];
      AfterAppend(Initial(defs), before, [e]);
      OneEvent(After(Initial(defs), before), e);
    }
  }

  lemma {:induction false} ReachesFailures(defs: map<string, Definition>, lines: Lines, workflow: string, k: nat,
        j: nat)
      returns (events: seq<Event>, i: nat, ids: seq<nat>)
    requires AllLinear(defs, lines) && workflow in defs && WellFormed(defs[workflow])
    requires defs[workflow].start in defs[workflow].steps
    requires k < |lines[workflow]| && lines[workflow][k] in defs[workflow].steps
    requires var d := defs[workflow].steps[lines[workflow][k]]; d.kind == Task && j < RunLimit(d)
    ensures PlainRun(events) && WaitsAt(After(Initial(defs), events), defs, lines, workflow, i, ids, k, j)
    decreases j
  {
    hide WaitsAt, Linear, WellFormed, Step, After, RunLimit;
    if j == 0 {
      events, i, ids := ReachesStep(defs, lines, workflow, k);
    } else {
      var before;
      before, i, ids := ReachesFailures(defs, lines, workflow, k, j - 1);
      var e := FailsOnce(After(Initial(defs), before), defs, lines, workflow, i, ids, k, j - 1);
      events := before + [e];
      AfterAppend(Initial(defs), before, [e]);
      OneEvent(After(Initial(defs), before), e);
    }
  }

  /** The last failure: the handler has run as often as it may. */
  lemma FailsLast(s: State, defs: map<string, Definition>, lines: Lines, workflow: string, i: nat, ids: seq<nat>,
        k: nat, j: nat)
      returns (e: Event)
    requires WaitsAt(s, defs, lines, workflow, i, ids, k, j) && k < |lines[workflow]|
    requires lines[workflow][k] in defs[workflow].steps
    requires defs[workflow].steps[lines[workflow][k]].kind == Task
    ensures Plain(e) && ids != []
    ensures var s' := Step(s, e);
            InstanceOf(s', i, workflow) && RowNamed(s', i, LastOf(ids), lines[workflow][k])
            && Count(s'.log, Ran(LastOf(ids))) == j + 1
  {
    hide Forward, ExecuteNext, LacksHandler, Linear, Issued;
    var q := PicksWaiting(s, defs, lines, workflow, i, ids, k, j, Failing);
    e := Execute(q, Failing);
    FailedRunIsLogged(s, q, i, defs[workflow], lines[workflow], ids);
    ExecuteKeepsWorkflow(s, q, Failing);
    RowKept(s, q, i, LastOf(ids));
  }

  lemma RowKept(s: State, q: nat, i: nat, id: nat)
    requires Issued(s) && IsRowOf(s, i, id)
    ensures var s' := ExecuteNext(s, q, Failing); IsRowOf(s', i, id) && s'.rows[id].name == s.rows[id].name
  {
    hide ExecuteNext, Performed, Issued;
    ExecuteNextKeeps(s, q, Failing);
    Outcome(s, ExecuteNext(s, q, Failing), Worked(s, q));
  }

  /** Some run uses up the limit of any task on the line. */
  lemma LimitIsReached(defs: map<string, Definition>, lines: Lines, workflow: string, k: nat)
      returns (events: seq<Event>, i: nat, id: nat)
    requires AllLinear(defs, lines) && workflow in defs && WellFormed(defs[workflow])
    requires defs[workflow].start in defs[workflow].steps
    requires k < |lines[workflow]| && lines[workflow][k] in defs[workflow].steps
    requires defs[workflow].steps[lines[workflow][k]].kind == Task
    ensures PlainRun(events)
    ensures var s := After(Initial(defs), events);
            && InstanceOf(s, i, workflow) && RowNamed(s, i, id, lines[workflow][k])
            && Count(s.log, Ran(id)) == RunLimit(defs[workflow].steps[lines[workflow][k]])
  {
    hide WaitsAt, Linear, WellFormed, Step, After;
    var before, ids;
    before, i, ids := ReachesFailures(defs, lines, workflow, k, RunLimit(defs[workflow].steps[lines[workflow][k]]) - 1);
    var s := After(Initial(defs), before);
    var e := FailsLast(s, defs, lines, workflow, i, ids, k, RunLimit(defs[workflow].steps[lines[workflow][k]]) - 1);
    events, id := before + [e], LastOf(ids);
    AfterAppend(Initial(defs), before, [e]);
    OneEvent(s, e);
  }

  /** In every run, every row of the workflow's step has had its handler run at most `m` times. */
  ghost predicate AtMost(defs: map<string, Definition>, workflow: string, name: string, m: nat) {
    forall events: seq<Event>, i: nat, id: nat ::
      PlainRun(events) && InstanceOf(After(Initial(defs), events), i, workflow)
      && RowNamed(After(Initial(defs), events), i, id, name) ==>
        Count(After(Initial(defs), events).log, Ran(id)) <= m
  }

  /** The bound on handler runs is exact, for every task of every linear workflow. */
  lemma LimitIsExact(defs: map<string, Definition>, lines: Lines, workflow: string, k: nat, m: nat)
    requires AllLinear(defs, lines) && workflow in defs && WellFormed(defs[workflow])
    requires defs[workflow].start in defs[workflow].steps
    requires k < |lines[workflow]| && lines[workflow][k] in defs[workflow].steps
    requires defs[workflow].steps[lines[workflow][k]].kind == Task
    ensures AtMost(defs, workflow, lines[workflow][k], m) <==> RunLimit(defs[workflow].steps[lines[workflow][k]]) <= m
  {
    hide After, Linear, WellFormed, RunLimit, PlainRun;
    var name := lines[workflow][k];
    if RunLimit(defs[workflow].steps[name]) <= m {
      forall events: seq<Event>, i: nat, id: nat
          | PlainRun(events) && InstanceOf(After(Initial(defs), events), i, workflow)
            && RowNamed(After(Initial(defs), events), i, id, name)
        ensures Count(After(Initial(defs), events).log, Ran(id)) <= m
      {
        RunsAreBounded(defs, lines, events, i, id);
        SameDefs(defs, events, lines);
      }
    } else {
      var events, i, id := LimitIsReached(defs, lines, workflow, k);
      assert InstanceOf(After(Initial(defs), events), i, workflow);
    }
  }

  /**
   A task of a linear workflow runs at most once in every run exactly if it allows no retry.
   A step marked as not idempotent through its option allows one.
   */
  lemma AtMostOnceIffNoRetry(defs: map<string, Definition>, lines: Lines, workflow: string, k: nat)
    requires AllLinear(defs, lines) && workflow in defs && WellFormed(defs[workflow])
    requires defs[workflow].start in defs[workflow].steps
    requires k < |lines[workflow]| && lines[workflow][k] in defs[workflow].steps
    requires defs[workflow].steps[lines[workflow][k]].kind == Task
    ensures AtMost(defs, workflow, lines[workflow][k], 1) <==> defs[workflow].steps[lines[workflow][k]].maxRetries <= 0
  {
    hide AtMost, Linear, WellFormed;
    LimitIsExact(defs, lines, workflow, k, 1);
  }

  lemma {:induction false} SameDefs(defs: map<string, Definition>, events: seq<Event>, lines: Lines)
    requires AllLinear(defs, lines) && PlainRun(events)
    ensures After(Initial(defs), events).defs == defs
  {
    hide Linear, WellFormed;
    InitialWorld(defs, lines);
    RunDefs(Initial(defs), events, lines);
  }

  lemma {:induction false} RunDefs(s: State, events: seq<Event>, lines: Lines)
    requires World(s, lines) && PlainRun(events)
    ensures After(s, events).defs == s.defs
    decreases events
  {
    hide World, ExecuteNext, StartWorkflow;
    if events != [] {
      StepWorld(s, events[0], lines);
      WorldIsIssued(s, lines);
      match events[0] {
        case Start(workflow) => StartDefs(s, workflow, lines);
        case Execute(q, c) => ExecuteKeepsWorkflow(s, q, c);
      }
      RunDefs(Step(s, events[0]), events[1..], lines);
    }
  }

  lemma WorldIsIssued(s: State, lines: Lines)
    requires World(s, lines)
    ensures Issued(s)
  {
  }

  lemma StartDefs(s: State, workflow: string, lines: Lines)
    requires World(s, lines)
    ensures StartWorkflow(s, workflow).defs == s.defs
  {
    StartSame(s, workflow, s.nextInstance + 1);
  }

  // ---- Dropped queue items ----

  /** A drop takes along the queue item that carries the number of the dropped row. */
  predicate TakesAlong(s: State, q: nat, other: nat) {
    Drops(s, q) && other == s.queue[q].row && other in s.queue && other != q
  }

  /** Of other instances' items, an ExecuteNext loses exactly those that a drop takes along. */
  lemma SparesOthersIff(s: State, q: nat, c: Choice, other: nat)
    requires Issued(s) && other in s.queue && s.queue[other].instance != Worked(s, q)
    ensures other in ExecuteNext(s, q, c).queue <==> !TakesAlong(s, q, other)
    ensures !TakesAlong(s, q, other) ==> ExecuteNext(s, q, c).queue[other] == s.queue[other]
  {
    hide Issued, KeepsOrFroze, Performed;
    if Drops(s, q) {
      assert ExecuteNext(s, q, c) == RemoveItem(RemoveItem(s, q), s.queue[q].row);
    } else {
      hide ExecuteNext;
      ExecuteNextKeeps(s, q, c);
      OthersStayQueued(s, ExecuteNext(s, q, c), Worked(s, q));
    }
  }

  lemma OthersStayQueued(s: State, s': State, i: nat)
    requires KeepsOrFroze(s, s', i)
    ensures OthersQueued(s, s', i)
  {
    if Froze(s, s', i) {
      var s1 :| Keeps(s, s1, i) && NoItems(s1, i) && s' == SetInstance(s1, i, Dlq);
    }
  }

  /** A drop removes exactly its own item and the one it takes along, its own instance's included. */
  lemma DropRemovesExactly(s: State, q: nat, c: Choice, other: nat)
    requires Drops(s, q) && other in s.queue
    ensures other !in ExecuteNext(s, q, c).queue <==> other == q || TakesAlong(s, q, other)
  {
    assert ExecuteNext(s, q, c) == RemoveItem(RemoveItem(s, q), s.queue[q].row);
  }
}
