/**
 A run in which one instance loses its only queue item to another: an aborted fork leaves a
 skipped step in the queue, and the number of that step's row is the number of the other
 instance's item.
 */
module EngineLoss {
  import opened Definitions
  import opened Graphs
  import opened Validator
  import opened Rollback
  import opened JoinStates
  import opened Engine
  import opened EngineFrame
  import opened EngineRuns
  import opened EngineLinear
  import opened EngineForward
  import opened EngineAtomicity

  // ---- Two workflows ----

  const SoloSteps: Steps := map["a" := StepDef(Task, "h", 1, [], ROOT, "", "", [], [], All, false)]

  const PairSteps: Steps := map[
    "f" := StepDef(Fork, "", 0, [], ROOT, "", "", ["x", "y"], [], All, false),
    "x" := StepDef(Task, "h", 0, [], "f", "", "", [], [], All, false),
    "y" := StepDef(Task, "h", 0, [], "f", "", "", [], [], All, false)]

  const Solo := Definition("a", SoloSteps, false)
  const Pair := Definition("f", PairSteps, false)
  const Defs: map<string, Definition> := map["solo" := Solo, "pair" := Pair]

  lemma SoloIsWellFormed()
    ensures WellFormed(Solo)
  {
    var g := References(SoloSteps);
    assert forall u, v :: !Edge(g, u, v);
    RankedHasNoCycle(g, map[], "a");
  }

  /** The fork refers to its two branches, and nothing else refers to anything. */
  lemma PairEdges(u: string, v: string)
    requires Edge(References(PairSteps), u, v)
    ensures u == "f" && (v == "x" || v == "y")
  {
    ReferenceEdges(PairSteps, u);
    hide References;
    assert RawTargets(PairSteps["f"]) == ["x", "y"];
    assert RawTargets(PairSteps["x"]) == [] && RawTargets(PairSteps["y"]) == [];
    assert v in RawTargets(PairSteps[u]);
  }

  lemma PairHasNoCycle()
    ensures !CycleReachable(References(PairSteps), "f")
  {
    hide References;
    var g := References(PairSteps);
    var rank: map<string, nat> := map["f" := 0, "x" := 1, "y" := 1];
    forall u, v | Edge(g, u, v)
      ensures u in rank && v in rank && rank[u] < rank[v]
    {
      PairEdges(u, v);
    }
    RankedHasNoCycle(g, rank, "f");
  }

  lemma PairIsWellFormed()
    ensures WellFormed(Pair)
  {
    hide References, CycleReachable;
    PairHasNoCycle();
    assert StepOk(PairSteps, "f") && StepOk(PairSteps, "x") && StepOk(PairSteps, "y");
  }

  // ---- The run ----

  function Ok(order: seq<string>): Choice {
    Choice(true, true, true, order, map[], None)
  }

  function Failure(order: seq<string>): Choice {
    Choice(true, false, true, order, map[], None)
  }

  /**
   Retries are enqueued at a higher priority than new steps, so the queue hands the items out in
   this order only if the retry of "a" is not due yet and the item of "x" has been put off, by a
   delay on these steps or by a worker without their handler.
   */
  function TheRun(order: seq<string>): seq<Event> {
    [Start("solo"), Start("pair"), Execute(1, Failure(order)), Execute(2, Ok(order)),
     RequestStop(2, Abort), Execute(5, Ok(order)), Execute(4, Ok(order))]
  }

  const SoloRow := Row(1, "a", Task, Pending, 0, 1, 0)
  const RetryRow := Row(1, "a", Task, StepStatus.Failed, 1, 1, 0)
  const ForkRow := Row(2, "f", Fork, Pending, 0, 0, 0)
  const XRow := Row(2, "x", Task, Pending, 0, 0, 0)
  const YRow := Row(2, "y", Task, Pending, 0, 0, 0)

  function Running(second: WorkflowStatus): map<nat, Instance> {
    map[1 := Instance("solo", WorkflowStatus.Running), 2 := Instance("pair", second)]
  }

  /** Both instances have been started. */
  function Started(): State {
    State(Defs, Running(WorkflowStatus.Running), map[1 := SoloRow, 2 := ForkRow], map[1 := Item(1, 1), 2 := Item(2, 2)],
          map[], map[], map[], 3, 3, 3, 1, [])
  }

  /** The first instance waits for a retry. */
  function Retrying(): State {
    Started().(rows := map[1 := RetryRow, 2 := ForkRow], queue := map[2 := Item(2, 2), 3 := Item(1, 1)], nextItem := 4,
               log := [Ran(1)])
  }

  /** The second instance has forked. */
  function Forked(): State {
    Retrying().(rows := map[1 := RetryRow, 2 := ForkRow.(status := StepStatus.Completed), 3 := XRow, 4 := YRow],
                queue := map[3 := Item(1, 1), 4 := Item(2, 3), 5 := Item(2, 4)], nextRow := 5, nextItem := 6,
                log := [Ran(1), Ended(2, true)])
  }

  /** The second instance has been aborted by the execution of one of its branches. */
  function Stopped(): State {
    Forked().(instances := Running(Aborted),
              rows := map[1 := RetryRow, 2 := ForkRow.(status := StepStatus.Completed),
                          3 := XRow.(status := Skipped), 4 := YRow.(status := Skipped)],
              queue := map[3 := Item(1, 1), 4 := Item(2, 3)])
  }

  lemma BothStart()
    ensures StartWorkflow(StartWorkflow(Initial(Defs), "solo"), "pair") == Started()
  {
    hide WellFormed;
    SoloIsWellFormed();
    PairIsWellFormed();
    StartIs(Initial(Defs), "solo");
    var s1 := StartWorkflow(Initial(Defs), "solo");
    StartIs(s1, "pair");
    var s2 := StartWorkflow(s1, "pair");
    assert s1.rows == map[1 := SoloRow] && s1.queue == map[1 := Item(1, 1)];
    SameMap(s2.rows, Started().rows);
    SameMap(s2.queue, Started().queue);
    SameMap(s2.instances, Started().instances);
  }

  lemma FirstFails(order: seq<string>)
    ensures ExecuteNext(Started(), 1, Failure(order)) == Retrying()
  {
    hide HandleSuccess, FailStep, BuryStep;
    var s, c := Started(), Failure(order);
    var row := SoloRow;
    assert Runnable(s, 1) && !LacksHandler(SoloSteps, row, c);
    ExecuteIsHandle(s, 1, c);
    var claimed := RemoveItem(s, 1);
    var ran := Note(SetStatus(claimed, 1, StepStatus.Running), Ran(1));
    assert Handle(claimed, 1, Solo, 1, row, c) == Enqueue(SetStatus(ran, 1, StepStatus.Failed), 1, 1);
    var s' := Enqueue(SetStatus(ran, 1, StepStatus.Failed), 1, 1);
    SameMap(s'.rows, Retrying().rows);
    SameMap(s'.queue, Retrying().queue);
  }

  /** The fork creates its two branches. */
  lemma Branches(s: State)
    requires s.nextRow == 3 && s.nextItem == 4
    ensures ExecuteFork(s, 2, PairSteps, PairSteps["f"]) ==
            (s.(rows := s.rows[3 := XRow][4 := YRow], queue := s.queue[4 := Item(2, 3)][5 := Item(2, 4)],
                nextRow := 5, nextItem := 6), true)
  {
    var names := PairSteps["f"].parallel;
    assert names[1..] == ["y"] && names[1..][1..] == [];
    var s1 := Enqueue(CreateRow(s, XRow), 2, 3);
    assert CreateBranches(s1, 2, PairSteps, ["y"]) ==
        CreateBranches(Enqueue(CreateRow(s1, YRow), 2, 4), 2, PairSteps, []) by {
      assert ["y"][1..] == [];
    }
  }

  /** There is no join that would hear of the fork. */
  lemma NobodyHears(s: State, order: seq<string>)
    ensures Tell(s, 2, PairSteps, order, "f", true) == (s, true)
  {
    NoneOfKind(PairSteps, Climb(PairSteps, ROOT), Condition);
    NotInBranches(order);
    NobodyToNotify(s, 2, PairSteps, order, order, "f", true);
  }

  lemma {:induction false} NotInBranches(order: seq<string>)
    ensures ForkOf(PairSteps, order, "f") == ""
  {
    if order != [] {
      NotInBranches(order[1..]);
    }
  }

  /** The state right after the fork has run. */
  function ForkDone(): State {
    var s := SetStatus(RemoveItem(Retrying(), 2), 2, StepStatus.Running);
    Note(SetStatus(ExecuteFork(s, 2, PairSteps, PairSteps["f"]).0, 2, StepStatus.Completed), Ended(2, true))
  }

  /** It is the state with the two branches in it. */
  lemma ForkDoneIs()
    ensures ForkDone() == Forked()
  {
    hide ExecuteFork;
    var s := SetStatus(RemoveItem(Retrying(), 2), 2, StepStatus.Running);
    Branches(s);
    ForkDoneRows(s, ForkDone());
    SameMap(ForkDone().queue, Forked().queue);
  }

  lemma ForkDoneRows(s: State, done: State)
    requires s == SetStatus(RemoveItem(Retrying(), 2), 2, StepStatus.Running)
    requires done.rows == SetStatus(s.(rows := s.rows[3 := XRow][4 := YRow]), 2, StepStatus.Completed).rows
    ensures done.rows == Forked().rows
  {
    SameMap(done.rows, Forked().rows);
  }

  /** The fork has no successor, and its branches are not finished. */
  lemma ForkIsAllThereIs(order: seq<string>)
    ensures HandleSuccess(ExecuteFork(SetStatus(RemoveItem(Retrying(), 2), 2, StepStatus.Running), 2, PairSteps,
                                      PairSteps["f"]).0,
                          2, PairSteps, 2, "f", order, true) == ForkDone()
  {
    hide Tell, ExecuteFork, CompleteWorkflow, EnqueueNext;
    NobodyHears(ForkDone(), order);
    ForkDoneIs();
    assert IsRowOf(Forked(), 2, 3) && Forked().rows[3].status == Pending;
    assert Unfinished(ForkDone(), 2);
  }

  lemma SecondForks(order: seq<string>)
    ensures ExecuteNext(Retrying(), 2, Ok(order)) == Forked()
  {
    hide HandleSuccess, HandleFailure, ExecuteFork, ForkDone, Tell;
    var s, c := Retrying(), Ok(order);
    assert Runnable(s, 2) && !LacksHandler(PairSteps, ForkRow, c);
    ExecuteIsHandle(s, 2, c);
    ForkSucceeds();
    ForkIsAllThereIs(order);
    ForkDoneIs();
  }

  lemma ForkSucceeds()
    ensures ExecuteFork(SetStatus(RemoveItem(Retrying(), 2), 2, StepStatus.Running), 2, PairSteps, PairSteps["f"]).1
  {
    hide ExecuteFork;
    Branches(SetStatus(RemoveItem(Retrying(), 2), 2, StepStatus.Running));
  }

  lemma SecondStops(order: seq<string>)
    ensures ExecuteNext(RequestCancel(Forked(), 2, Abort), 5, Ok(order)) == Stopped()
  {
    hide HandleSuccess, HandleFailure, Work, UndoAll;
    var s, c := RequestCancel(Forked(), 2, Abort), Ok(order);
    assert Runnable(s, 5) && !LacksHandler(PairSteps, YRow, c);
    ExecuteIsHandle(s, 5, c);
    hide HandleCancellation;
    assert Handle(RemoveItem(s, 5), 2, Pair, 4, YRow, c) == HandleCancellation(RemoveItem(s, 5), 2, PairSteps, Abort);
    AbortStops(RemoveItem(s, 5));
    SameMap(RemoveItem(s, 5).queue, Stopped().queue);
  }

  lemma AbortStops(s: State)
    requires s == Forked().(cancels := map[2 := Abort], queue := s.queue)
    ensures HandleCancellation(s, 2, PairSteps, Abort) == Stopped().(queue := s.queue)
  {
    hide UndoAll, SkipRows;
    var s' := HandleCancellation(s, 2, PairSteps, Abort);
    AbortSkips(s);
    SameMap(s'.instances, Stopped().instances);
    SameMap(s'.cancels, Stopped().cancels);
  }

  lemma AbortSkips(s: State)
    requires s == Forked().(cancels := map[2 := Abort], queue := s.queue)
    ensures SkipRows(s, ActiveRows(s, 2)) == s.(rows := Stopped().rows)
  {
    assert ActiveRows(s, 2) == {3, 4};
    SameMap(SkipRows(s, {3, 4}).rows, Stopped().rows);
  }

  /** The drop of row 3 takes item 3 along, which is the first instance's. */
  lemma DropTakesItem(order: seq<string>)
    ensures ExecuteNext(Stopped(), 4, Ok(order)) == Stopped().(queue := map[])
  {
    hide Handle;
    assert Drops(Stopped(), 4);
    SameMap(ExecuteNext(Stopped(), 4, Ok(order)).queue, map[]);
  }

  lemma {:induction false} SevenEvents(s: State, events: seq<Event>)
    requires |events| == 7
    ensures After(s, events) ==
            Step(Step(Step(Step(Step(Step(Step(s, events[0]), events[1]), events[2]), events[3]), events[4]),
                      events[5]), events[6])
  {
    hide Step;
    AfterAppend(s, events[..4], events[4..]);
    FourEvents(s, events[..4]);
    ThreeMore(After(s, events[..4]), events[4..]);
    assert events[..4] + events[4..] == events;
  }

  lemma {:induction false} ThreeMore(s: State, events: seq<Event>)
    requires |events| == 3
    ensures After(s, events) == Step(Step(Step(s, events[0]), events[1]), events[2])
  {
    hide Step, After;
    assert events == [events[0]] + ([events[1]] + [events[2]]);
    AfterAppend(s, [events[0]], [events[1]] + [events[2]]);
    OneEvent(s, events[0]);
    AfterAppend(Step(s, events[0]), [events[1]], [events[2]]);
    OneEvent(Step(s, events[0]), events[1]);
    OneEvent(Step(Step(s, events[0]), events[1]), events[2]);
  }

  lemma {:induction false} FourEvents(s: State, events: seq<Event>)
    requires |events| == 4
    ensures After(s, events) == Step(Step(Step(Step(s, events[0]), events[1]), events[2]), events[3])
  {
    hide Step, After;
    assert events == [events[0]] + events[1..];
    AfterAppend(s, [events[0]], events[1..]);
    OneEvent(s, events[0]);
    ThreeMore(Step(s, events[0]), events[1..]);
  }

  /**
   After this run, whatever the iteration order, the first instance is running and its step
   waits for a retry, but no queue item will ever lead to it, however the run goes on.
   */
  lemma {:induction false} AbortLosesAnothersItem(order: seq<string>, later: seq<Event>)
    ensures var s := After(Initial(Defs), TheRun(order));
            && 1 in s.instances && s.instances[1].status == WorkflowStatus.Running
            && 1 in s.rows && s.rows[1] == Row(1, "a", Task, StepStatus.Failed, 1, 1, 0)
            && NoItems(After(s, later), 1)
  {
    hide Step, After, ExecuteNext, StartWorkflow, RequestCancel, Orderly;
    var events := TheRun(order);
    var s := After(Initial(Defs), events);
    SevenEvents(Initial(Defs), events);
    TheRunStepByStep(order);
    InitialOrderly(Defs);
    RunOrderly(Initial(Defs), events);
    assert s == Stopped().(queue := map[]);
    QuiescenceIsFinal(s, later, 1);
  }

  lemma TheRunStepByStep(order: seq<string>)
    ensures var s1 := Step(Step(Initial(Defs), Start("solo")), Start("pair"));
            var s2 := Step(Step(s1, Execute(1, Failure(order))), Execute(2, Ok(order)));
            var s3 := Step(Step(s2, RequestStop(2, Abort)), Execute(5, Ok(order)));
            Step(s3, Execute(4, Ok(order))) == Stopped().(queue := map[])
  {
    hide ExecuteNext, StartWorkflow, RequestCancel;
    BothStart();
    FirstFails(order);
    SecondForks(order);
    SecondStops(order);
    DropTakesItem(order);
  }
}
