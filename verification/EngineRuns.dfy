/**
 Safety over whole runs of the engine, of any definitions and with any number of workers:
 rolled-back rows stay rolled back, and an instance in the dead-letter state stands still.
 */
module EngineRuns {
  import opened Definitions
  import opened Validator
  import opened JoinStates
  import opened Engine
  import opened EngineFrame

  /** What holds between any two operations. */
  ghost predicate Orderly(s: State) {
    && Issued(s)
    && (forall id :: id in s.rows ==> s.rows[id].status != StepStatus.Running)
    && (forall i :: InDlq(s, i) ==> NoItems(s, i))
  }

  lemma InitialOrderly(defs: map<string, Definition>)
    ensures Orderly(Initial(defs))
  {
  }

  lemma ExecuteNextOrderly(s: State, q: nat, c: Choice)
    requires Orderly(s)
    ensures Orderly(ExecuteNext(s, q, c))
  {
    hide Advances, ExecuteNext;
    var s', i := ExecuteNext(s, q, c), Worked(s, q);
    ExecuteNextKeeps(s, q, c);
    Outcome(s, s', i);
    forall k | InDlq(s', k)
      ensures NoItems(s', k)
    {
      if k != i {
        OthersStay(s, s', i, k);
      } else if InDlq(s, i) {
        FrozenInstanceRefuses(s, q, c);
      }
    }
  }

  lemma FrozenInstanceRefuses(s: State, q: nat, c: Choice)
    requires Orderly(s) && InDlq(s, Worked(s, q))
    ensures NoItems(ExecuteNext(s, q, c), Worked(s, q))
  {
    hide Handle;
    assert NoItems(s, Worked(s, q));
  }

  /** What an ExecuteNext keeps, also when it puts its instance into the dead-letter state. */
  ghost predicate Result(s: State, s': State, i: nat) {
    && Issued(s') && RowsAdvance(s, s', i) && QueueAdvances(s, s', i) && LogAdvances(s, s', i) && RunningShrinks(s, s')
    && s'.defs == s.defs && s'.instances.Keys == s.instances.Keys
    && (forall k :: k in s.instances ==> s'.instances[k].workflow == s.instances[k].workflow)
    && (forall k :: k in s.instances && k != i ==> s'.instances[k] == s.instances[k])
    && (InDlq(s', i) && !InDlq(s, i) ==> NoItems(s', i))
    && (forall k :: k in s'.cancels ==> k in s.cancels)
    && (forall key: Key :: key.0 != i ==>
           (key in s'.joins <==> key in s.joins) && (key in s.joins ==> s'.joins[key] == s.joins[key]))
  }

  lemma Outcome(s: State, s': State, i: nat)
    requires Performed(s, s', i)
    ensures Result(s, s', i)
  {
    hide Result, Keeps;
    if Keeps(s, s', i) {
      KeptResult(s, s', i);
    } else if Froze(s, s', i) {
      var s1 :| Keeps(s, s1, i) && NoItems(s1, i) && s' == SetInstance(s1, i, Dlq);
      FrozeResult(s, s1, i);
    } else {
      var s1, x :| Keeps(s, s1, i) && s' == RemoveItem(s1, x);
      RemovedResult(s, s1, i, x);
    }
  }

  lemma KeptResult(s: State, s': State, i: nat)
    requires Keeps(s, s', i)
    ensures Result(s, s', i)
  {
    hide RowsAdvance, QueueAdvances, LogAdvances, Issued, RunningShrinks, NoItems, OthersQueued;
  }

  lemma FrozeResult(s: State, s1: State, i: nat)
    requires Keeps(s, s1, i) && NoItems(s1, i)
    ensures Result(s, SetInstance(s1, i, Dlq), i)
  {
    hide RowsAdvance, QueueAdvances, LogAdvances, Issued, RunningShrinks, NoItems, OthersQueued;
    SetInstanceOutcome(s, s1, i);
  }

  lemma RemovedResult(s: State, s1: State, i: nat, x: nat)
    requires Keeps(s, s1, i)
    ensures Result(s, RemoveItem(s1, x), i)
  {
    hide RowsAdvance, QueueAdvances, LogAdvances, Issued, RunningShrinks, NoItems, OthersQueued;
    RemoveItemOutcome(s, s1, i, x);
  }

  lemma SameRows(s: State, s1: State, s': State, i: nat)
    requires RowsAdvance(s, s1, i) && RunningShrinks(s, s1) && s'.rows == s1.rows && s'.nextRow == s1.nextRow
    ensures RowsAdvance(s, s', i) && RunningShrinks(s, s')
  {
  }

  lemma SameLog(s: State, s1: State, s': State, i: nat)
    requires LogAdvances(s, s1, i) && s'.log == s1.log
    ensures LogAdvances(s, s', i)
  {
  }

  lemma FewerItems(s: State, s1: State, s': State, i: nat)
    requires QueueAdvances(s, s1, i) && s'.nextItem == s1.nextItem
    requires forall q :: q in s'.queue ==> q in s1.queue && s'.queue[q] == s1.queue[q]
    ensures QueueAdvances(s, s', i)
    ensures NoItems(s1, i) ==> NoItems(s', i)
  {
  }

  lemma RemoveItemIssued(s: State, x: nat)
    requires Issued(s)
    ensures Issued(RemoveItem(s, x))
  {
  }

  lemma RemoveItemOutcome(s: State, s1: State, i: nat, x: nat)
    requires Issued(s1) && RowsAdvance(s, s1, i) && QueueAdvances(s, s1, i) && LogAdvances(s, s1, i)
    requires RunningShrinks(s, s1)
    ensures var s' := RemoveItem(s1, x);
            Issued(s') && RowsAdvance(s, s', i) && QueueAdvances(s, s', i) && LogAdvances(s, s', i)
            && RunningShrinks(s, s')
  {
    hide RowsAdvance, QueueAdvances, LogAdvances, Issued, RunningShrinks;
    var s' := RemoveItem(s1, x);
    SameRows(s, s1, s', i);
    SameLog(s, s1, s', i);
    FewerItems(s, s1, s', i);
    RemoveItemIssued(s1, x);
  }

  lemma SetInstanceOutcome(s: State, s1: State, i: nat)
    requires Issued(s1) && RowsAdvance(s, s1, i) && QueueAdvances(s, s1, i) && LogAdvances(s, s1, i)
    requires RunningShrinks(s, s1)
    ensures var s' := SetInstance(s1, i, Dlq);
            Issued(s') && RowsAdvance(s, s', i) && QueueAdvances(s, s', i) && LogAdvances(s, s', i)
            && RunningShrinks(s, s')
    ensures NoItems(s1, i) ==> NoItems(SetInstance(s1, i, Dlq), i)
  {
    hide RowsAdvance, QueueAdvances, LogAdvances, Issued, RunningShrinks, NoItems;
    var s' := SetInstance(s1, i, Dlq);
    SameRows(s, s1, s', i);
    SameLog(s, s1, s', i);
    FewerItems(s, s1, s', i);
    SetInstanceIssued(s1, i, Dlq);
  }

  /** Another instance's rows and queue: nothing is added or changed. */
  lemma OthersStay(s: State, s': State, i: nat, k: nat)
    requires Issued(s) && RowsAdvance(s, s', i) && QueueAdvances(s, s', i) && k != i
    ensures NoItems(s, k) ==> NoItems(s', k)
    ensures forall id :: IsRowOf(s, k, id) ==> IsRowOf(s', k, id) && s'.rows[id] == s.rows[id]
    ensures forall id :: IsRowOf(s', k, id) ==> IsRowOf(s, k, id)
  {
  }

  lemma StartOrderly(s: State, workflow: string)
    requires Orderly(s)
    ensures Orderly(StartWorkflow(s, workflow))
  {
    hide Advances, EnqueueNext, WellFormed;
    if workflow in s.defs && s.defs[workflow].start in s.defs[workflow].steps && WellFormed(s.defs[workflow]) {
      var s1 := NewInstance(s, workflow);
      NewInstanceOrderly(s, workflow);
      var s2 := EnqueueNext(s1, s.nextInstance, s.defs[workflow].steps, [s.defs[workflow].start], false).0;
      EnqueueNextKeeps(s1, s.nextInstance, s.defs[workflow].steps, [s.defs[workflow].start], false);
      KeptOrderly(s1, s2, s.nextInstance);
    }
  }

  function NewInstance(s: State, workflow: string): State {
    s.(instances := s.instances[s.nextInstance := Instance(workflow, WorkflowStatus.Running)],
       nextInstance := s.nextInstance + 1)
  }

  lemma NewInstanceOrderly(s: State, workflow: string)
    requires Orderly(s)
    ensures Orderly(NewInstance(s, workflow)) && !InDlq(NewInstance(s, workflow), s.nextInstance)
  {
    var s1 := NewInstance(s, workflow);
    forall i | InDlq(s1, i)
      ensures NoItems(s1, i)
    {
      assert InDlq(s, i);
      assert NoItems(s, i);
    }
  }

  lemma KeptOrderly(s: State, s': State, i: nat)
    requires Orderly(s) && Keeps(s, s', i) && !InDlq(s, i)
    ensures Orderly(s')
  {
    Outcome(s, s', i);
    forall k | InDlq(s', k)
      ensures NoItems(s', k)
    {
      assert k != i;
      OthersStay(s, s', i, k);
      assert InDlq(s, k);
    }
  }

  lemma RequeueFacts(s: State, dead: nat)
    requires Issued(s)
    ensures var s' := Requeue(s, dead);
            && s'.rows.Keys == s.rows.Keys
            && (forall id :: id in s.rows ==> SameIdentity(s.rows[id], s'.rows[id]))
            && (forall id :: id in s.rows ==> s'.rows[id].status in {s.rows[id].status, Pending})
            && (forall id :: id in s.rows && dead in s.dead && s.dead[dead].instance != s.rows[id].instance ==>
                   s'.rows[id] == s.rows[id])
            && (dead !in s.dead ==> s' == s)
  {
    if dead in s.dead {
      var letter := s.dead[dead];
      var rows := s.rows[letter.row := s.rows[letter.row].(status := Pending, retry := 0, comp := 0)];
      AwakenedFacts(rows, letter.instance);
      assert Requeue(s, dead).rows == Awakened(rows, letter.instance);
      hide Awakened;
    }
  }

  lemma AwakenedFacts(rows: map<nat, Row>, i: nat)
    ensures Awakened(rows, i).Keys == rows.Keys
    ensures forall id :: id in rows ==> Awakened(rows, i)[id] in {rows[id], rows[id].(status := Pending)}
    ensures forall id :: id in rows && rows[id].instance != i ==> Awakened(rows, i)[id] == rows[id]
  {
  }

  lemma RequeueRest(s: State, dead: nat)
    ensures var s' := Requeue(s, dead);
            && s'.queue == s.queue && s'.joins == s.joins && s'.log == s.log && s'.defs == s.defs
            && s'.nextRow == s.nextRow && s'.nextItem == s.nextItem
            && s'.nextInstance == s.nextInstance && s'.nextDead == s.nextDead
            && s'.dead.Keys <= s.dead.Keys && (forall k :: k in s'.dead ==> s'.dead[k] == s.dead[k])
  {
  }

  lemma RequeueInstances(s: State, dead: nat)
    ensures var s' := Requeue(s, dead);
            && s'.instances.Keys == s.instances.Keys
            && (forall k :: k in s.instances ==> s'.instances[k].workflow == s.instances[k].workflow)
            && (forall k :: InDlq(s', k) ==> InDlq(s, k))
            && (forall k :: k in s.instances && dead in s.dead && s.dead[dead].instance != k ==>
                   k in s'.instances && s'.instances[k] == s.instances[k])
  {
    hide Awakened;
  }

  lemma RequeueIssued(s: State, dead: nat)
    requires Issued(s)
    ensures Issued(Requeue(s, dead))
  {
    hide Requeue;
    RequeueFacts(s, dead);
    RequeueRest(s, dead);
    RequeueInstances(s, dead);
  }

  lemma RequeueOrderly(s: State, dead: nat)
    requires Orderly(s)
    ensures Orderly(Requeue(s, dead))
  {
    hide Requeue, Issued;
    RequeueIssued(s, dead);
    RequeueFacts(s, dead);
    RequeueRest(s, dead);
    RequeueInstances(s, dead);
    forall k | InDlq(Requeue(s, dead), k)
      ensures NoItems(Requeue(s, dead), k)
    {
      assert InDlq(s, k) && NoItems(s, k);
    }
  }

  lemma StepOrderly(s: State, e: Event)
    requires Orderly(s)
    ensures Orderly(Step(s, e))
  {
    hide Orderly, ExecuteNext, StartWorkflow, Requeue, RequestCancel;
    match e
    case Start(workflow) => StartOrderly(s, workflow);
    case Execute(q, c) => ExecuteNextOrderly(s, q, c);
    case RequestStop(i, kind) => RequestOrderly(s, i, kind);
    case RequeueLetter(dead) => RequeueOrderly(s, dead);
  }

  lemma RequestOrderly(s: State, i: nat, kind: CancelKind)
    requires Orderly(s)
    ensures Orderly(RequestCancel(s, i, kind))
  {
    assert forall k :: InDlq(RequestCancel(s, i, kind), k) <==> InDlq(s, k);
    assert forall k :: InDlq(s, k) ==> NoItems(s, k);
  }

  lemma {:induction false} RunOrderly(s: State, events: seq<Event>)
    requires Orderly(s)
    ensures Orderly(After(s, events))
    decreases events
  {
    hide Orderly, Step;
    if events != [] {
      StepOrderly(s, events[0]);
      RunOrderly(Step(s, events[0]), events[1..]);
    }
  }

  // ---- Runs put together ----

  lemma {:induction false} AfterAppend(s: State, xs: seq<Event>, ys: seq<Event>)
    ensures After(s, xs + ys) == After(After(s, xs), ys)
    decreases xs
  {
    hide Step;
    if xs == [] {
      assert xs + ys == ys;
    } else {
      assert (xs + ys)[0] == xs[0] && (xs + ys)[1..] == xs[1..] + ys;
      AfterAppend(Step(s, xs[0]), xs[1..], ys);
    }
  }

  lemma {:induction false} OneEvent(s: State, e: Event)
    ensures After(s, [e]) == Step(s, e)
  {
    hide Step;
    var one := [e];
    assert one[1..] == [];
    assert After(s, one) == After(Step(s, e), []);
  }

  // ---- Rolled-back rows ----

  ghost predicate NoRequeue(events: seq<Event>) {
    forall e :: e in events ==> !e.RequeueLetter?
  }

  /** The row is there, unchanged, and the log has not mentioned it again. */
  ghost predicate LeftAlone(s: State, s': State, id: nat) {
    && id in s.rows && id in s'.rows && s'.rows[id] == s.rows[id]
    && s.log <= s'.log && forall k :: |s.log| <= k < |s'.log| ==> s'.log[k].row != id
  }

  lemma LeftAloneTransitive(s: State, s1: State, s2: State, id: nat)
    requires LeftAlone(s, s1, id) && LeftAlone(s1, s2, id)
    ensures LeftAlone(s, s2, id)
  {
    forall k | |s.log| <= k < |s2.log|
      ensures s2.log[k].row != id
    {
      if k < |s1.log| {
        assert s2.log[k] == s1.log[k];
      }
    }
  }

  lemma StepLeavesAlone(s: State, e: Event, id: nat)
    requires Issued(s) && id in s.rows && Dropped(s.rows[id].status) && !e.RequeueLetter?
    ensures LeftAlone(s, Step(s, e), id)
  {
    hide ExecuteNext, EnqueueNext, WellFormed, Issued;
    match e
    case Execute(q, c) =>
      ExecuteNextKeeps(s, q, c);
      Outcome(s, ExecuteNext(s, q, c), Worked(s, q));
    case Start(workflow) =>
      var s1 := NewInstance(s, workflow);
      if workflow in s.defs && s.defs[workflow].start in s.defs[workflow].steps && WellFormed(s.defs[workflow]) {
        assert Issued(s1) by { NewInstanceIssued(s, workflow); }
        EnqueueNextKeeps(s1, s.nextInstance, s.defs[workflow].steps, [s.defs[workflow].start], false);
        Outcome(s1, EnqueueNext(s1, s.nextInstance, s.defs[workflow].steps, [s.defs[workflow].start], false).0,
                s.nextInstance);
      }
    case RequestStop(_, _) =>
  }

  lemma NewInstanceIssued(s: State, workflow: string)
    requires Issued(s)
    ensures Issued(NewInstance(s, workflow))
  {
  }

  /**
   Skipped, paused and rolled-back rows are final in every run without a requeue: no retry,
   cancellation, sibling failure or late completion changes them or runs their handlers.
   */
  lemma {:induction false} DroppedRowsAreFinal(s: State, events: seq<Event>, id: nat)
    requires Orderly(s) && NoRequeue(events)
    requires id in s.rows && Dropped(s.rows[id].status)
    ensures LeftAlone(s, After(s, events), id)
    decreases events
  {
    hide Orderly, Step, LeftAlone;
    if events == [] {
      assert LeftAlone(s, s, id) by { AloneAtFirst(s, id); }
    } else {
      var s1 := Step(s, events[0]);
      OrderlyIsIssued(s);
      StepLeavesAlone(s, events[0], id);
      StepOrderly(s, events[0]);
      SameRow(s, s1, id);
      DroppedRowsAreFinal(s1, events[1..], id);
      LeftAloneTransitive(s, s1, After(s1, events[1..]), id);
    }
  }

  lemma AloneAtFirst(s: State, id: nat)
    requires id in s.rows
    ensures LeftAlone(s, s, id)
  {
  }

  lemma OrderlyIsIssued(s: State)
    requires Orderly(s)
    ensures Issued(s)
  {
  }

  lemma SameRow(s: State, s': State, id: nat)
    requires LeftAlone(s, s', id)
    ensures id in s.rows && id in s'.rows && s'.rows[id] == s.rows[id]
  {
  }

  /** The same from the start of the engine: whatever has become rolled back stays so. */
  lemma {:induction false} RolledBackIsAbsorbing(defs: map<string, Definition>, before: seq<Event>, later: seq<Event>,
        id: nat)
    requires NoRequeue(later)
    requires id in After(Initial(defs), before).rows && After(Initial(defs), before).rows[id].status == RolledBack
    ensures var s, s' := After(Initial(defs), before), After(After(Initial(defs), before), later);
            && id in s'.rows && s'.rows[id] == s.rows[id]
            && s.log <= s'.log && forall k :: |s.log| <= k < |s'.log| ==> s'.log[k].row != id
  {
    hide Orderly, After, Initial;
    InitialOrderly(defs);
    RunOrderly(Initial(defs), before);
    DroppedRowsAreFinal(After(Initial(defs), before), later, id);
  }

  // ---- The dead-letter state ----

  /** No requeue of one of the instance's letters. */
  ghost predicate NoRequeueFor(s: State, e: Event, i: nat) {
    e.RequeueLetter? && e.dead in s.dead ==> s.dead[e.dead].instance != i
  }

  ghost predicate NeverRequeued(s: State, events: seq<Event>, i: nat)
    decreases events
  {
    events == [] || (NoRequeueFor(s, events[0], i) && NeverRequeued(Step(s, events[0]), events[1..], i))
  }

  /** The instance stands still: its rows are the same ones, unchanged. */
  ghost predicate StandsStill(s: State, s': State, i: nat) {
    && InDlq(s, i) && InDlq(s', i)
    && (forall id :: IsRowOf(s, i, id) ==> IsRowOf(s', i, id) && s'.rows[id] == s.rows[id])
    && (forall id :: IsRowOf(s', i, id) ==> IsRowOf(s, i, id))
  }

  lemma StepStandsStill(s: State, e: Event, i: nat)
    requires Orderly(s) && InDlq(s, i) && NoRequeueFor(s, e, i)
    ensures StandsStill(s, Step(s, e), i)
  {
    hide ExecuteNext, StartWorkflow, Requeue, NoItems, Issued;
    match e
    case Execute(q, c) =>
      var s' := ExecuteNext(s, q, c);
      if Worked(s, q) == i && q in s.queue {
        assert NoItems(s, i);
        assert false by { NoneForIt(s, i, q); }
      }
      ExecuteNextKeeps(s, q, c);
      Outcome(s, s', Worked(s, q));
      if q in s.queue {
        OthersStay(s, s', Worked(s, q), i);
      } else {
        assert s' == s by { NothingPicked(s, q, c); }
      }
    case Start(workflow) => StartStandsStill(s, workflow, i);
    case RequestStop(_, _) =>
    case RequeueLetter(dead) => RequeueStandsStill(s, dead, i);
  }

  lemma NoneForIt(s: State, i: nat, q: nat)
    requires NoItems(s, i) && q in s.queue
    ensures s.queue[q].instance != i
  {
  }

  lemma NothingPicked(s: State, q: nat, c: Choice)
    requires q !in s.queue
    ensures ExecuteNext(s, q, c) == s
  {
  }

  lemma StartStandsStill(s: State, workflow: string, i: nat)
    requires Orderly(s) && InDlq(s, i)
    ensures StandsStill(s, StartWorkflow(s, workflow), i)
  {
    hide EnqueueNext, WellFormed, NoItems;
    if workflow in s.defs && s.defs[workflow].start in s.defs[workflow].steps && WellFormed(s.defs[workflow]) {
      var s1 := NewInstance(s, workflow);
      NewInstanceIssued(s, workflow);
      EnqueueNextKeeps(s1, s.nextInstance, s.defs[workflow].steps, [s.defs[workflow].start], false);
      var s2 := EnqueueNext(s1, s.nextInstance, s.defs[workflow].steps, [s.defs[workflow].start], false).0;
      Outcome(s1, s2, s.nextInstance);
      OthersStay(s1, s2, s.nextInstance, i);
      assert StartWorkflow(s, workflow) == s2;
    }
  }

  lemma RequeueStandsStill(s: State, dead: nat, i: nat)
    requires Orderly(s) && InDlq(s, i) && (dead in s.dead ==> s.dead[dead].instance != i)
    ensures StandsStill(s, Requeue(s, dead), i)
  {
    hide NoItems, Requeue;
    RequeueFacts(s, dead);
    RequeueRest(s, dead);
    RequeueInstances(s, dead);
  }

  /**
   While an instance is in the dead-letter state and none of its letters is requeued, its
   queue stays empty, no step of it runs, and no row of it comes, goes or changes.
   */
  lemma {:induction false} DlqFreezes(s: State, events: seq<Event>, i: nat)
    requires Orderly(s) && InDlq(s, i) && NeverRequeued(s, events, i)
    ensures var s' := After(s, events);
            && StandsStill(s, s', i) && NoItems(s', i)
            && forall id :: IsRowOf(s', i, id) ==> s'.rows[id].status != StepStatus.Running
    decreases events
  {
    if events == [] {
      assert NoItems(s, i);
    } else {
      hide Step, NoItems, Issued;
      StepStandsStill(s, events[0], i);
      StepOrderly(s, events[0]);
      DlqFreezes(Step(s, events[0]), events[1..], i);
    }
  }

  lemma {:induction false} DlqFreezesFromStart(defs: map<string, Definition>, before: seq<Event>, later: seq<Event>,
        i: nat)
    requires var s := After(Initial(defs), before); InDlq(s, i) && NeverRequeued(s, later, i)
    ensures var s, s' := After(Initial(defs), before), After(After(Initial(defs), before), later);
            && StandsStill(s, s', i) && NoItems(s', i)
            && forall id :: IsRowOf(s', i, id) ==> s'.rows[id].status != StepStatus.Running
  {
    hide Orderly, After, Initial;
    InitialOrderly(defs);
    RunOrderly(Initial(defs), before);
    DlqFreezes(After(Initial(defs), before), later, i);
  }

  // ---- Quiescence ----

  lemma StepStaysQuiet(s: State, e: Event, i: nat)
    requires Orderly(s) && i in s.instances && NoItems(s, i)
    ensures NoItems(Step(s, e), i) && i in Step(s, e).instances
  {
    hide ExecuteNext, StartWorkflow, Requeue, Performed;
    match e
    case Execute(q, c) =>
      if q !in s.queue {
        NothingPicked(s, q, c);
      } else {
        ExecuteNextKeeps(s, q, c);
        Outcome(s, ExecuteNext(s, q, c), Worked(s, q));
        OthersStay(s, ExecuteNext(s, q, c), Worked(s, q), i);
      }
    case Start(workflow) => StartStaysQuiet(s, workflow, i);
    case RequestStop(_, _) =>
    case RequeueLetter(dead) =>
      RequeueRest(s, dead);
      RequeueInstances(s, dead);
  }

  lemma StartStaysQuiet(s: State, workflow: string, i: nat)
    requires Orderly(s) && i in s.instances && NoItems(s, i)
    ensures NoItems(StartWorkflow(s, workflow), i) && i in StartWorkflow(s, workflow).instances
  {
    hide EnqueueNext, WellFormed;
    if workflow in s.defs && s.defs[workflow].start in s.defs[workflow].steps && WellFormed(s.defs[workflow]) {
      var s1 := NewInstance(s, workflow);
      NewInstanceIssued(s, workflow);
      var s2 := EnqueueNext(s1, s.nextInstance, s.defs[workflow].steps, [s.defs[workflow].start], false).0;
      EnqueueNextKeeps(s1, s.nextInstance, s.defs[workflow].steps, [s.defs[workflow].start], false);
      Outcome(s1, s2, s.nextInstance);
      assert NoItems(s1, i);
      OthersStay(s1, s2, s.nextInstance, i);
    }
  }

  /** An instance that has no queue item never gets one again, whatever happens in the engine. */
  lemma {:induction false} QuiescenceIsFinal(s: State, events: seq<Event>, i: nat)
    requires Orderly(s) && i in s.instances && NoItems(s, i)
    ensures NoItems(After(s, events), i)
    decreases events
  {
    hide Orderly, Step, NoItems;
    if events != [] {
      StepStaysQuiet(s, events[0], i);
      StepOrderly(s, events[0]);
      QuiescenceIsFinal(Step(s, events[0]), events[1..], i);
    }
  }

  /**
   Requeueing a dead letter of a frozen instance sets the instance running again and its row
   pending, but no queue item of the instance ever leads to that row.
   */
  lemma {:induction false} RequeueResumesNothing(s: State, dead: nat, events: seq<Event>)
    requires Orderly(s) && dead in s.dead && InDlq(s, s.dead[dead].instance)
    ensures var i, row := s.dead[dead].instance, s.dead[dead].row;
            var s1 := Requeue(s, dead);
            && i in s1.instances && s1.instances[i].status == WorkflowStatus.Running
            && row in s1.rows && s1.rows[row].status == Pending
            && NoItems(After(s1, events), i)
  {
    hide After;
    var i := s.dead[dead].instance;
    assert NoItems(s, i);
    RequeueOrderly(s, dead);
    RequeueRest(s, dead);
    assert NoItems(Requeue(s, dead), i);
    QuiescenceIsFinal(Requeue(s, dead), events, i);
  }
}
