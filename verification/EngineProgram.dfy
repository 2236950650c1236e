/**
 The engine's operations as the source runs them on a store. Each method leaves the store in
 the state that its function in module Engine describes.
 */
module EngineProgram {
  import opened Definitions
  import opened Graphs
  import opened Validator
  import opened Searches
  import opened Rollback
  import opened JoinStates
  import opened Engine
  import opened EngineMachine
  import opened EngineLookups

  class SagaEngine {
    const store: MemoryStore

    constructor (store: MemoryStore)
      ensures this.store == store
    {
      this.store := store;
    }

    // ---- Joins ----

    method CreateJoinStep(i: nat, join: string)
      modifies store
      ensures store.View() == CreateJoinRow(old(store.View()), i, join)
    {
      var frozen := i in store.instances && store.instances[i].status == Dlq;
      var id := store.CreateStep(Row(i, join, Join, if frozen then Paused else Pending, 0, 0, 0));
      if !frozen {
        store.EnqueueStep(i, id);
      }
    }

    /** notifyJoinStepsForStep, and the body of the loop in notifyJoinSteps. */
    method NotifyJoin(i: nat, steps: Steps, order: seq<string>, join: string, name: string,
          success: bool) returns (ok: bool)
      requires join in steps
      modifies store
      ensures (store.View(), ok) == NotifyOne(old(store.View()), i, steps, order, join, name, success)
    {
      hide BranchesPending, HasRow, CreateJoinRow, Update;
      var ready := store.UpdateJoinState(i, join, name, success);
      if ready.None? {
        return false;
      }
      if ready.value {
        var pending := HasPendingStepsInParallelBranches(store, i, steps, order, steps[join].waitFor);
        if pending {
          var _ := store.UpdateJoinState(i, join, name, success);
          return true;
        }
        var created := store.AnyNamed(i, join);
        if !created {
          CreateJoinStep(i, join);
        }
      }
      ok := true;
    }

    method IsWaitingFor(i: nat, steps: Steps, join: string, name: string) returns (waits: bool)
      ensures waits == Waits(store.View(), i, steps, join, name)
    {
      if join !in steps || steps[join].kind != Join {
        return false;
      }
      if (i, join) in store.joinStates && name in store.joinStates[(i, join)].waitingFor {
        return true;
      }
      waits := name in steps[join].waitFor;
    }

    method NotifyJoinSteps(i: nat, steps: Steps, order: seq<string>, name: string, success: bool) returns (ok: bool)
      modifies store
      ensures (store.View(), ok) == Notify(old(store.View()), i, steps, order, order, name, success)
    {
      hide NotifyOne, Waits;
      ghost var before := store.View();
      assert order[0..] == order;
      for k := 0 to |order|
        invariant Notify(before, i, steps, order, order, name, success) ==
                  Notify(store.View(), i, steps, order, order[k..], name, success)
      {
        assert order[k..][0] == order[k] && order[k..][1..] == order[k + 1..];
        var waits := IsWaitingFor(i, steps, order[k], name);
        if waits {
          assert order[k] in steps by { WaitsInSteps(store.View(), i, steps, order[k], name); }
          ok := NotifyJoin(i, steps, order, order[k], name, success);
          if !ok {
            return;
          }
        }
      }
      ok := true;
    }

    method TakeJoinPlaceholder(i: nat, steps: Steps, order: seq<string>, condition: string, name: string,
          success: bool)
      modifies store
      ensures store.View() == TakePlaceholder(old(store.View()), i, steps, order, condition, name, success)
    {
      hide NotifyOne;
      var join := FindJoinStepForForkBranch(steps, order, name);
      if join == "" {
        return;
      }
      store.ReplaceInJoinWaitFor(i, join, VirtualName(condition), name);
      var ok := NotifyJoin(i, steps, order, join, name, success);
    }

    method AddTerminalToJoin(i: nat, steps: Steps, order: seq<string>, name: string)
      modifies store
      ensures store.View() == AddTerminal(old(store.View()), i, steps, order, name)
    {
      var join := FindJoinStepForForkBranch(steps, order, name);
      if join == "" {
        return;
      }
      if (i, join) !in store.joinStates {
        store.CreateJoinState(i, join, [name], steps[join].strategy);
        return;
      }
      var state := store.joinStates[(i, join)];
      if name in state.waitingFor {
        return;
      }
      for k := 0 to |state.waitingFor|
        invariant store.View() == old(store.View())
        invariant forall j :: 0 <= j < k ==> !IsVirtual(state.waitingFor[j])
      {
        if IsVirtual(state.waitingFor[k]) {
          return;
        }
      }
      store.AddToJoinWaitFor(i, join, name);
    }

    method PrepareJoinStates(i: nat, steps: Steps, order: seq<string>, name: string, success: bool)
      requires name in steps
      modifies store
      ensures store.View() == PrepareJoins(old(store.View()), i, steps, order, name, success)
    {
      hide TakePlaceholder, AddTerminal, TerminalInFork, ConditionAbove;
      var condition := FindConditionStepInBranch(steps, steps[name]);
      if condition != "" {
        TakeJoinPlaceholder(i, steps, order, condition, name, success);
      } else if success {
        var terminal := IsTerminalStepInForkBranch(steps, order, name);
        if terminal {
          AddTerminalToJoin(i, steps, order, name);
        }
      }
    }

    method TellJoins(i: nat, steps: Steps, order: seq<string>, name: string, success: bool) returns (ok: bool)
      requires name in steps
      modifies store
      ensures (store.View(), ok) == Tell(old(store.View()), i, steps, order, name, success)
    {
      hide PrepareJoins, Notify;
      PrepareJoinStates(i, steps, order, name, success);
      ok := NotifyJoinSteps(i, steps, order, name, success);
    }

    // ---- Rollback ----

    method RollbackStep(i: nat, steps: Steps, id: nat, row: Row)
      requires row.name in steps
      modifies store
      ensures store.View() == RollbackRow(old(store.View()), i, steps, id, row)
    {
      var onFailure := steps[row.name].onFailure;
      if onFailure !in steps {
        store.UpdateStep(id, RolledBack);
      } else if row.comp >= steps[onFailure].maxRetries {
        store.UpdateStep(id, StepStatus.Failed);
        store.CreateDeadLetterRecord(i, id);
      } else {
        store.UpdateStepCompensationRetry(id, row.comp + 1);
        store.EnqueueStep(i, id);
      }
    }

    /** Roll back the rows that a traversal has named, in its order. */
    method RollbackSteps(i: nat, steps: Steps, ghost before: State, rows: map<string, nat>, read: map<nat, Row>,
          calls: seq<string>)
      requires rows == StepMap(before, i, before.nextRow) && read == before.rows
      modifies store
      ensures store.View() == RollbackRows(old(store.View()), i, steps, before, calls)
    {
      hide RollbackRow, StepMap;
      assert calls[0..] == calls;
      for k := 0 to |calls|
        invariant RollbackRows(old(store.View()), i, steps, before, calls) ==
                  RollbackRows(store.View(), i, steps, before, calls[k..])
      {
        assert calls[k..][0] == calls[k] && calls[k..][1..] == calls[k + 1..];
        if calls[k] in rows && calls[k] in steps {
          RollbackStep(i, steps, rows[calls[k]], read[rows[calls[k]]]);
        }
      }
    }

    method ReadStatuses(i: nat, rows: map<string, nat>) returns (statuses: map<string, StepStatus>)
      requires rows == StepMap(store.View(), i, store.nextStepID)
      ensures statuses == Statuses(store.View(), i)
    {
      statuses := map n | n in rows && rows[n] in store.steps :: store.steps[rows[n]].status;
      SameMap(statuses, Statuses(store.View(), i));
    }

    /** The traversal reads the rows once; the rows it names are then rolled back in its order. */
    method RollbackStepChain(i: nat, steps: Steps, name: string, target: string) returns (ok: bool)
      modifies store
      ensures (store.View(), ok) == RollbackFrom(old(store.View()), i, steps, name, target)
    {
      hide RollbackRow, StepMap, Statuses, RollbackRows;
      ghost var before := store.View();
      var rows := store.CollectSteps(i);
      var read := store.steps;
      var statuses := ReadStatuses(i, rows);
      var traversal := new Traversal(Scene(steps, statuses, target));
      ok := traversal.RollbackChain(name, false);
      ghost var walk := Scene(steps, Statuses(before, i), target).Chain(name, false, {});
      assert traversal.calls == walk.calls by { assert [] + walk.calls == walk.calls; }
      RollbackSteps(i, steps, before, rows, read, traversal.calls);
    }

    method EnqueueCompletedStepsForRollback(i: nat, steps: Steps, after: Option<nat>)
      modifies store
      ensures store.View() == CompensateCompleted(old(store.View()), i, steps, after, old(store.nextStepID))
    {
      ghost var before := store.View();
      var bound := store.nextStepID;
      for id := bound downto 0
        invariant CompensateCompleted(before, i, steps, after, bound) ==
                  CompensateCompleted(store.View(), i, steps, after, id)
      {
        if id in store.steps && store.steps[id].instance == i && store.steps[id].status == StepStatus.Completed
           && (after.None? || after.value < id) {
          var name := store.steps[id].name;
          if name in steps && steps[name].onFailure != "" {
            store.UpdateStepCompensationRetry(id, 0);
            store.EnqueueStep(i, id);
          } else {
            store.UpdateStep(id, RolledBack);
          }
        }
      }
    }

    method CompleteInstance(i: nat, steps: Steps)
      modifies store
      ensures store.View() == CompleteWorkflow(old(store.View()), i, steps)
    {
      hide CompensateCompleted, HasStatus;
      var broken := store.AnyWithStatus(i, {StepStatus.Failed, RolledBack});
      if !broken {
        store.UpdateInstanceStatus(i, WorkflowStatus.Completed);
        return;
      }
      var savePoint := store.FindLastSavePoint(i);
      EnqueueCompletedStepsForRollback(i, steps, savePoint);
      var compensating := store.AnyWithStatus(i, {Compensation});
      if !compensating {
        store.UpdateInstanceStatus(i, WorkflowStatus.Failed);
      }
    }

    // ---- Success and failure ----

    method EnqueueNextSteps(i: nat, steps: Steps, names: seq<string>, skipJoins: bool)
      modifies store
      ensures store.View() == EnqueueNext(old(store.View()), i, steps, names, skipJoins).0
    {
      ghost var before := store.View();
      assert names[0..] == names;
      for k := 0 to |names|
        invariant EnqueueNext(before, i, steps, names, skipJoins).0 ==
                  EnqueueNext(store.View(), i, steps, names[k..], skipJoins).0
      {
        assert names[k..][0] == names[k] && names[k..][1..] == names[k + 1..];
        if names[k] !in steps {
          return;
        }
        var d := steps[names[k]];
        if skipJoins && d.kind == Join {
          continue;
        }
        if i in store.instances && store.instances[i].status == Dlq {
          continue;
        }
        var id := store.CreateStep(Row(i, names[k], d.kind, Pending, 0, d.maxRetries, 0));
        store.EnqueueStep(i, id);
      }
    }

    method HandleStepSuccess(i: nat, steps: Steps, id: nat, name: string, order: seq<string>, next: bool)
      requires name in steps
      modifies store
      ensures store.View() == HandleSuccess(old(store.View()), i, steps, id, name, order, next)
    {
      hide Tell, CompleteWorkflow, EnqueueNext, HasStatus;
      var d := steps[name];
      store.UpdateStep(id, StepStatus.Completed);
      store.LogEvent(Ended(id, true));
      var ok := TellJoins(i, steps, order, name, true);
      if !ok {
        return;
      }
      if (next && d.next == []) || (!next && d.els == "") {
        var unfinished := store.AnyWithStatus(i, {Pending, StepStatus.Running, Paused});
        if !unfinished {
          CompleteInstance(i, steps);
        }
      } else if next {
        EnqueueNextSteps(i, steps, d.next, true);
      } else {
        EnqueueNextSteps(i, steps, [d.els], false);
      }
    }

    method StopParallelBranchesInFork(i: nat, steps: Steps, order: seq<string>, name: string)
      modifies store
      ensures store.View() == SkipRows(old(store.View()), Siblings(old(store.View()), i, steps, order, name))
    {
      var fork := FindForkStepForParallelStep(steps, order, name);
      if fork == "" {
        SameMap(SkipRows(store.View(), {}).rows, store.steps);
        return;
      }
      var ids := CollectActiveInBranches(store, i, steps, fork, [name]);
      assert ids == Siblings(store.View(), i, steps, order, name);
      store.SkipSteps(ids);
    }

    method RollbackToSavePointOrRoot(i: nat, steps: Steps, name: string, strays: Strays)
      modifies store
      ensures store.View() == RollbackFrom(old(store.View()), i, steps, name, NearestSavePoint(steps, name, strays)).0
    {
      hide RollbackFrom;
      var target := FindNearestSavePoint(steps, name, strays);
      var ok := RollbackStepChain(i, steps, name, target);
    }

    method FailForGood(i: nat, steps: Steps, id: nat, name: string, c: Choice)
      requires name in steps
      modifies store
      ensures store.View() == FailStep(old(store.View()), i, steps, id, name, c)
    {
      hide Tell, RollbackFrom, SkipRows, Siblings;
      store.UpdateStep(id, StepStatus.Failed);
      store.LogEvent(Ended(id, false));
      var ok := TellJoins(i, steps, c.order, name, false);
      if !ok {
        return;
      }
      StopParallelBranchesInFork(i, steps, c.order, name);
      RollbackToSavePointOrRoot(i, steps, name, c.strays);
      store.UpdateInstanceStatus(i, WorkflowStatus.Failed);
    }

    method SendToDeadLetters(i: nat, steps: Steps, id: nat, name: string, c: Choice)
      modifies store
      ensures store.View() == BuryStep(old(store.View()), i, steps, id, name, c)
    {
      hide Notify, Freeze;
      store.UpdateStep(id, Paused);
      store.LogEvent(Ended(id, false));
      var ok := NotifyJoinSteps(i, steps, c.order, name, false);
      if !ok {
        return;
      }
      store.CreateDeadLetterRecord(i, id);
      store.PauseActiveStepsAndClearQueue(i);
      store.UpdateInstanceStatus(i, Dlq);
    }

    method HandleStepFailure(i: nat, def: Definition, id: nat, row: Row, c: Choice)
      requires row.name in def.steps
      modifies store
      ensures store.View() == HandleFailure(old(store.View()), i, def, id, row, c)
    {
      hide FailStep, BuryStep;
      var d := def.steps[row.name];
      if (row.retry == 0 && d.maxRetries > 0) || (row.retry > 0 && row.retry < row.maxRetries && !d.noIdempotent) {
        store.UpdateStep(id, StepStatus.Failed);
        store.EnqueueStep(i, id);
      } else if def.dlqEnabled {
        SendToDeadLetters(i, def.steps, id, row.name, c);
      } else {
        FailForGood(i, def.steps, id, row.name, c);
      }
    }

    // ---- Cancellation ----

    method StopActiveSteps(i: nat)
      modifies store
      ensures store.View() == SkipRows(old(store.View()), ActiveRows(old(store.View()), i))
    {
      var ids := set id | id in store.steps && store.steps[id].instance == i && Active(store.steps[id].status);
      assert ids == ActiveRows(store.View(), i);
      store.SkipSteps(ids);
    }

    method RollbackEverything(i: nat, steps: Steps)
      modifies store
      ensures store.View() == UndoAll(old(store.View()), i, steps)
    {
      hide RollbackFrom;
      var last := store.FindLastCompleted(i);
      if last.None? {
        store.UpdateInstanceStatus(i, Cancelled);
        return;
      }
      var name := store.steps[last.value].name;
      store.UpdateInstanceStatus(i, Cancelling);
      var ok := RollbackStepChain(i, steps, name, ROOT);
      store.UpdateInstanceStatus(i, if ok then Cancelled else WorkflowStatus.Failed);
    }

    method HandleCancel(i: nat, steps: Steps, kind: CancelKind)
      modifies store
      ensures store.View() == HandleCancellation(old(store.View()), i, steps, kind)
    {
      hide SkipRows, UndoAll;
      StopActiveSteps(i);
      if kind == Abort {
        store.UpdateInstanceStatus(i, Aborted);
      } else {
        RollbackEverything(i, steps);
      }
      store.DeleteCancelRequest(i);
    }

    // ---- One step ----

    method RunFork(i: nat, steps: Steps, d: StepDef) returns (ok: bool)
      modifies store
      ensures (store.View(), ok) == ExecuteFork(old(store.View()), i, steps, d)
    {
      ghost var before := store.View();
      assert d.parallel[0..] == d.parallel;
      for k := 0 to |d.parallel|
        invariant CreateBranches(before, i, steps, d.parallel) ==
                  CreateBranches(store.View(), i, steps, d.parallel[k..])
      {
        var name := d.parallel[k];
        assert d.parallel[k..][0] == name && d.parallel[k..][1..] == d.parallel[k + 1..];
        if name !in steps {
          return false;
        }
        var id := store.CreateStep(Row(i, name, steps[name].kind, Pending, 0, steps[name].maxRetries, 0));
        store.EnqueueStep(i, id);
      }
      ghost var mid := store.View();
      assert d.next[0..] == d.next;
      for k := 0 to |d.next|
        invariant CreateJoins(mid, i, steps, d, d.next) == CreateJoins(store.View(), i, steps, d, d.next[k..])
      {
        var name := d.next[k];
        assert d.next[k..][0] == name && d.next[k..][1..] == d.next[k + 1..];
        if name in steps && steps[name].kind == Join {
          var waitFor := steps[name].waitFor;
          if waitFor == [] {
            waitFor := d.parallel;
          }
          store.CreateJoinState(i, name, waitFor, steps[name].strategy);
        }
      }
      ok := true;
    }

    method RunByType(i: nat, steps: Steps, id: nat, name: string, c: Choice) returns (ok: bool)
      requires name in steps
      modifies store
      ensures (store.View(), ok) == Work(old(store.View()), i, steps, id, name, c)
    {
      hide ExecuteFork;
      var d := steps[name];
      match d.kind
      case Task =>
        store.LogEvent(Ran(id));
        ok := c.succeeds;
      case Fork => ok := RunFork(i, steps, d);
      case Parallel => ok := RunFork(i, steps, d);
      case Join =>
        if (i, name) !in store.joinStates {
          return false;
        }
        var state := store.joinStates[(i, name)];
        ok := state.ready && !(state.failed != [] && state.strategy == All);
      case SavePoint => ok := true;
      case Condition => ok := c.succeeds;
      case Human => ok := false;
    }

    method RunStep(i: nat, def: Definition, id: nat, row: Row, c: Choice)
      requires i in store.instances && row.name in def.steps
      modifies store
      ensures store.View() == ExecuteStep(old(store.View()), i, def, id, row, c)
    {
      hide Work, HandleCancellation, HandleFailure, HandleSuccess;
      if i in store.cancelRequests {
        HandleCancel(i, def.steps, store.cancelRequests[i]);
        return;
      }
      var status := store.instances[i].status;
      store.UpdateStep(id, StepStatus.Running);
      var ok := RunByType(i, def.steps, id, row.name, c);
      if c.late.Some? && Cancellable(status) {
        HandleCancel(i, def.steps, c.late.value);
      } else if !ok {
        HandleStepFailure(i, def, id, row, c);
      } else {
        HandleStepSuccess(i, def.steps, id, row.name, c.order, def.steps[row.name].kind == Condition ==> c.takesNext);
      }
    }

    method RunCompensation(i: nat, steps: Steps, id: nat, row: Row, c: Choice)
      requires row.name in steps
      modifies store
      ensures store.View() == ExecuteCompensation(old(store.View()), i, steps, id, row, c)
    {
      hide HasStatus;
      var onFailure := steps[row.name].onFailure;
      if onFailure !in steps {
        store.UpdateStep(id, RolledBack);
        return;
      }
      store.LogEvent(Compensated(id));
      if c.succeeds {
        store.UpdateStep(id, RolledBack);
        var unfinished := store.AnyWithStatus(i, {Pending, StepStatus.Running, Paused});
        var compensating := store.AnyWithStatus(i, {Compensation});
        var broken := store.AnyWithStatus(i, {StepStatus.Failed, RolledBack});
        if !unfinished && !compensating && broken {
          store.UpdateInstanceStatus(i, WorkflowStatus.Failed);
        }
      } else if row.comp < steps[onFailure].maxRetries {
        store.UpdateStepCompensationRetry(id, row.comp + 1);
        store.EnqueueStep(i, id);
      } else {
        store.UpdateStep(id, StepStatus.Failed);
      }
    }

    /** ExecuteNext for the item that the queue hands out. */
    method ExecuteItem(q: nat, c: Choice)
      modifies store
      ensures store.View() == ExecuteNext(old(store.View()), q, c)
    {
      hide ExecuteStep, ExecuteCompensation;
      if q !in store.queue {
        return;
      }
      var i, id := store.queue[q].instance, store.queue[q].row;
      if i !in store.instances || store.instances[i].status == Dlq
         || id !in store.steps || store.steps[id].instance != i {
        store.RemoveFromQueue(q);
        return;
      }
      var row := store.steps[id];
      if row.status in {Skipped, Paused, RolledBack} {
        store.RemoveFromQueue(q);
        store.RemoveFromQueue(id);
        return;
      }
      var workflow := store.instances[i].workflow;
      if workflow !in store.definitions || row.name !in store.definitions[workflow].steps {
        store.RemoveFromQueue(q);
        return;
      }
      var def := store.definitions[workflow];
      if LacksHandler(def.steps, row, c) {
        return;
      }
      store.RemoveFromQueue(q);
      if row.status == Compensation {
        RunCompensation(i, def.steps, id, row, c);
      } else {
        RunStep(i, def, id, row, c);
      }
    }

    // ---- The other operations ----

    method StartInstance(workflow: string) returns (started: bool)
      modifies store
      ensures store.View() == StartWorkflow(old(store.View()), workflow)
      ensures started <==> old(store.nextInstanceID) != store.nextInstanceID
    {
      hide WellFormed;
      if workflow !in store.definitions || store.definitions[workflow].start !in store.definitions[workflow].steps {
        return false;
      }
      var def := store.definitions[workflow];
      var violation := Validate(def);
      if violation.Some? {
        return false;
      }
      var i := store.nextInstanceID;
      store.instances := store.instances[i := Instance(workflow, WorkflowStatus.Running)];
      store.nextInstanceID := i + 1;
      EnqueueNextSteps(i, def.steps, [def.start], false);
      NextKeepsInstances(old(store.View()), i, def, workflow);
      started := true;
    }

    method CancelOrAbort(i: nat, kind: CancelKind) returns (accepted: bool)
      modifies store
      ensures store.View() == RequestCancel(old(store.View()), i, kind)
      ensures accepted <==> i in store.instances && Cancellable(store.instances[i].status)
    {
      if i !in store.instances || !Cancellable(store.instances[i].status) {
        return false;
      }
      if i !in store.cancelRequests {
        store.cancelRequests := store.cancelRequests[i := kind];
      }
      accepted := true;
    }

    method RequeueDeadLetter(dead: nat) returns (found: bool)
      modifies store
      ensures store.View() == Requeue(old(store.View()), dead)
      ensures found <==> dead in old(store.deadLetters) && old(store.deadLetters)[dead].row in old(store.steps)
    {
      if dead !in store.deadLetters || store.deadLetters[dead].row !in store.steps {
        return false;
      }
      var letter := store.deadLetters[dead];
      store.steps := store.steps[letter.row := store.steps[letter.row].(status := Pending, retry := 0, comp := 0)];
      if letter.instance in store.instances && store.instances[letter.instance].status in {WorkflowStatus.Failed, Dlq} {
        store.UpdateInstanceStatus(letter.instance, WorkflowStatus.Running);
      }
      WakePausedJoins(letter.instance);
      store.deadLetters := store.deadLetters - {dead};
      found := true;
    }

    method WakePausedJoins(i: nat)
      modifies store`steps
      ensures store.steps == Awakened(old(store.steps), i)
    {
      var todo := store.steps.Keys;
      while todo != {}
        invariant todo <= store.steps.Keys && store.steps.Keys == old(store.steps).Keys
        invariant forall id :: id in store.steps ==>
                    store.steps[id] == if id in todo then old(store.steps)[id] else Awakened(old(store.steps), i)[id]
        decreases todo
      {
        var id :| id in todo;
        var row := store.steps[id];
        if row.instance == i && row.kind == Join && row.status == Paused {
          store.steps := store.steps[id := row.(status := Pending)];
        }
        todo := todo - {id};
      }
      SameMap(store.steps, Awakened(old(store.steps), i));
    }
  }

  lemma WaitsInSteps(s: State, i: nat, steps: Steps, join: string, name: string)
    requires Waits(s, i, steps, join, name)
    ensures join in steps
  {
  }

  /** Starting a workflow takes exactly one instance number. */
  lemma NextKeepsInstances(s: State, i: nat, def: Definition, workflow: string)
    ensures var s1 := s.(instances := s.instances[i := Instance(workflow, WorkflowStatus.Running)],
                         nextInstance := i + 1);
            EnqueueNext(s1, i, def.steps, [def.start], false).0.nextInstance == i + 1
  {
    var one := [def.start];
    assert one[1..] == [];
  }
}
