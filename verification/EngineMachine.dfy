/**
 The memory store and the engine as the source runs them: fields that methods change, loops
 over rows, names and queues. Every method is proved against its function in module Engine.
 */
module EngineMachine {
  import opened Definitions
  import opened Graphs
  import opened Links
  import opened Validator
  import opened Searches
  import opened Rollback
  import opened JoinStates
  import opened Engine

  class MemoryStore {
    const definitions: map<string, Definition>
    var instances: map<nat, Instance>
    var steps: map<nat, Row>
    var queue: map<nat, Item>
    var joinStates: map<Key, JoinState>
    var cancelRequests: map<nat, CancelKind>
    var deadLetters: map<nat, DeadLetter>
    var nextInstanceID: nat
    var nextStepID: nat
    var nextQueueID: nat
    var nextDeadLetterID: nat
    var events: seq<Entry>

    constructor (definitions: map<string, Definition>)
      ensures View() == Initial(definitions)
    {
      this.definitions := definitions;
      instances, steps, queue, joinStates, cancelRequests, deadLetters := map[], map[], map[], map[], map[], map[];
      nextInstanceID, nextStepID, nextQueueID, nextDeadLetterID := 1, 1, 1, 1;
      events := [];
    }

    ghost function View(): State
      reads this
    {
      State(definitions, instances, steps, queue, joinStates, cancelRequests, deadLetters,
            nextInstanceID, nextStepID, nextQueueID, nextDeadLetterID, events)
    }

    method UpdateStep(id: nat, status: StepStatus)
      modifies this`steps
      ensures View() == SetStatus(old(View()), id, status)
    {
      if id !in steps {
        return;
      }
      var step := steps[id].(status := status);
      if status == StepStatus.Failed {
        step := step.(retry := step.retry + 1);
      }
      steps := steps[id := step];
    }

    method UpdateStepCompensationRetry(id: nat, retryCount: nat)
      modifies this`steps
      ensures View() == SetCompensation(old(View()), id, retryCount)
    {
      if id in steps {
        steps := steps[id := steps[id].(status := Compensation, comp := retryCount)];
      }
    }

    method CreateStep(row: Row) returns (id: nat)
      modifies this`steps, this`nextStepID
      ensures View() == CreateRow(old(View()), row) && id == old(nextStepID)
    {
      id := nextStepID;
      steps := steps[id := row];
      nextStepID := nextStepID + 1;
    }

    method EnqueueStep(i: nat, row: nat)
      modifies this`queue, this`nextQueueID
      ensures View() == Enqueue(old(View()), i, row)
    {
      queue := queue[nextQueueID := Item(i, row)];
      nextQueueID := nextQueueID + 1;
    }

    method RemoveFromQueue(id: nat)
      modifies this`queue
      ensures View() == RemoveItem(old(View()), id)
    {
      queue := queue - {id};
    }

    method UpdateInstanceStatus(i: nat, status: WorkflowStatus)
      modifies this`instances
      ensures View() == SetInstance(old(View()), i, status)
    {
      if i in instances {
        instances := instances[i := instances[i].(status := status)];
      }
    }

    method CreateJoinState(i: nat, join: string, waitFor: seq<string>, strategy: JoinStrategy)
      modifies this`joinStates
      ensures View() == NewJoin(old(View()), i, join, waitFor, strategy)
    {
      if (i, join) !in joinStates {
        joinStates := joinStates[(i, join) := JoinStates.Fresh(waitFor, strategy)];
      }
    }

    /** None is the error of a missing state. */
    method UpdateJoinState(i: nat, join: string, name: string, success: bool) returns (ready: Option<bool>)
      modifies this`joinStates
      ensures (i, join) !in old(joinStates) ==> ready.None? && View() == old(View())
      ensures (i, join) in old(joinStates) ==>
                var updated := Update(old(joinStates)[(i, join)], name, success);
                View() == PutJoin(old(View()), i, join, updated) && ready == Some(updated.ready)
    {
      if (i, join) !in joinStates {
        return None;
      }
      var state := ApplyUpdate(joinStates[(i, join)], name, success);
      joinStates := joinStates[(i, join) := state];
      ready := Some(state.ready);
    }

    method AddToJoinWaitFor(i: nat, join: string, name: string)
      modifies this`joinStates
      ensures View() == if (i, join) !in old(joinStates) then NewJoin(old(View()), i, join, [name], All)
                        else PutJoin(old(View()), i, join, AddWait(old(joinStates)[(i, join)], name))
    {
      if (i, join) !in joinStates {
        CreateJoinState(i, join, [name], All);
        return;
      }
      var state := ApplyWait(joinStates[(i, join)], name);
      joinStates := joinStates[(i, join) := state];
    }

    method ReplaceInJoinWaitFor(i: nat, join: string, virtual: string, actual: string)
      modifies this`joinStates
      ensures View() == if (i, join) !in old(joinStates) then NewJoin(old(View()), i, join, [actual], All)
                        else PutJoin(old(View()), i, join, ReplaceWait(old(joinStates)[(i, join)], virtual, actual,
                                                                       FirstStatus(old(View()), i, actual, nextStepID)))
    {
      if (i, join) !in joinStates {
        CreateJoinState(i, join, [actual], All);
        return;
      }
      var status := FirstStepStatus(i, actual);
      var state := ApplyReplacement(joinStates[(i, join)], virtual, actual, status);
      joinStates := joinStates[(i, join) := state];
    }

    method LogEvent(e: Entry)
      modifies this`events
      ensures View() == Note(old(View()), e)
    {
      events := events + [e];
    }

    method CreateDeadLetterRecord(i: nat, row: nat)
      modifies this`deadLetters, this`nextDeadLetterID
      ensures View() == Bury(old(View()), i, row)
    {
      deadLetters := deadLetters[nextDeadLetterID := DeadLetter(i, row)];
      nextDeadLetterID := nextDeadLetterID + 1;
    }

    method DeleteCancelRequest(i: nat)
      modifies this`cancelRequests
      ensures View() == DropRequest(old(View()), i)
    {
      cancelRequests := cancelRequests - {i};
    }

    /** Whether one of the instance's steps has one of the statuses. */
    method AnyWithStatus(i: nat, wanted: set<StepStatus>) returns (found: bool)
      ensures found == HasStatus(View(), i, wanted)
    {
      var todo := steps.Keys;
      while todo != {}
        invariant todo <= steps.Keys
        invariant forall id :: id in steps && id !in todo ==> !(steps[id].instance == i && steps[id].status in wanted)
        decreases todo
      {
        var id :| id in todo;
        if steps[id].instance == i && steps[id].status in wanted {
          return true;
        }
        todo := todo - {id};
      }
      found := false;
    }

    method AnyNamed(i: nat, name: string) returns (found: bool)
      ensures found == HasRow(View(), i, name)
    {
      var todo := steps.Keys;
      while todo != {}
        invariant todo <= steps.Keys
        invariant forall id :: id in steps && id !in todo ==> !(steps[id].instance == i && steps[id].name == name)
        decreases todo
      {
        var id :| id in todo;
        if steps[id].instance == i && steps[id].name == name {
          return true;
        }
        todo := todo - {id};
      }
      found := false;
    }

    /** The latest row of each step, collected in the order of creation. */
    method CollectSteps(i: nat) returns (m: map<string, nat>)
      ensures m == StepMap(View(), i, nextStepID)
    {
      m := map[];
      for id := 0 to nextStepID
        invariant m == StepMap(View(), i, id)
      {
        if id in steps && steps[id].instance == i {
          m := m[steps[id].name := id];
        }
      }
    }

    method FirstStepStatus(i: nat, name: string) returns (r: Option<StepStatus>)
      ensures r == FirstStatus(View(), i, name, nextStepID)
    {
      r := None;
      for id := 0 to nextStepID
        invariant r == FirstStatus(View(), i, name, id)
      {
        if r.None? && id in steps && steps[id].instance == i && steps[id].name == name {
          r := Some(steps[id].status);
        }
      }
    }

    method FindLastCompleted(i: nat) returns (r: Option<nat>)
      ensures r == LastCompleted(View(), i, nextStepID)
    {
      for id := nextStepID downto 0
        invariant LastCompleted(View(), i, nextStepID) == LastCompleted(View(), i, id)
      {
        if id in steps && steps[id].instance == i && steps[id].status == StepStatus.Completed {
          return Some(id);
        }
      }
      r := None;
    }

    method FindLastSavePoint(i: nat) returns (r: Option<nat>)
      ensures r == LastSavePoint(View(), i, nextStepID)
    {
      for id := nextStepID downto 0
        invariant LastSavePoint(View(), i, nextStepID) == LastSavePoint(View(), i, id)
      {
        if id in steps && steps[id].instance == i && steps[id].kind == SavePoint {
          return Some(id);
        }
      }
      r := None;
    }

    /** Mark steps as skipped, one by one. */
    method SkipSteps(ids: set<nat>)
      requires ids <= steps.Keys
      modifies this`steps
      ensures View() == SkipRows(old(View()), ids)
    {
      var todo := ids;
      while todo != {}
        invariant todo <= ids && steps.Keys == old(steps).Keys
        invariant forall id :: id in steps ==>
                    steps[id] == if id in ids && id !in todo then old(steps)[id].(status := Skipped) else old(steps)[id]
        decreases todo
      {
        var id :| id in todo;
        steps := steps[id := steps[id].(status := Skipped)];
        todo := todo - {id};
      }
      SameMap(steps, SkipRows(old(View()), ids).rows);
    }

    method PauseActiveStepsAndClearQueue(i: nat)
      modifies this`steps, this`queue
      ensures View() == Freeze(old(View()), i)
    {
      var todo := steps.Keys;
      while todo != {}
        invariant todo <= steps.Keys && steps.Keys == old(steps).Keys
        invariant forall id :: id in steps ==>
                    steps[id] == if id !in todo then Freeze(old(View()), i).rows[id] else old(steps)[id]
        decreases todo
        modifies this`steps
      {
        var id :| id in todo;
        if steps[id].instance == i && steps[id].status == StepStatus.Running {
          steps := steps[id := steps[id].(status := Paused)];
        }
        todo := todo - {id};
      }
      var items := queue.Keys;
      while items != {}
        invariant items <= old(queue).Keys && items <= queue.Keys
        invariant forall q :: q in queue ==>
                  q in old(queue) && queue[q] == old(queue)[q] && (q in items || queue[q].instance != i)
        invariant forall q :: q in old(queue) && (q in items || old(queue)[q].instance != i) ==> q in queue
        decreases items
        modifies this`queue
      {
        var q :| q in items;
        if queue[q].instance == i {
          queue := queue - {q};
        }
        items := items - {q};
      }
      SameMap(steps, Freeze(old(View()), i).rows);
      SameMap(queue, Freeze(old(View()), i).queue);
    }
  }
}
