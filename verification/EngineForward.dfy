/**
 A linear saga on its way forward: what one ExecuteNext makes of it when the step succeeds,
 fails and is retried, or fails for good.
 */
module EngineForward {
  import opened Definitions
  import opened Searches
  import opened Rollback
  import opened JoinStates
  import opened Engine
  import opened EngineFrame
  import opened EngineLinear
  import opened EngineSagas

  /** An ExecuteNext picks the item of a saga's only waiting row. */
  ghost predicate Picked(s: State, q: nat, c: Choice, i: nat, def: Definition, main: seq<string>, ids: seq<nat>) {
    && Issued(s) && s.cancels == map[] && c.late.None?
    && q in s.queue && s.queue[q].instance == i && DefinedFor(s, i) && DefOf(s, i) == def && Linear(def, main)
    && Forward(s, i, def.steps, main, ids)
  }

  function LastOf(ids: seq<nat>): nat
    requires ids != []
  {
    ids[|ids| - 1]
  }

  lemma PickedFacts(s: State, q: nat, c: Choice, i: nat, def: Definition, main: seq<string>, ids: seq<nat>)
    requires Picked(s, q, c, i, def, main, ids)
    ensures 0 < |ids| <= |main| && s.queue[q] == Item(i, LastOf(ids)) && LastOf(ids) in s.rows
    ensures var row := s.rows[LastOf(ids)];
            && row.name == main[|ids| - 1] && row.name in def.steps
            && row.kind == def.steps[row.name].kind && row.maxRetries == def.steps[row.name].maxRetries
            && row.instance == i && row.status in {Pending, StepStatus.Failed} && row.comp == 0
            && (row.status == Pending ==> row.retry == 0)
            && row.retry < RunLimit(def.steps[row.name])
            && OnLine(def.steps, main, |ids| - 1)
    ensures !Drops(s, q) && Runnable(s, q) && i !in s.cancels
  {
    RowsOnLine(s, i, def.steps, main, ids, |ids| - 1);
  }

  /** The state in which the step has just been run. */
  function AfterRun(s: State, q: nat, id: nat, d: StepDef): State {
    var s1 := SetStatus(RemoveItem(s, q), id, StepStatus.Running);
    if d.kind == Task then Note(s1, Ran(id)) else s1
  }

  /** Execution comes to the success or the failure of the step. */
  lemma RunsTheStep(s: State, q: nat, c: Choice, i: nat, def: Definition, main: seq<string>, ids: seq<nat>)
    requires Picked(s, q, c, i, def, main, ids) && !LacksHandler(def.steps, s.rows[LastOf(ids)], c)
    ensures var id := LastOf(ids);
            var row := s.rows[id];
            var d := def.steps[row.name];
            ExecuteNext(s, q, c) ==
              if d.kind == SavePoint || c.succeeds
              then HandleSuccess(AfterRun(s, q, id, d), i, def.steps, id, row.name, c.order, true)
              else HandleFailure(AfterRun(s, q, id, d), i, def, id, row, c)
  {
    hide HandleSuccess, HandleFailure, Forward, Issued, LacksHandler;
    PickedFacts(s, q, c, i, def, main, ids);
    hide Linear, Runnable, Drops;
    var id := LastOf(ids);
    var row := s.rows[id];
    ExecuteIsHandle(s, q, c);
    assert row.status != Compensation;
  }

  lemma ExecuteIsHandle(s: State, q: nat, c: Choice)
    requires Runnable(s, q) && !LacksHandler(DefOf(s, s.queue[q].instance).steps, s.rows[s.queue[q].row], c)
    ensures var i, id := s.queue[q].instance, s.queue[q].row;
            ExecuteNext(s, q, c) == Handle(RemoveItem(s, q), i, DefOf(s, i), id, s.rows[id], c)
  {
    hide Handle;
  }

  /** The row is completed, nothing else has happened to the rows. */
  function Passed(s: State, q: nat, id: nat, d: StepDef): State {
    Note(SetStatus(AfterRun(s, q, id, d), id, StepStatus.Completed), Ended(id, true))
  }

  lemma PassedIs(s: State, q: nat, id: nat, d: StepDef)
    requires id in s.rows
    ensures var p := Passed(s, q, id, d);
            && p.rows == s.rows[id := s.rows[id].(status := StepStatus.Completed)]
            && p.queue == s.queue - {q} && p.instances == s.instances && p.cancels == s.cancels && p.defs == s.defs
            && p.nextRow == s.nextRow && p.nextItem == s.nextItem
            && p.log == s.log + (if d.kind == Task then [Ran(id), Ended(id, true)] else [Ended(id, true)])
  {
    var claimed := RemoveItem(s, q);
    var s1 := SetStatus(claimed, id, StepStatus.Running);
    var s2 := AfterRun(s, q, id, d);
    StatusTwice(s1, s2, claimed, id, StepStatus.Completed);
    assert s2.log == if d.kind == Task then s.log + [Ran(id)] else s.log;
    assert s.log + [Ran(id)] + [Ended(id, true)] == s.log + [Ran(id), Ended(id, true)];
  }

  lemma StatusTwice(s1: State, s2: State, s: State, id: nat, status: StepStatus)
    requires id in s.rows && s1 == SetStatus(s, id, StepStatus.Running) && s2.rows == s1.rows
    ensures SetStatus(s2, id, status).rows ==
            s.rows[id := s.rows[id].(status := status,
                                     retry := s.rows[id].retry + if status == StepStatus.Failed then 1 else 0)]
  {
  }

  function StepAt(steps: Steps, name: string): StepDef {
    if name in steps then steps[name] else EmptyStep(Task, "")
  }

  /** The row of the next step of the line. */
  function NextRow(i: nat, steps: Steps, name: string): Row {
    Row(i, name, StepAt(steps, name).kind, Pending, 0, StepAt(steps, name).maxRetries, 0)
  }

  /** Success: the next step is created and enqueued, or the instance is completed. */
  lemma SuccessOnLine(s: State, q: nat, c: Choice, i: nat, def: Definition, main: seq<string>, ids: seq<nat>)
    requires Picked(s, q, c, i, def, main, ids)
    ensures var id := LastOf(ids);
            var name := main[|ids| - 1];
            var p := Passed(s, q, id, def.steps[name]);
            HandleSuccess(AfterRun(s, q, id, def.steps[name]), i, def.steps, id, name, c.order, true) ==
              if |ids| == |main| then SetInstance(p, i, WorkflowStatus.Completed)
              else Enqueue(CreateRow(p, NextRow(i, def.steps, main[|ids|])), i, p.nextRow)
  {
    hide Issued, Queued, RunsOk;
    PickedFacts(s, q, c, i, def, main, ids);
    var id, name := LastOf(ids), main[|ids| - 1];
    var d := def.steps[name];
    var p := Passed(s, q, id, d);
    PassedIs(s, q, id, d);
    NothingToTell(p, i, def.steps, c.order, name, true);
    if |ids| == |main| {
      AllPassed(s, p, i, def.steps, main, ids);
    } else {
      assert OnLine(def.steps, main, |ids|);
      NextOnLine(p, i, def.steps, main[|ids|], true);
    }
  }

  lemma {:induction false} NextOnLine(p: State, i: nat, steps: Steps, name: string, skipJoins: bool)
    requires name in steps && (skipJoins ==> steps[name].kind != Join) && InStatus(p, i, WorkflowStatus.Running)
    ensures EnqueueNext(p, i, steps, [name], skipJoins).0 ==
            Enqueue(CreateRow(p, NextRow(i, steps, name)), i, p.nextRow)
  {
    var one := [name];
    assert one[1..] == [];
  }

  /** After the last step nothing is unfinished, failed or rolled back. */
  lemma AllPassed(s: State, p: State, i: nat, steps: Steps, main: seq<string>, ids: seq<nat>)
    requires Forward(s, i, steps, main, ids) && LastOf(ids) in s.rows
    requires p.rows == s.rows[LastOf(ids) := s.rows[LastOf(ids)].(status := StepStatus.Completed)]
    ensures !Unfinished(p, i) && !HasStatus(p, i, {StepStatus.Failed, RolledBack})
  {
    forall id: nat | IsRowOf(p, i, id)
      ensures p.rows[id].status == StepStatus.Completed
    {
      RowsOnLine(s, i, steps, main, ids, |ids| - 1);
      assert IsRowOf(s, i, id) && id in ids;
      var k :| 0 <= k < |ids| && ids[k] == id;
    }
  }

  // ---- The invariant ----

  /** Only one of the rows changes, and the log grows by entries about it. */
  lemma RunsOne(s: State, s': State, steps: Steps, main: seq<string>, ids: seq<nat>, m: nat)
    requires |ids| <= |main| && RunsOk(s, steps, main, ids) && NoDuplicates(ids) && m < |ids|
    requires forall k :: 0 <= k < |ids| && k != m ==>
             ids[k] in s.rows && ids[k] in s'.rows && s'.rows[ids[k]] == s.rows[ids[k]]
    requires s.log <= s'.log && forall j :: |s.log| <= j < |s'.log| ==> s'.log[j].row == ids[m]
    requires main[m] in steps && ids[m] in s'.rows && CompensatedOk(s', steps, ids[m], steps[main[m]])
    requires Count(s'.log, Ran(ids[m])) <= RunLimit(steps[main[m]])
    ensures RunsOk(s', steps, main, ids)
  {
    forall k | 0 <= k < |ids| && k != m
      ensures CompensatedOk(s', steps, ids[k], steps[main[k]])
      ensures Count(s'.log, Ran(ids[k])) <= RunLimit(steps[main[k]])
    {
      CountKept(s.log, s'.log, Compensated(ids[k]));
      CountKept(s.log, s'.log, Ran(ids[k]));
    }
  }

  lemma RunsMore(s: State, s': State, i: nat, steps: Steps, main: seq<string>, ids: seq<nat>)
    requires |ids| < |main| && RunsOk(s, steps, main, ids) && main[|ids|] in steps
    requires s.nextRow !in s.rows && forall e :: e in s.log ==> e.row in s.rows
    requires s'.log == s.log && s'.rows == s.rows[s.nextRow := NextRow(i, steps, main[|ids|])]
    ensures RunsOk(s', steps, main, ids + [s.nextRow])
  {
    var ids' := ids + [s.nextRow];
    CountAbsent(s.log, Ran(s.nextRow));
    CountAbsent(s.log, Compensated(s.nextRow));
    forall k | 0 <= k < |ids'|
      ensures main[k] in steps && ids'[k] in s'.rows
      ensures CompensatedOk(s', steps, ids'[k], steps[main[k]])
      ensures Count(s'.log, Ran(ids'[k])) <= RunLimit(steps[main[k]])
    {
      if k < |ids| {
        assert ids[k] in s.rows && CompensatedOk(s, steps, ids[k], steps[main[k]]);
      }
    }
  }

  /** What the log says about a row that has just run. */
  lemma {:induction false} CountsAfterRun(log: seq<Entry>, id: nat, kind: StepType, more: seq<Entry>)
    requires var ran := if kind == Task then [Ran(id)] else [];
             more == ran || more == ran + [Ended(id, true)]
             || more == (if kind == Task then [Ran(id)] else []) + [Ended(id, false)]
    ensures Count(log + more, Ran(id)) <= Count(log, Ran(id)) + 1
    ensures Count(log + more, Compensated(id)) == Count(log, Compensated(id))
  {
    var run: seq<Entry> := if kind == Task then [Ran(id)] else [];
    CountNote(log, Ran(id), Ran(id));
    CountNote(log, Ran(id), Compensated(id));
    assert log + [] == log;
    forall b
      ensures Count(log + (run + [Ended(id, b)]), Ran(id)) == Count(log + run, Ran(id))
      ensures Count(log + (run + [Ended(id, b)]), Compensated(id)) == Count(log + run, Compensated(id))
    {
      CountNote(log + run, Ended(id, b), Ran(id));
      CountNote(log + run, Ended(id, b), Compensated(id));
      assert log + run + [Ended(id, b)] == log + (run + [Ended(id, b)]);
    }
  }

  /** The row that has just passed, seen on its own. */
  lemma PassedRow(s: State, q: nat, c: Choice, i: nat, def: Definition, main: seq<string>, ids: seq<nat>)
    requires Picked(s, q, c, i, def, main, ids)
    ensures var id, d := LastOf(ids), def.steps[main[|ids| - 1]];
            var p := Passed(s, q, id, d);
            && id in p.rows && Done(p.rows[id]) && CompensatedOk(p, def.steps, id, d)
            && Count(p.log, Ran(id)) <= RunLimit(d)
            && s.log <= p.log && forall j :: |s.log| <= j < |p.log| ==> p.log[j].row == id
  {
    hide Issued, OnLine, Linear, Queued, Passed;
    PickedFacts(s, q, c, i, def, main, ids);
    var id, d := LastOf(ids), def.steps[main[|ids| - 1]];
    PassedIs(s, q, id, d);
    assert CompensatedOk(s, def.steps, id, d);
    CountsAfterRun(s.log, id, d.kind, if d.kind == Task then [Ran(id), Ended(id, true)] else [Ended(id, true)]);
  }

  /** The saga after the step has passed, before anything follows. */
  lemma SagaPassed(s: State, q: nat, c: Choice, i: nat, def: Definition, main: seq<string>, ids: seq<nat>)
    requires Picked(s, q, c, i, def, main, ids)
    ensures var p := Passed(s, q, LastOf(ids), def.steps[main[|ids| - 1]]);
            RunsOk(p, def.steps, main, ids) && DoneBelow(p, ids, |ids|) && Along(p, i, def.steps, main, ids)
            && Queued(p, i, {}) && InStatus(p, i, WorkflowStatus.Running)
  {
    hide Issued, OnLine, Linear, CompensatedOk, Passed, RunsOk, Queued;
    PickedFacts(s, q, c, i, def, main, ids);
    var id, d := LastOf(ids), def.steps[main[|ids| - 1]];
    var p := Passed(s, q, id, d);
    PassedIs(s, q, id, d);
    PassedRow(s, q, c, i, def, main, ids);
    RowsDiffer(s, i, def.steps, main, ids, |ids| - 1);
    RunsOne(s, p, def.steps, main, ids, |ids| - 1);
    AlongSame(s, p, i, def.steps, main, ids);
    QueuedRemove(s, i, {id}, q);
    QueuedSame(RemoveItem(s, q), p, i, {id} - {id});
    assert {id} - {id} == {};
  }

  lemma RowsDiffer(s: State, i: nat, steps: Steps, main: seq<string>, ids: seq<nat>, m: nat)
    requires Along(s, i, steps, main, ids) && m < |ids|
    ensures NoDuplicates(ids) && |ids| <= |main|
    ensures forall k :: 0 <= k < |ids| ==> ids[k] in s.rows && main[k] in steps && (k != m ==> ids[k] != ids[m])
  {
    forall k | 0 <= k < |ids|
      ensures ids[k] in s.rows && main[k] in steps && (k != m ==> ids[k] != ids[m])
    {
      RowsOnLine(s, i, steps, main, ids, k);
    }
  }

  // ---- The three outcomes ----

  /** Success in the middle: the saga is one step further. */
  lemma GoesOn(s: State, q: nat, c: Choice, i: nat, def: Definition, main: seq<string>, ids: seq<nat>)
    requires Picked(s, q, c, i, def, main, ids) && |ids| < |main|
    requires !LacksHandler(def.steps, s.rows[LastOf(ids)], c)
    requires def.steps[main[|ids| - 1]].kind == SavePoint || c.succeeds
    ensures Forward(ExecuteNext(s, q, c), i, def.steps, main, ids + [s.nextRow])
    ensures s.nextRow in ExecuteNext(s, q, c).rows && ExecuteNext(s, q, c).rows[s.nextRow].retry == 0
  {
    hide Along, RunsOk, Queued, DoneBelow, Passed, LacksHandler, HandleSuccess, HandleFailure;
    PickedFacts(s, q, c, i, def, main, ids);
    RunsTheStep(s, q, c, i, def, main, ids);
    SuccessOnLine(s, q, c, i, def, main, ids);
    SagaPassed(s, q, c, i, def, main, ids);
    assert OnLine(def.steps, main, |ids|);
    var p := Passed(s, q, LastOf(ids), def.steps[main[|ids| - 1]]);
    PassedIs(s, q, LastOf(ids), def.steps[main[|ids| - 1]]);
    FreshNumbers(s);
    NextStarts(s, p, i, def.steps, main, ids);
  }

  lemma FreshNumbers(s: State)
    requires Issued(s)
    ensures s.nextRow !in s.rows && s.nextItem !in s.queue && forall e :: e in s.log ==> e.row in s.rows
  {
  }

  lemma NextStarts(s: State, p: State, i: nat, steps: Steps, main: seq<string>, ids: seq<nat>)
    requires Along(p, i, steps, main, ids) && RunsOk(p, steps, main, ids) && DoneBelow(p, ids, |ids|)
    requires Queued(p, i, {}) && InStatus(p, i, WorkflowStatus.Running)
    requires 0 < |ids| < |main| && main[|ids|] in steps
    requires p.nextRow !in p.rows && p.nextItem !in p.queue && forall e :: e in p.log ==> e.row in p.rows
    ensures Forward(Enqueue(CreateRow(p, NextRow(i, steps, main[|ids|])), i, p.nextRow), i, steps, main,
                    ids + [p.nextRow])
  {
    hide Along, RunsOk, Queued;
    var row := NextRow(i, steps, main[|ids|]);
    var p1 := CreateRow(p, row);
    var p2 := Enqueue(p1, i, p.nextRow);
    AlongMore(p, p2, i, steps, main, ids, row);
    RunsMore(p, p2, i, steps, main, ids);
    QueuedSame(p, p1, i, {});
    QueuedAdd(p1, i, {}, p.nextRow);
    assert {} + {p.nextRow} == {p.nextRow};
    CountAbsent(p.log, Ran(p.nextRow));
  }

  /** Success at the end: the saga is finished. */
  lemma Finishes(s: State, q: nat, c: Choice, i: nat, def: Definition, main: seq<string>, ids: seq<nat>)
    requires Picked(s, q, c, i, def, main, ids) && |ids| == |main|
    requires !LacksHandler(def.steps, s.rows[LastOf(ids)], c)
    requires def.steps[main[|ids| - 1]].kind == SavePoint || c.succeeds
    ensures Finished(ExecuteNext(s, q, c), i, def.steps, main, ids)
  {
    hide Passed, LacksHandler, HandleSuccess, HandleFailure;
    PickedFacts(s, q, c, i, def, main, ids);
    RunsTheStep(s, q, c, i, def, main, ids);
    SuccessOnLine(s, q, c, i, def, main, ids);
    SagaPassed(s, q, c, i, def, main, ids);
    var p := Passed(s, q, LastOf(ids), def.steps[main[|ids| - 1]]);
    StatusOnly(p, i, def.steps, main, ids, WorkflowStatus.Completed);
  }

  lemma StatusOnly(p: State, i: nat, steps: Steps, main: seq<string>, ids: seq<nat>, status: WorkflowStatus)
    requires Along(p, i, steps, main, ids) && RunsOk(p, steps, main, ids) && i in p.instances
    ensures var s := SetInstance(p, i, status);
            && RunsOk(s, steps, main, ids) && Along(s, i, steps, main, ids) && InStatus(s, i, status)
            && (forall n :: DoneBelow(p, ids, n) ==> DoneBelow(s, ids, n))
            && (forall pending :: Queued(p, i, pending) ==> Queued(s, i, pending))
            && (forall sp :: UndoneAbove(p, steps, main, ids, sp) ==> UndoneAbove(s, steps, main, ids, sp))
            && Pend(s, ids) == Pend(p, ids)
  {
    var s := SetInstance(p, i, status);
    AlongSame(p, s, i, steps, main, ids);
    forall pending | Queued(p, i, pending) ensures Queued(s, i, pending) { QueuedSame(p, s, i, pending); }
  }

  // ---- Failure ----

  /** The row has failed once more. */
  function FailedRun(s: State, q: nat, id: nat, d: StepDef): State {
    SetStatus(AfterRun(s, q, id, d), id, StepStatus.Failed)
  }

  lemma FailedRunIs(s: State, q: nat, id: nat, d: StepDef)
    requires id in s.rows
    ensures var p := FailedRun(s, q, id, d);
            && p.rows == s.rows[id := s.rows[id].(status := StepStatus.Failed, retry := s.rows[id].retry + 1)]
            && p.queue == s.queue - {q} && p.instances == s.instances && p.cancels == s.cancels && p.defs == s.defs
            && p.nextRow == s.nextRow && p.nextItem == s.nextItem
            && p.log == s.log + (if d.kind == Task then [Ran(id)] else [])
  {
    var claimed := RemoveItem(s, q);
    StatusTwice(SetStatus(claimed, id, StepStatus.Running), AfterRun(s, q, id, d), claimed, id, StepStatus.Failed);
    assert s.log + [] == s.log;
  }

  /** The saga after a failed run, before anything follows. */
  lemma SagaFailed(s: State, q: nat, c: Choice, i: nat, def: Definition, main: seq<string>, ids: seq<nat>)
    requires Picked(s, q, c, i, def, main, ids)
    ensures var id, d := LastOf(ids), def.steps[main[|ids| - 1]];
            var p := FailedRun(s, q, id, d);
            && Along(p, i, def.steps, main, ids) && RunsOk(p, def.steps, main, ids) && DoneBelow(p, ids, |ids| - 1)
            && Queued(p, i, {}) && InStatus(p, i, WorkflowStatus.Running)
            && id in p.rows && p.rows[id] == s.rows[id].(status := StepStatus.Failed, retry := s.rows[id].retry + 1)
            && Count(p.log, Ran(id)) <= p.rows[id].retry
  {
    hide Issued, OnLine, Linear, FailedRun, Queued, Along, RunsOk, DoneBelow;
    PickedFacts(s, q, c, i, def, main, ids);
    var id, d := LastOf(ids), def.steps[main[|ids| - 1]];
    var p := FailedRun(s, q, id, d);
    FailedRunIs(s, q, id, d);
    FailedRuns(s, q, c, i, def, main, ids, p);
    QueuedRemove(s, i, {id}, q);
    QueuedSame(RemoveItem(s, q), p, i, {id} - {id});
    assert {id} - {id} == {};
  }

  lemma FailedRuns(s: State, q: nat, c: Choice, i: nat, def: Definition, main: seq<string>, ids: seq<nat>, p: State)
    requires Picked(s, q, c, i, def, main, ids) && p == FailedRun(s, q, LastOf(ids), def.steps[main[|ids| - 1]])
    ensures Along(p, i, def.steps, main, ids) && RunsOk(p, def.steps, main, ids) && DoneBelow(p, ids, |ids| - 1)
    ensures LastOf(ids) in p.rows && Count(p.log, Ran(LastOf(ids))) <= p.rows[LastOf(ids)].retry
  {
    hide Issued, OnLine, Linear, FailedRun, Queued, Along;
    PickedFacts(s, q, c, i, def, main, ids);
    var id, d := LastOf(ids), def.steps[main[|ids| - 1]];
    FailedRunIs(s, q, id, d);
    assert CompensatedOk(s, def.steps, id, d);
    FailedRow(s, p, def.steps, id, d);
    RowsDiffer(s, i, def.steps, main, ids, |ids| - 1);
    AlongSame(s, p, i, def.steps, main, ids);
    RunsOne(s, p, def.steps, main, ids, |ids| - 1);
  }

  lemma FailedRow(s: State, p: State, steps: Steps, id: nat, d: StepDef)
    requires id in s.rows && id in p.rows
    requires p.rows[id] == s.rows[id].(status := StepStatus.Failed, retry := s.rows[id].retry + 1)
    requires p.log == s.log + (if d.kind == Task then [Ran(id)] else [])
    requires s.rows[id].comp == 0 && s.rows[id].status in {Pending, StepStatus.Failed}
    requires CompensatedOk(s, steps, id, d) && Count(s.log, Ran(id)) <= s.rows[id].retry < RunLimit(d)
    ensures CompensatedOk(p, steps, id, d) && Count(p.log, Ran(id)) <= RunLimit(d)
    ensures Count(p.log, Ran(id)) <= p.rows[id].retry
    ensures s.log <= p.log && forall j :: |s.log| <= j < |p.log| ==> p.log[j].row == id
  {
    CountsAfterRun(s.log, id, d.kind, if d.kind == Task then [Ran(id)] else []);
  }

  /** Failure with a retry: the saga waits for the same step. */
  lemma RetriesStep(s: State, q: nat, c: Choice, i: nat, def: Definition, main: seq<string>, ids: seq<nat>)
    requires Picked(s, q, c, i, def, main, ids)
    requires !LacksHandler(def.steps, s.rows[LastOf(ids)], c) && def.steps[main[|ids| - 1]].kind != SavePoint
    requires !c.succeeds
    requires s.rows[LastOf(ids)].retry + 1 < RunLimit(def.steps[main[|ids| - 1]])
    ensures Forward(ExecuteNext(s, q, c), i, def.steps, main, ids)
    ensures LastOf(ids) in ExecuteNext(s, q, c).rows
            && ExecuteNext(s, q, c).rows[LastOf(ids)].retry == s.rows[LastOf(ids)].retry + 1
  {
    hide FailedRun, LacksHandler, HandleSuccess, FailStep, BuryStep, Queued, Along, RunsOk, Linear, Retries;
    PickedFacts(s, q, c, i, def, main, ids);
    RunsTheStep(s, q, c, i, def, main, ids);
    RetriesBelowLimit(def.steps[main[|ids| - 1]], s.rows[LastOf(ids)]);
    SagaFailed(s, q, c, i, def, main, ids);
    var id := LastOf(ids);
    var p := FailedRun(s, q, id, def.steps[main[|ids| - 1]]);
    assert ExecuteNext(s, q, c) == Enqueue(p, i, id) by { FailedRunUnfolds(s, q, id, def.steps[main[|ids| - 1]]); }
    FailedRunIs(s, q, id, def.steps[main[|ids| - 1]]);
    FreshNumbers(s);
    QueuedAdd(p, i, {}, id);
    assert {} + {id} == {id};
    QueueOnly(p, Enqueue(p, i, id), i, def.steps, main, ids);
  }

  lemma FailedRunUnfolds(s: State, q: nat, id: nat, d: StepDef)
    ensures FailedRun(s, q, id, d) == SetStatus(AfterRun(s, q, id, d), id, StepStatus.Failed)
  {
  }

  lemma QueueOnly(p: State, s: State, i: nat, steps: Steps, main: seq<string>, ids: seq<nat>)
    requires Along(p, i, steps, main, ids) && RunsOk(p, steps, main, ids)
    requires s.rows == p.rows && s.log == p.log
    ensures Along(s, i, steps, main, ids) && RunsOk(s, steps, main, ids)
    ensures forall n :: DoneBelow(p, ids, n) ==> DoneBelow(s, ids, n)
  {
    AlongSame(p, s, i, steps, main, ids);
  }

  /** Final failure: the row is marked, and everything down to the save point is rolled back. */
  lemma FailsForGood(s: State, q: nat, c: Choice, i: nat, def: Definition, main: seq<string>, ids: seq<nat>, sp: int)
    requires Picked(s, q, c, i, def, main, ids) && Nearest(def, main, |ids| - 1, sp)
    requires !LacksHandler(def.steps, s.rows[LastOf(ids)], c) && def.steps[main[|ids| - 1]].kind != SavePoint
    requires !c.succeeds
    requires s.rows[LastOf(ids)].retry + 1 >= RunLimit(def.steps[main[|ids| - 1]])
    ensures var id, name := LastOf(ids), main[|ids| - 1];
            var p := Note(FailedRun(s, q, id, def.steps[name]), Ended(id, false));
            ExecuteNext(s, q, c) ==
            SetInstance(RollbackFrom(p, i, def.steps, name, TargetOf(main, sp)).0, i, WorkflowStatus.Failed)
  {
    hide LacksHandler, HandleSuccess, BuryStep, Queued, Along, RunsOk, Retries, RollbackFrom, Tell, Siblings, SkipRows;
    hide Nearest;
    PickedFacts(s, q, c, i, def, main, ids);
    RunsTheStep(s, q, c, i, def, main, ids);
    var id, name := LastOf(ids), main[|ids| - 1];
    RetriesBelowLimit(def.steps[name], s.rows[id]);
    var p := Note(FailedRun(s, q, id, def.steps[name]), Ended(id, false));
    NothingToTell(p, i, def.steps, c.order, name, false);
    NoSiblings(p, i, def.steps, c.order, name);
    NearestIsFound(def, main, |ids| - 1, sp, c.strays, {});
  }
}
