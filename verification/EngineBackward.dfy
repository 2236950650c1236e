/**
 A linear saga on its way back: the rollback that follows a final failure, and the
 compensations that the queue hands out after it.
 */
module EngineBackward {
  import opened Definitions
  import opened Searches
  import opened Rollback
  import opened JoinStates
  import opened Engine
  import opened EngineFrame
  import opened EngineLinear
  import opened EngineSagas
  import opened EngineForward

  // ---- The rollback ----

  /** Above the save point, rows from `hi` on are undone and those before are about to be. */
  ghost predicate Midway(s: State, i: nat, steps: Steps, main: seq<string>, ids: seq<nat>, sp: int, hi: int) {
    && Along(s, i, steps, main, ids) && RunsOk(s, steps, main, ids) && -1 <= sp < hi <= |ids|
    && DoneBelow(s, ids, sp + 1) && UndoneAbove(s, steps, main, ids, hi - 1)
    && (forall k :: sp < k < hi ==> AboutToBeUndone(s.rows[ids[k]]))
    && Queued(s, i, Pend(s, ids))
  }

  predicate AboutToBeUndone(row: Row) {
    row.status in {StepStatus.Completed, StepStatus.Failed} && row.comp == 0
  }

  lemma {:induction false} StepMapOnLine(s: State, i: nat, steps: Steps, main: seq<string>, ids: seq<nat>, k: nat)
    requires Issued(s) && Along(s, i, steps, main, ids) && NoDuplicates(main) && k < |ids|
    ensures main[k] in StepMap(s, i, s.nextRow) && StepMap(s, i, s.nextRow)[main[k]] == ids[k]
  {
    var m := StepMap(s, i, s.nextRow);
    RowsOnLine(s, i, steps, main, ids, k);
    assert s.rows[ids[k]].name in m;
    var id := m[main[k]];
    assert IsRowOf(s, i, id) && id in ids;
    var j :| 0 <= j < |ids| && ids[j] == id;
    RowsOnLine(s, i, steps, main, ids, j);
    assert main[j] == main[k];
  }

  /** What a row that is undone becomes: rolled back, given up on, or sent to its compensation. */
  function UndoneRow(steps: Steps, row: Row, d: StepDef): Row {
    if d.onFailure !in steps then row.(status := RolledBack)
    else if row.comp >= steps[d.onFailure].maxRetries then row.(status := StepStatus.Failed, retry := row.retry + 1)
    else row.(status := Compensation, comp := row.comp + 1)
  }

  lemma UndoesRow(s: State, i: nat, steps: Steps, id: nat, row: Row)
    requires id in s.rows && s.rows[id] == row && row.name in steps
    ensures RollbackRow(s, i, steps, id, row).rows == s.rows[id := UndoneRow(steps, row, steps[row.name])]
  {
  }

  lemma UndoesRest(s: State, i: nat, steps: Steps, id: nat, row: Row)
    requires id in s.rows && s.rows[id] == row && row.name in steps && row.status != Compensation
    ensures var s' := RollbackRow(s, i, steps, id, row);
            && s'.log == s.log && s'.instances == s.instances
            && if UndoneRow(steps, row, steps[row.name]).status == Compensation
               then s'.queue == s.queue[s.nextItem := Item(i, id)] && s'.nextItem == s.nextItem + 1
               else s'.queue == s.queue && s'.nextItem == s.nextItem
  {
    var onFailure, s' := steps[row.name].onFailure, RollbackRow(s, i, steps, id, row);
    if onFailure in steps && row.comp < steps[onFailure].maxRetries {
      assert s' == Enqueue(SetCompensation(s, id, row.comp + 1), i, id);
    } else if onFailure in steps {
      assert s' == Bury(SetStatus(s, id, StepStatus.Failed), i, id);
    }
  }

  lemma UndoneRowIsUndone(s: State, s': State, steps: Steps, id: nat, row: Row, d: StepDef)
    requires id in s.rows && s.rows[id] == row && AboutToBeUndone(row) && CompensatedOk(s, steps, id, d)
    requires id in s'.rows && s'.rows[id] == UndoneRow(steps, row, d) && s'.log == s.log
    ensures Undone(steps, s'.rows[id], d) && CompensatedOk(s', steps, id, d) && SameIdentity(row, s'.rows[id])
    ensures s'.rows[id].status == Compensation ==> row.status != Compensation
  {
  }

  ghost predicate FreshItems(s: State) {
    forall q :: q in s.queue ==> q < s.nextItem
  }

  lemma MidwayStep(s: State, i: nat, steps: Steps, main: seq<string>, ids: seq<nat>, sp: int, hi: int)
    requires Midway(s, i, steps, main, ids, sp, hi) && sp + 1 < hi && FreshItems(s)
    ensures var s' := RollbackRow(s, i, steps, ids[hi - 1], s.rows[ids[hi - 1]]);
            && Midway(s', i, steps, main, ids, sp, hi - 1) && FreshItems(s') && s'.instances == s.instances
            && forall k :: 0 <= k < hi - 1 ==> ids[k] in s'.rows && s'.rows[ids[k]] == s.rows[ids[k]]
  {
    hide Along, CompensatedOk, Undone, Queued, Pend, UndoneRow, RollbackRow;
    var id := ids[hi - 1];
    RowsDiffer(s, i, steps, main, ids, hi - 1);
    RowsOnLine(s, i, steps, main, ids, hi - 1);
    var s' := RollbackRow(s, i, steps, id, s.rows[id]);
    UndoesRow(s, i, steps, id, s.rows[id]);
    UndoesRest(s, i, steps, id, s.rows[id]);
    assert CompensatedOk(s, steps, id, steps[main[hi - 1]]);
    UndoneRowIsUndone(s, s', steps, id, s.rows[id], steps[main[hi - 1]]);
    RunsOne(s, s', steps, main, ids, hi - 1);
    AlongSame(s, s', i, steps, main, ids);
    assert DoneBelow(s', ids, sp + 1);
    assert UndoneAbove(s', steps, main, ids, hi - 2);
    PendGrows(s, s', i, ids, hi - 1);
  }

  /** The queue follows the rows that are sent to their compensation. */
  lemma PendGrows(s: State, s': State, i: nat, ids: seq<nat>, m: nat)
    requires m < |ids| && Queued(s, i, Pend(s, ids)) && FreshItems(s)
    requires ids[m] in s.rows && s.rows[ids[m]].status != Compensation
    requires s'.rows.Keys == s.rows.Keys && forall k :: k in s.rows && k != ids[m] ==> s'.rows[k] == s.rows[k]
    requires s'.queue ==
             if s'.rows[ids[m]].status == Compensation then s.queue[s.nextItem := Item(i, ids[m])] else s.queue
    ensures Queued(s', i, Pend(s', ids))
  {
    hide Queued;
    if s'.rows[ids[m]].status == Compensation {
      assert Pend(s', ids) == Pend(s, ids) + {ids[m]};
      QueuedAdd(s, i, Pend(s, ids), ids[m]);
      QueuedSame(Enqueue(s, i, ids[m]), s', i, Pend(s', ids));
    } else {
      assert Pend(s', ids) == Pend(s, ids);
      QueuedSame(s, s', i, Pend(s', ids));
    }
  }

  /** The rollback of a line, from the top down to the save point. */
  lemma {:induction false} RollsDown(s: State, i: nat, def: Definition, main: seq<string>, ids: seq<nat>,
        before: State, sp: int, hi: int)
    requires Linear(def, main) && Issued(before) && Along(before, i, def.steps, main, ids)
    requires Midway(s, i, def.steps, main, ids, sp, hi) && FreshItems(s)
    requires forall k :: 0 <= k < hi ==>
             ids[k] in s.rows && ids[k] in before.rows && s.rows[ids[k]] == before.rows[ids[k]]
    ensures var s' := RollbackRows(s, i, def.steps, before, Downs(main, hi - 1, sp));
            Midway(s', i, def.steps, main, ids, sp, sp + 1) && s'.instances == s.instances
    decreases hi
  {
    hide Linear, Issued, Along, RunsOk, Queued, Pend, DoneBelow, UndoneAbove, RollbackRow, FreshItems;
    if hi - 1 > sp {
      RowsDiffer(s, i, def.steps, main, ids, hi - 1);
      var calls := Downs(main, hi - 1, sp);
      assert calls[0] == main[hi - 1] && calls[1..] == Downs(main, hi - 2, sp);
      NoTwice(def, main);
      StepMapOnLine(before, i, def.steps, main, ids, hi - 1);
      RowsOnLine(s, i, def.steps, main, ids, hi - 1);
      MidwayStep(s, i, def.steps, main, ids, sp, hi);
      RollsDown(RollbackRow(s, i, def.steps, ids[hi - 1], s.rows[ids[hi - 1]]), i, def, main, ids, before, sp, hi - 1);
    }
  }

  lemma NoTwice(def: Definition, main: seq<string>)
    requires Linear(def, main)
    ensures NoDuplicates(main)
  {
  }

  /** A step that is not compensated yet is eligible for the traversal. */
  lemma EligibleOnLine(s: State, i: nat, def: Definition, main: seq<string>, ids: seq<nat>, sp: int, target: string)
    requires Linear(def, main) && Issued(s) && Midway(s, i, def.steps, main, ids, sp, |ids|) && |ids| <= |main|
    ensures forall j :: sp < j < |ids| ==> Scene(def.steps, Statuses(s, i), target).Eligible(main[j])
  {
    hide Linear, Issued, Along, RunsOk, Queued, Pend, DoneBelow, UndoneAbove;
    NoTwice(def, main);
    forall j | sp < j < |ids|
      ensures Scene(def.steps, Statuses(s, i), target).Eligible(main[j])
    {
      StepMapOnLine(s, i, def.steps, main, ids, j);
    }
  }

  /** After a final failure everything above the save point is undone. */
  lemma RollsBack(s: State, i: nat, def: Definition, main: seq<string>, ids: seq<nat>, sp: int)
    requires Linear(def, main) && Issued(s) && Midway(s, i, def.steps, main, ids, sp, |ids|)
    requires Nearest(def, main, |ids| - 1, sp) && i in s.instances
    ensures Backward(SetInstance(RollbackFrom(s, i, def.steps, main[|ids| - 1], TargetOf(main, sp)).0, i,
                                 WorkflowStatus.Failed),
                     i, def, main, ids, sp)
  {
    hide Linear, Issued, RunsOk, Queued, Pend, DoneBelow, UndoneAbove, Scene.Chain, Scene.Eligible, RollbackRows;
    hide StepMap, Statuses, FreshItems, SetInstance;
    RowsDiffer(s, i, def.steps, main, ids, 0);
    hide Along;
    EligibleOnLine(s, i, def, main, ids, sp, TargetOf(main, sp));
    ChainOnLine(def, main, Statuses(s, i), |ids| - 1, sp, {});
    assert FreshItems(s) by { ItemsFresh(s); }
    RollsDown(s, i, def, main, ids, s, sp, |ids|);
    var s' := RollbackFrom(s, i, def.steps, main[|ids| - 1], TargetOf(main, sp)).0;
    StatusOnly(s', i, def.steps, main, ids, WorkflowStatus.Failed);
  }

  lemma ItemsFresh(s: State)
    requires Issued(s)
    ensures FreshItems(s)
  {
  }

  /** A step that fails for good sends the saga backward. */
  lemma TurnsBack(s: State, q: nat, c: Choice, i: nat, def: Definition, main: seq<string>, ids: seq<nat>, sp: int)
    requires Picked(s, q, c, i, def, main, ids) && Nearest(def, main, |ids| - 1, sp)
    requires !LacksHandler(def.steps, s.rows[LastOf(ids)], c) && def.steps[main[|ids| - 1]].kind != SavePoint
    requires !c.succeeds
    requires s.rows[LastOf(ids)].retry + 1 >= RunLimit(def.steps[main[|ids| - 1]])
    ensures Backward(ExecuteNext(s, q, c), i, def, main, ids, sp)
  {
    hide LacksHandler, Queued, Along, RunsOk, DoneBelow, FailedRun, ExecuteNext, RollbackFrom;
    PickedFacts(s, q, c, i, def, main, ids);
    FailsForGood(s, q, c, i, def, main, ids, sp);
    SagaFailed(s, q, c, i, def, main, ids);
    var id, d := LastOf(ids), def.steps[main[|ids| - 1]];
    var p0 := FailedRun(s, q, id, d);
    var p := Note(p0, Ended(id, false));
    FailedIsIssued(s, q, c, i, def, main, ids);
    EndedOnly(p0, i, def.steps, main, ids, Ended(id, false));
    FailedIsMidway(p, i, def.steps, main, ids, sp);
    RollsBack(p, i, def, main, ids, sp);
  }

  lemma EndedOnly(p: State, i: nat, steps: Steps, main: seq<string>, ids: seq<nat>, e: Entry)
    requires Along(p, i, steps, main, ids) && RunsOk(p, steps, main, ids) && e.Ended?
    ensures var s := Note(p, e); Along(s, i, steps, main, ids) && RunsOk(s, steps, main, ids)
    ensures forall n :: DoneBelow(p, ids, n) ==> DoneBelow(Note(p, e), ids, n)
    ensures forall pending :: Queued(p, i, pending) ==> Queued(Note(p, e), i, pending)
  {
    var s := Note(p, e);
    AlongSame(p, s, i, steps, main, ids);
    forall k | 0 <= k < |ids|
      ensures Count(s.log, Ran(ids[k])) == Count(p.log, Ran(ids[k]))
      ensures Count(s.log, Compensated(ids[k])) == Count(p.log, Compensated(ids[k]))
    {
      CountNote(p.log, e, Ran(ids[k]));
      CountNote(p.log, e, Compensated(ids[k]));
    }
    forall pending | Queued(p, i, pending) ensures Queued(s, i, pending) { QueuedSame(p, s, i, pending); }
  }

  lemma FailedIsIssued(s: State, q: nat, c: Choice, i: nat, def: Definition, main: seq<string>, ids: seq<nat>)
    requires Picked(s, q, c, i, def, main, ids)
    ensures var id := LastOf(ids);
            Issued(Note(FailedRun(s, q, id, def.steps[main[|ids| - 1]]), Ended(id, false)))
  {
    hide FailedRun;
    PickedFacts(s, q, c, i, def, main, ids);
    FailedRunIs(s, q, LastOf(ids), def.steps[main[|ids| - 1]]);
    NumbersOfFailed(s, q, LastOf(ids), def.steps[main[|ids| - 1]]);
  }

  lemma NumbersOfFailed(s: State, q: nat, id: nat, d: StepDef)
    ensures var p := FailedRun(s, q, id, d);
            p.dead == s.dead && p.nextDead == s.nextDead && p.nextInstance == s.nextInstance && p.joins == s.joins
  {
    hide SetStatus;
    var s1 := RemoveItem(s, q);
    StatusTouchesRows(s1, id, StepStatus.Running);
    StatusTouchesRows(AfterRun(s, q, id, d), id, StepStatus.Failed);
  }

  lemma StatusTouchesRows(s: State, id: nat, status: StepStatus)
    ensures SetStatus(s, id, status) == s.(rows := SetStatus(s, id, status).rows)
  {
  }

  lemma FailedIsMidway(p: State, i: nat, steps: Steps, main: seq<string>, ids: seq<nat>, sp: int)
    requires Along(p, i, steps, main, ids) && RunsOk(p, steps, main, ids) && DoneBelow(p, ids, |ids| - 1)
    requires LastOf(ids) in p.rows && p.rows[LastOf(ids)].status == StepStatus.Failed && p.rows[LastOf(ids)].comp == 0
    requires Queued(p, i, {}) && -1 <= sp < |ids| - 1
    ensures Midway(p, i, steps, main, ids, sp, |ids|)
  {
    hide RunsOk, Queued;
    RowsDiffer(p, i, steps, main, ids, |ids| - 1);
    forall k | 0 <= k < |ids|
      ensures p.rows[ids[k]].status != Compensation && AboutToBeUndone(p.rows[ids[k]])
    {
      if k < |ids| - 1 {
        assert Done(p.rows[ids[k]]);
      }
    }
    assert Pend(p, ids) == {};
  }

  // ---- Compensations ----

  /** An ExecuteNext picks an item of a saga on its way back. */
  ghost predicate PickedBack(s: State, q: nat, i: nat, def: Definition, main: seq<string>, ids: seq<nat>, sp: int,
        m: nat) {
    && Issued(s) && q in s.queue && DefinedFor(s, i) && DefOf(s, i) == def
    && Backward(s, i, def, main, ids, sp)
    && m < |ids| && s.queue[q] == Item(i, ids[m]) && ids[m] in Pend(s, ids)
  }

  /** The item belongs to a row under compensation. */
  lemma FindsPicked(s: State, q: nat, i: nat, def: Definition, main: seq<string>, ids: seq<nat>,
        sp: int) returns (m: nat)
    requires Issued(s) && q in s.queue && s.queue[q].instance == i && DefinedFor(s, i) && DefOf(s, i) == def
    requires Backward(s, i, def, main, ids, sp)
    ensures PickedBack(s, q, i, def, main, ids, sp, m)
  {
    assert s.queue[q].row in Pend(s, ids);
    m :| 0 <= m < |ids| && ids[m] == s.queue[q].row;
  }

  lemma PickedBackFacts(s: State, q: nat, i: nat, def: Definition, main: seq<string>, ids: seq<nat>, sp: int, m: nat)
    requires PickedBack(s, q, i, def, main, ids, sp, m)
    ensures m < |main| && sp < m && main[m] in def.steps && ids[m] in s.rows
    ensures var row := s.rows[ids[m]];
            && row.name == main[m] && row.instance == i && Compensating(def.steps, row, def.steps[main[m]])
            && CompensatedOk(s, def.steps, ids[m], def.steps[main[m]])
    ensures Runnable(s, q) && !Drops(s, q)
  {
    RowsOnLine(s, i, def.steps, main, ids, m);
    if m <= sp {
      assert false;
    }
    assert Undone(def.steps, s.rows[ids[m]], def.steps[main[m]]);
  }

  /** What a compensation run makes of its row. */
  function CompensatedRow(steps: Steps, row: Row, d: StepDef, succeeds: bool): Row {
    if succeeds then row.(status := RolledBack)
    else if d.onFailure in steps && row.comp < steps[d.onFailure].maxRetries then row.(comp := row.comp + 1)
    else row.(status := StepStatus.Failed, retry := row.retry + 1)
  }

  /** The state after a compensation run, spelled out. */
  ghost predicate AfterCompensation(s: State, s': State, q: nat, i: nat, id: nat, row': Row)
    requires id in s.rows
  {
    && s'.rows == s.rows[id := row']
    && s'.log == s.log + [Compensated(id)]
    && InStatus(s', i, WorkflowStatus.Failed)
    && s'.queue == if row'.status == Compensation then (s.queue - {q})[s.nextItem := Item(i, id)] else s.queue - {q}
  }

  lemma Compensates(s: State, q: nat, c: Choice, i: nat, def: Definition, main: seq<string>, ids: seq<nat>,
        sp: int, m: nat)
    requires PickedBack(s, q, i, def, main, ids, sp, m) && c.hasHandler
    ensures ids[m] in s.rows && main[m] in def.steps
    ensures AfterCompensation(s, ExecuteNext(s, q, c), q, i, ids[m],
                              CompensatedRow(def.steps, s.rows[ids[m]], def.steps[main[m]], c.succeeds))
  {
    PickedBackFacts(s, q, i, def, main, ids, sp, m);
    hide Backward, Issued, Runnable, Drops;
    ExecuteIsHandle(s, q, c);
    CompensationIs(RemoveItem(s, q), i, def.steps, ids[m], s.rows[ids[m]], c);
    assert InStatus(s, i, WorkflowStatus.Failed) by { BackwardStatus(s, i, def, main, ids, sp); }
  }

  lemma BackwardStatus(s: State, i: nat, def: Definition, main: seq<string>, ids: seq<nat>, sp: int)
    requires Backward(s, i, def, main, ids, sp)
    ensures InStatus(s, i, WorkflowStatus.Failed)
  {
  }

  lemma CompensationIs(s: State, i: nat, steps: Steps, id: nat, row: Row, c: Choice)
    requires id in s.rows && s.rows[id] == row && row.name in steps && Compensating(steps, row, steps[row.name])
    requires InStatus(s, i, WorkflowStatus.Failed)
    ensures var s' := ExecuteCompensation(s, i, steps, id, row, c);
            var row' := CompensatedRow(steps, row, steps[row.name], c.succeeds);
            && s'.rows == s.rows[id := row'] && s'.log == s.log + [Compensated(id)]
            && InStatus(s', i, WorkflowStatus.Failed)
            && s'.queue == if row'.status == Compensation then s.queue[s.nextItem := Item(i, id)] else s.queue
  {
    hide Unfinished, HasStatus;
    if c.succeeds {
      var s1 := SetStatus(Note(s, Compensated(id)), id, RolledBack);
      assert SettleRollback(s1, i) in {s1, SetInstance(s1, i, WorkflowStatus.Failed)};
    }
  }

  lemma CompensatedRowIsUndone(s: State, s': State, steps: Steps, id: nat, row: Row, d: StepDef, succeeds: bool)
    requires id in s.rows && s.rows[id] == row && Compensating(steps, row, d) && CompensatedOk(s, steps, id, d)
    requires id in s'.rows && s'.rows[id] == CompensatedRow(steps, row, d, succeeds)
    requires s'.log == s.log + [Compensated(id)]
    ensures Undone(steps, s'.rows[id], d) && CompensatedOk(s', steps, id, d) && SameIdentity(row, s'.rows[id])
    ensures Count(s'.log, Ran(id)) == Count(s.log, Ran(id))
  {
    CountNote(s.log, Compensated(id), Compensated(id));
    CountNote(s.log, Compensated(id), Ran(id));
  }

  /** A compensation run keeps the saga on its way back. */
  lemma StaysBack(s: State, q: nat, c: Choice, i: nat, def: Definition, main: seq<string>, ids: seq<nat>, sp: int,
        m: nat)
    requires PickedBack(s, q, i, def, main, ids, sp, m) && c.hasHandler
    ensures Backward(ExecuteNext(s, q, c), i, def, main, ids, sp)
  {
    hide Along, Queued, Pend, CompensatedOk, Undone, CompensatedRow, ExecuteNext, Issued;
    PickedBackFacts(s, q, i, def, main, ids, sp, m);
    Compensates(s, q, c, i, def, main, ids, sp, m);
    var s', id := ExecuteNext(s, q, c), ids[m];
    CompensatedRowIsUndone(s, s', def.steps, id, s.rows[id], def.steps[main[m]], c.succeeds);
    RowsDiffer(s, i, def.steps, main, ids, m);
    RunsOne(s, s', def.steps, main, ids, m);
    AlongSame(s, s', i, def.steps, main, ids);
    assert FreshItems(s) by { ItemsFresh(s); }
    PendShrinks(s, s', q, i, ids, m);
  }

  lemma PendShrinks(s: State, s': State, q: nat, i: nat, ids: seq<nat>, m: nat)
    requires m < |ids| && Queued(s, i, Pend(s, ids)) && FreshItems(s)
    requires q in s.queue && s.queue[q] == Item(i, ids[m]) && ids[m] in Pend(s, ids)
    requires ids[m] in s'.rows && s'.rows == s.rows[ids[m] := s'.rows[ids[m]]]
    requires s'.queue ==
             if s'.rows[ids[m]].status == Compensation then (s.queue - {q})[s.nextItem := Item(i, ids[m])]
             else s.queue - {q}
    ensures Queued(s', i, Pend(s', ids))
  {
    hide Queued;
    var rest := Pend(s, ids) - {ids[m]};
    QueuedRemove(s, i, Pend(s, ids), q);
    var s1 := RemoveItem(s, q);
    if s'.rows[ids[m]].status == Compensation {
      assert Pend(s', ids) == rest + {ids[m]};
      QueuedAdd(s1, i, rest, ids[m]);
      QueuedSame(Enqueue(s1, i, ids[m]), s', i, Pend(s', ids));
    } else {
      assert Pend(s', ids) == rest;
      QueuedSame(s1, s', i, Pend(s', ids));
    }
  }
}
