/**
 Whole runs of linear sagas, any number of instances at once, with any workers and handlers:
 every saga is atomic, each handler runs only so often, and the work comes to an end.
 */
module EngineAtomicity {
  import opened Definitions
  import opened Validator
  import opened Rollback
  import opened JoinStates
  import opened Engine
  import opened EngineFrame
  import opened EngineRuns
  import opened EngineLinear
  import opened EngineSagas
  import opened EngineForward
  import opened EngineBackward

  // ---- How much work is left ----

  function RunBudget(steps: Steps, main: seq<string>, k: nat): nat
    decreases |main| - k
  {
    if k >= |main| then 0 else RunLimit(StepAt(steps, main[k])) + RunBudget(steps, main, k + 1)
  }

  function CompBudget(steps: Steps, main: seq<string>, n: nat): nat
    requires n <= |main|
  {
    if n == 0 then 0 else CompBudget(steps, main, n - 1) + CompLimit(steps, StepAt(steps, main[n - 1]))
  }

  /** Compensation runs that a row may still have. */
  function Left(steps: Steps, row: Row, d: StepDef): nat {
    if row.status == Compensation && row.comp <= CompLimit(steps, d) then CompLimit(steps, d) - row.comp + 1 else 0
  }

  function LeftAt(s: State, steps: Steps, name: string, id: nat): nat {
    if id in s.rows then Left(steps, s.rows[id], StepAt(steps, name)) else 0
  }

  function LeftBudget(s: State, steps: Steps, main: seq<string>, ids: seq<nat>, n: nat): nat
    requires n <= |ids| <= |main|
  {
    if n == 0 then 0 else LeftBudget(s, steps, main, ids, n - 1) + LeftAt(s, steps, main[n - 1], ids[n - 1])
  }

  function RunsLeft(s: State, steps: Steps, name: string, id: nat): nat {
    if id in s.rows && s.rows[id].retry <= RunLimit(StepAt(steps, name))
    then RunLimit(StepAt(steps, name)) - s.rows[id].retry else 0
  }

  /** A natural number that every effective ExecuteNext on the instance makes smaller. */
  function Measure(s: State, i: nat, steps: Steps, main: seq<string>, ids: seq<nat>): nat
    requires 0 < |ids| <= |main|
  {
    if InStatus(s, i, WorkflowStatus.Running)
    then RunsLeft(s, steps, main[|ids| - 1], LastOf(ids)) + RunBudget(steps, main, |ids|)
         + CompBudget(steps, main, |main|)
    else LeftBudget(s, steps, main, ids, |ids|)
  }

  /** All handler and compensation runs that a workflow can need. */
  function Budget(steps: Steps, main: seq<string>): nat {
    RunBudget(steps, main, 0) + CompBudget(steps, main, |main|)
  }

  lemma {:induction false} LeftOfUndone(s: State, steps: Steps, main: seq<string>, ids: seq<nat>, sp: int, n: nat)
    requires |ids| <= |main| && n <= |ids|
    requires UndoneAbove(s, steps, main, ids, sp) && DoneBelow(s, ids, sp + 1)
    requires forall k :: 0 <= k < |ids| && ids[k] in s.rows && s.rows[ids[k]].status == Compensation ==>
             s.rows[ids[k]].comp >= 1
    ensures LeftBudget(s, steps, main, ids, n) <= CompBudget(steps, main, n)
    decreases n
  {
    if n > 0 {
      LeftOfUndone(s, steps, main, ids, sp, n - 1);
    }
  }

  lemma {:induction false} CompBudgetGrows(steps: Steps, main: seq<string>, m: nat, n: nat)
    requires m <= n <= |main|
    ensures CompBudget(steps, main, m) <= CompBudget(steps, main, n)
    decreases n
  {
    if m < n {
      CompBudgetGrows(steps, main, m, n - 1);
    }
  }

  lemma {:induction false} LeftOfDone(s: State, steps: Steps, main: seq<string>, ids: seq<nat>, n: nat)
    requires n <= |ids| <= |main| && DoneBelow(s, ids, n)
    ensures LeftBudget(s, steps, main, ids, n) == 0
    decreases n
  {
    if n > 0 {
      assert Done(s.rows[ids[n - 1]]);
      LeftOfDone(s, steps, main, ids, n - 1);
    }
  }

  /** Only one row changes, and it has less left. */
  lemma {:induction false} LeftShrinks(s: State, s': State, steps: Steps, main: seq<string>, ids: seq<nat>, m: nat,
        n: nat)
    requires |ids| <= |main| && n <= |ids| && m < |ids|
    requires forall k :: 0 <= k < |ids| && k != m ==>
             ids[k] in s.rows && ids[k] in s'.rows && s'.rows[ids[k]] == s.rows[ids[k]]
    requires LeftAt(s', steps, main[m], ids[m]) < LeftAt(s, steps, main[m], ids[m])
    ensures LeftBudget(s', steps, main, ids, n) <= LeftBudget(s, steps, main, ids, n)
    ensures m < n ==> LeftBudget(s', steps, main, ids, n) < LeftBudget(s, steps, main, ids, n)
    decreases n
  {
    if n > 0 {
      LeftShrinks(s, s', steps, main, ids, m, n - 1);
    }
  }

  // ---- One ExecuteNext on a saga ----

  /** The worker gives the item back because it lacks the handler. */
  ghost predicate GivesBack(s: State, q: nat, c: Choice) {
    Runnable(s, q) && LacksHandler(DefOf(s, s.queue[q].instance).steps, s.rows[s.queue[q].row], c)
  }

  lemma GivesBackChangesNothing(s: State, q: nat, c: Choice)
    requires GivesBack(s, q, c)
    ensures ExecuteNext(s, q, c) == s
  {
  }

  /** A saga, one of its items, and a worker that can handle it. */
  ghost predicate Works(s: State, q: nat, c: Choice, i: nat, def: Definition, main: seq<string>, ids: seq<nat>) {
    && Issued(s) && s.cancels == map[] && c.late.None?
    && q in s.queue && s.queue[q].instance == i && DefinedFor(s, i) && DefOf(s, i) == def && Linear(def, main)
    && 0 < |ids| <= |main| && Saga(s, i, def, main, ids) && !GivesBack(s, q, c)
  }

  lemma WorksForward(s: State, q: nat, c: Choice, i: nat, def: Definition, main: seq<string>,
        ids: seq<nat>) returns (ids': seq<nat>)
    requires Works(s, q, c, i, def, main, ids) && Forward(s, i, def.steps, main, ids)
    ensures 0 < |ids'| <= |main| && Saga(ExecuteNext(s, q, c), i, def, main, ids')
    ensures Measure(ExecuteNext(s, q, c), i, def.steps, main, ids') < Measure(s, i, def.steps, main, ids)
  {
    hide Along, RunsOk, Queued, DoneBelow, UndoneAbove, LacksHandler, ExecuteNext, Linear, Issued;
    assert Picked(s, q, c, i, def, main, ids);
    PickedFacts(s, q, c, i, def, main, ids);
    var d := def.steps[main[|ids| - 1]];
    ids' := ids;
    if d.kind == SavePoint || c.succeeds {
      if |ids| < |main| {
        GoesOn(s, q, c, i, def, main, ids);
        ids' := ids + [s.nextRow];
        MeasureGoesOn(s, ExecuteNext(s, q, c), i, def.steps, main, ids);
      } else {
        Finishes(s, q, c, i, def, main, ids);
        LeftOfDone(ExecuteNext(s, q, c), def.steps, main, ids, |ids|);
      }
    } else if s.rows[LastOf(ids)].retry + 1 < RunLimit(d) {
      RetriesStep(s, q, c, i, def, main, ids);
    } else {
      LineIsDefined(def, main);
      var sp := NearestExists(def, main, |ids| - 1);
      TurnsBack(s, q, c, i, def, main, ids, sp);
      MeasureTurnsBack(s, ExecuteNext(s, q, c), i, def, main, ids, sp);
    }
  }

  lemma LineIsDefined(def: Definition, main: seq<string>)
    requires Linear(def, main)
    ensures forall j :: 0 <= j < |main| ==> main[j] in def.steps
  {
    forall j | 0 <= j < |main|
      ensures main[j] in def.steps
    {
      assert OnLine(def.steps, main, j);
    }
  }

  lemma MeasureGoesOn(s: State, s': State, i: nat, steps: Steps, main: seq<string>, ids: seq<nat>)
    requires Forward(s, i, steps, main, ids) && |ids| < |main|
    requires Forward(s', i, steps, main, ids + [s.nextRow])
    ensures Measure(s', i, steps, main, ids + [s.nextRow]) < Measure(s, i, steps, main, ids)
  {
    hide RunsOk, Queued, DoneBelow;
    assert RunBudget(steps, main, |ids|) == RunLimit(StepAt(steps, main[|ids|])) + RunBudget(steps, main, |ids| + 1);
    assert LastOf(ids + [s.nextRow]) == s.nextRow;
    RowsOnLine(s, i, steps, main, ids, |ids| - 1);
  }

  lemma MeasureTurnsBack(s: State, s': State, i: nat, def: Definition, main: seq<string>, ids: seq<nat>, sp: int)
    requires Forward(s, i, def.steps, main, ids) && Backward(s', i, def, main, ids, sp)
    ensures Measure(s', i, def.steps, main, ids) < Measure(s, i, def.steps, main, ids)
  {
    hide RunsOk, Queued;
    RowsOnLine(s, i, def.steps, main, ids, |ids| - 1);
    forall k | 0 <= k < |ids| && ids[k] in s'.rows && s'.rows[ids[k]].status == Compensation
      ensures s'.rows[ids[k]].comp >= 1
    {
      if k <= sp {
        assert false;
      } else {
        assert Undone(def.steps, s'.rows[ids[k]], def.steps[main[k]]);
      }
    }
    LeftOfUndone(s', def.steps, main, ids, sp, |ids|);
    CompBudgetGrows(def.steps, main, |ids|, |main|);
  }

  lemma WorksBackward(s: State, q: nat, c: Choice, i: nat, def: Definition, main: seq<string>, ids: seq<nat>, sp: int)
    requires Works(s, q, c, i, def, main, ids) && Backward(s, i, def, main, ids, sp)
    ensures Backward(ExecuteNext(s, q, c), i, def, main, ids, sp)
    ensures Measure(ExecuteNext(s, q, c), i, def.steps, main, ids) < Measure(s, i, def.steps, main, ids)
  {
    hide Along, RunsOk, Queued, Pend, DoneBelow, UndoneAbove, ExecuteNext, Linear, Issued;
    var m := FindsPicked(s, q, i, def, main, ids, sp);
    PickedBackFacts(s, q, i, def, main, ids, sp, m);
    assert c.hasHandler;
    StaysBack(s, q, c, i, def, main, ids, sp, m);
    Compensates(s, q, c, i, def, main, ids, sp, m);
    RowsDiffer(s, i, def.steps, main, ids, m);
    LeftShrinks(s, ExecuteNext(s, q, c), def.steps, main, ids, m, |ids|);
  }

  /** One effective ExecuteNext on a saga: it stays a saga and has less to do. */
  lemma WorksOn(s: State, q: nat, c: Choice, i: nat, def: Definition, main: seq<string>,
        ids: seq<nat>) returns (ids': seq<nat>)
    requires Works(s, q, c, i, def, main, ids)
    ensures 0 < |ids'| <= |main| && Saga(ExecuteNext(s, q, c), i, def, main, ids')
    ensures Measure(ExecuteNext(s, q, c), i, def.steps, main, ids') < Measure(s, i, def.steps, main, ids)
  {
    hide Forward, Backward, ExecuteNext, Measure;
    assert !Finished(s, i, def.steps, main, ids) by {
      assert s.queue[q].row !in {};
    }
    if Forward(s, i, def.steps, main, ids) {
      ids' := WorksForward(s, q, c, i, def, main, ids);
    } else {
      var sp :| Backward(s, i, def, main, ids, sp);
      WorksBackward(s, q, c, i, def, main, ids, sp);
      ids' := ids;
    }
  }

  // ---- Any number of sagas ----

  type Lines = map<string, seq<string>>  // the line of each workflow

  ghost predicate AllLinear(defs: map<string, Definition>, lines: Lines) {
    forall w :: w in defs ==> w in lines && Linear(defs[w], lines[w])
  }

  function LineOf(s: State, i: nat, lines: Lines): seq<string> {
    if i in s.instances && s.instances[i].workflow in lines then lines[s.instances[i].workflow] else []
  }

  ghost predicate SagaAlong(s: State, i: nat, lines: Lines, ids: seq<nat>) {
    && DefinedFor(s, i) && 0 < |ids| <= |LineOf(s, i, lines)|
    && Saga(s, i, DefOf(s, i), LineOf(s, i, lines), ids)
  }

  ghost predicate HasSaga(s: State, i: nat, lines: Lines) {
    exists ids :: SagaAlong(s, i, lines, ids)
  }

  /** Every instance is a saga, and no cancel request is open. */
  ghost predicate World(s: State, lines: Lines) {
    && Issued(s) && s.cancels == map[] && AllLinear(s.defs, lines)
    && forall i :: i in s.instances ==> HasSaga(s, i, lines)
  }

  /** Starting workflows and executing steps, without cancellation and requeueing. */
  predicate Plain(e: Event) {
    e.Start? || (e.Execute? && e.choice.late.None?)
  }

  /** Nothing of the instance has changed. */
  ghost predicate Same(s: State, s': State, k: nat) {
    && s'.defs == s.defs
    && (k in s.instances <==> k in s'.instances) && (k in s.instances ==> s'.instances[k] == s.instances[k])
    && (forall id :: IsRowOf(s, k, id) ==> IsRowOf(s', k, id) && s'.rows[id] == s.rows[id])
    && (forall id :: IsRowOf(s', k, id) ==> IsRowOf(s, k, id))
    && (forall q :: q in s.queue && s.queue[q].instance == k ==> q in s'.queue && s'.queue[q] == s.queue[q])
    && (forall q :: q in s'.queue && s'.queue[q].instance == k ==> q in s.queue && s'.queue[q] == s.queue[q])
    && s.log <= s'.log
    && (forall j :: |s.log| <= j < |s'.log| ==> !IsRowOf(s, k, s'.log[j].row))
  }

  lemma OthersAreSame(s: State, s': State, i: nat, k: nat)
    requires Issued(s) && Keeps(s, s', i) && k != i
    ensures Same(s, s', k)
  {
  }

  lemma OthersAreSameOrFroze(s: State, s': State, i: nat, k: nat)
    requires Issued(s) && KeepsOrFroze(s, s', i) && k != i
    ensures Same(s, s', k)
  {
    hide Keeps, Issued;
    if Keeps(s, s', i) {
      OthersAreSame(s, s', i, k);
    } else {
      var s1 :| Keeps(s, s1, i) && NoItems(s1, i) && s' == SetInstance(s1, i, Dlq);
      OthersAreSame(s, s1, i, k);
    }
  }

  lemma SameQueued(s: State, s': State, k: nat, pending: set<nat>)
    requires Same(s, s', k) && Queued(s, k, pending)
    ensures Queued(s', k, pending)
  {
    forall id | id in pending
      ensures HasItem(s', k, id)
    {
      var q :| q in s.queue && s.queue[q] == Item(k, id);
      assert s'.queue[q] == Item(k, id);
    }
  }

  lemma SameAlong(s: State, s': State, k: nat, steps: Steps, main: seq<string>, ids: seq<nat>)
    requires Same(s, s', k) && Along(s, k, steps, main, ids)
    ensures Along(s', k, steps, main, ids)
    ensures forall m :: 0 <= m < |ids| ==> ids[m] in s.rows && ids[m] in s'.rows && s'.rows[ids[m]] == s.rows[ids[m]]
  {
    forall m | 0 <= m < |ids|
      ensures RowFor(s', k, ids[m], main[m], steps[main[m]])
      ensures ids[m] in s.rows && ids[m] in s'.rows && s'.rows[ids[m]] == s.rows[ids[m]]
    {
      assert RowFor(s, k, ids[m], main[m], steps[main[m]]);
    }
    forall id: nat | IsRowOf(s', k, id)
      ensures id in ids
    {
      assert IsRowOf(s, k, id);
    }
  }

  lemma SameRuns(s: State, s': State, k: nat, steps: Steps, main: seq<string>, ids: seq<nat>)
    requires Same(s, s', k) && Along(s, k, steps, main, ids) && RunsOk(s, steps, main, ids)
    ensures RunsOk(s', steps, main, ids)
    ensures forall m :: 0 <= m < |ids| ==> Count(s'.log, Ran(ids[m])) == Count(s.log, Ran(ids[m]))
  {
    SameAlong(s, s', k, steps, main, ids);
    forall m | 0 <= m < |ids|
      ensures Count(s'.log, Ran(ids[m])) == Count(s.log, Ran(ids[m]))
      ensures Count(s'.log, Compensated(ids[m])) == Count(s.log, Compensated(ids[m]))
    {
      assert RowFor(s, k, ids[m], main[m], steps[main[m]]);
      CountKept(s.log, s'.log, Ran(ids[m]));
      CountKept(s.log, s'.log, Compensated(ids[m]));
    }
  }

  /** An instance that nothing happens to stays the saga it is, with as much left to do. */
  lemma SameSaga(s: State, s': State, k: nat, def: Definition, main: seq<string>, ids: seq<nat>)
    requires Same(s, s', k) && Saga(s, k, def, main, ids) && 0 < |ids| <= |main|
    ensures Saga(s', k, def, main, ids)
    ensures Measure(s', k, def.steps, main, ids) == Measure(s, k, def.steps, main, ids)
  {
    hide Same, Along, RunsOk, Queued;
    var steps := def.steps;
    assert Along(s, k, steps, main, ids) && RunsOk(s, steps, main, ids);
    SameAlong(s, s', k, steps, main, ids);
    SameRuns(s, s', k, steps, main, ids);
    SameStatus(s, s', k);
    SameLeft(s, s', steps, main, ids, |ids|);
    assert Pend(s', ids) == Pend(s, ids);
    if Forward(s, k, steps, main, ids) {
      SameQueued(s, s', k, {ids[|ids| - 1]});
    } else if Finished(s, k, steps, main, ids) {
      SameQueued(s, s', k, {});
    } else {
      var sp :| Backward(s, k, def, main, ids, sp);
      SameQueued(s, s', k, Pend(s, ids));
      assert Backward(s', k, def, main, ids, sp);
    }
  }

  lemma SameStatus(s: State, s': State, k: nat)
    requires Same(s, s', k)
    ensures forall status :: InStatus(s', k, status) <==> InStatus(s, k, status)
  {
  }

  lemma {:induction false} SameLeft(s: State, s': State, steps: Steps, main: seq<string>, ids: seq<nat>, n: nat)
    requires n <= |ids| <= |main|
    requires forall m :: 0 <= m < |ids| ==> ids[m] in s.rows && ids[m] in s'.rows && s'.rows[ids[m]] == s.rows[ids[m]]
    ensures LeftBudget(s', steps, main, ids, n) == LeftBudget(s, steps, main, ids, n)
    decreases n
  {
    if n > 0 {
      SameLeft(s, s', steps, main, ids, n - 1);
    }
  }

  /** The same for a saga with its line looked up. */
  lemma SameSagaAlong(s: State, s': State, k: nat, lines: Lines, ids: seq<nat>)
    requires Same(s, s', k) && SagaAlong(s, k, lines, ids)
    ensures SagaAlong(s', k, lines, ids)
    ensures LineOf(s', k, lines) == LineOf(s, k, lines) && DefOf(s', k) == DefOf(s, k)
    ensures Measure(s', k, DefOf(s', k).steps, LineOf(s', k, lines), ids) ==
            Measure(s, k, DefOf(s, k).steps, LineOf(s, k, lines), ids)
  {
    hide Saga, Measure;
    assert s'.defs == s.defs && s'.instances[k] == s.instances[k];
    SameSaga(s, s', k, DefOf(s, k), LineOf(s, k, lines), ids);
  }

  /** A saga never lets an ExecuteNext drop one of its items. */
  lemma NeverDrops(s: State, q: nat, c: Choice, lines: Lines)
    requires World(s, lines) && q in s.queue && c.late.None?
    ensures !Drops(s, q) && KeepsOrFroze(s, ExecuteNext(s, q, c), s.queue[q].instance)
    ensures s.queue[q].instance in s.instances
  {
    hide Linear, KeepsOrFroze, ExecuteNext, SagaAlong;
    var i := s.queue[q].instance;
    assert i in s.instances && HasSaga(s, i, lines);
    var ids :| SagaAlong(s, i, lines, ids);
    PickedIsKept(s, q, c, lines, ids);
    ExecuteNextKeeps(s, q, c);
  }

  lemma PickedIsKept(s: State, q: nat, c: Choice, lines: Lines, ids: seq<nat>)
    requires World(s, lines) && q in s.queue && c.late.None? && SagaAlong(s, s.queue[q].instance, lines, ids)
    ensures !Drops(s, q)
  {
    hide Linear, Drops;
    var i := s.queue[q].instance;
    var def, main := DefOf(s, i), LineOf(s, i, lines);
    if Forward(s, i, def.steps, main, ids) {
      assert Picked(s, q, c, i, def, main, ids);
      PickedFacts(s, q, c, i, def, main, ids);
    } else if Finished(s, i, def.steps, main, ids) {
      assert false;
    } else {
      var sp :| Backward(s, i, def, main, ids, sp);
      var m := FindsPicked(s, q, i, def, main, ids, sp);
      PickedBackFacts(s, q, i, def, main, ids, sp, m);
    }
  }

  /** Whether an ExecuteNext picks an item of the instance and does something with it. */
  ghost predicate EffectiveOn(s: State, e: Event, i: nat) {
    e.Execute? && e.item in s.queue && s.queue[e.item].instance == i && !GivesBack(s, e.item, e.choice)
  }

  /** An instance before and after a step: the same, or a saga with less to do. */
  lemma ExecuteSaga(s: State, q: nat, c: Choice, lines: Lines, k: nat, ids: seq<nat>) returns (ids': seq<nat>)
    requires World(s, lines) && c.late.None? && SagaAlong(s, k, lines, ids)
    ensures var s' := ExecuteNext(s, q, c);
            && SagaAlong(s', k, lines, ids')
            && LineOf(s', k, lines) == LineOf(s, k, lines) && DefOf(s', k) == DefOf(s, k)
            && var before, after := Measure(s, k, DefOf(s, k).steps, LineOf(s, k, lines), ids),
                                    Measure(s', k, DefOf(s', k).steps, LineOf(s', k, lines), ids');
               if EffectiveOn(s, Execute(q, c), k) then after < before else after == before
  {
    hide Saga, Measure, ExecuteNext, Linear, Same, KeepsOrFroze, Performed, GivesBack;
    var s' := ExecuteNext(s, q, c);
    ids' := ids;
    if q !in s.queue {
      NothingPicked(s, q, c);
    } else {
      NeverDrops(s, q, c, lines);
      if GivesBack(s, q, c) {
        GivesBackChangesNothing(s, q, c);
      } else if s.queue[q].instance == k {
        assert Works(s, q, c, k, DefOf(s, k), LineOf(s, k, lines), ids);
        ids' := WorksOn(s, q, c, k, DefOf(s, k), LineOf(s, k, lines), ids);
        ExecuteKeepsWorkflow(s, q, c);
      } else {
        OthersAreSameOrFroze(s, s', s.queue[q].instance, k);
        SameSagaAlong(s, s', k, lines, ids);
      }
    }
  }

  lemma ExecuteKeepsWorkflow(s: State, q: nat, c: Choice)
    requires Issued(s)
    ensures var s' := ExecuteNext(s, q, c);
            && Issued(s') && s'.defs == s.defs && s'.instances.Keys == s.instances.Keys
            && (forall k :: k in s.instances ==> s'.instances[k].workflow == s.instances[k].workflow)
            && (forall k :: k in s'.cancels ==> k in s.cancels)
  {
    hide ExecuteNext, Performed, Issued;
    ExecuteNextKeeps(s, q, c);
    Outcome(s, ExecuteNext(s, q, c), Worked(s, q));
  }

  lemma ExecuteWorld(s: State, q: nat, c: Choice, lines: Lines)
    requires World(s, lines) && c.late.None?
    ensures World(ExecuteNext(s, q, c), lines)
  {
    hide SagaAlong, ExecuteNext, Linear, Issued;
    var s' := ExecuteNext(s, q, c);
    ExecuteKeepsWorkflow(s, q, c);
    assert s'.cancels == map[];
    forall k | k in s'.instances
      ensures HasSaga(s', k, lines)
    {
      assert HasSaga(s, k, lines);
      var ids :| SagaAlong(s, k, lines, ids);
      var ids' := ExecuteSaga(s, q, c, lines, k, ids);
    }
  }

  // ---- A new saga ----

  lemma StartIs(s: State, workflow: string)
    requires workflow in s.defs && s.defs[workflow].start in s.defs[workflow].steps && WellFormed(s.defs[workflow])
    ensures var def := s.defs[workflow];
            StartWorkflow(s, workflow) ==
              Enqueue(CreateRow(NewInstance(s, workflow), NextRow(s.nextInstance, def.steps, def.start)),
                      s.nextInstance, s.nextRow)
  {
    hide WellFormed, EnqueueNext;
    var def := s.defs[workflow];
    NextOnLine(NewInstance(s, workflow), s.nextInstance, def.steps, def.start, false);
  }

  /** A new instance begins on the first step of its line, with its whole budget to spend. */
  lemma NewSaga(s: State, workflow: string, lines: Lines) returns (ids: seq<nat>)
    requires Issued(s) && AllLinear(s.defs, lines)
    requires workflow in s.defs && s.defs[workflow].start in s.defs[workflow].steps && WellFormed(s.defs[workflow])
    ensures var s' := StartWorkflow(s, workflow);
            && SagaAlong(s', s.nextInstance, lines, ids)
            && LineOf(s', s.nextInstance, lines) == lines[workflow] && DefOf(s', s.nextInstance) == s.defs[workflow]
            && Measure(s', s.nextInstance, s.defs[workflow].steps, lines[workflow], ids) ==
               Budget(s.defs[workflow].steps, lines[workflow])
  {
    hide WellFormed, StartWorkflow;
    var i, def, main, s' := s.nextInstance, s.defs[workflow], lines[workflow], StartWorkflow(s, workflow);
    StartIs(s, workflow);
    ids := [s.nextRow];
    assert OnLine(def.steps, main, 0);
    NewIsForward(s, workflow, main);
    assert RunBudget(def.steps, main, 0) == RunLimit(StepAt(def.steps, main[0])) + RunBudget(def.steps, main, 1);
  }

  lemma NewIsForward(s: State, workflow: string, main: seq<string>)
    requires Issued(s) && workflow in s.defs && main != [] && main[0] == s.defs[workflow].start
    requires main[0] in s.defs[workflow].steps
    ensures var i, steps := s.nextInstance, s.defs[workflow].steps;
            Forward(Enqueue(CreateRow(NewInstance(s, workflow), NextRow(i, steps, main[0])), i, s.nextRow), i, steps,
                    main, [s.nextRow])
  {
    var i, steps := s.nextInstance, s.defs[workflow].steps;
    var s1 := CreateRow(NewInstance(s, workflow), NextRow(i, steps, main[0]));
    var s' := Enqueue(s1, i, s.nextRow);
    FreshNumbers(s);
    CountAbsent(s.log, Ran(s.nextRow));
    CountAbsent(s.log, Compensated(s.nextRow));
    assert forall id :: id in s.rows ==> s.rows[id].instance != i;
    QueuedAdd(s1, i, {}, s.nextRow);
    assert {} + {s.nextRow} == {s.nextRow};
  }

  lemma StartSame(s: State, workflow: string, k: nat)
    requires Issued(s) && k != s.nextInstance
    ensures Same(s, StartWorkflow(s, workflow), k)
  {
    hide WellFormed, StartWorkflow;
    if workflow in s.defs && s.defs[workflow].start in s.defs[workflow].steps && WellFormed(s.defs[workflow]) {
      StartIs(s, workflow);
      assert s.nextRow !in s.rows && s.nextItem !in s.queue;
    } else {
      StartRefused(s, workflow);
    }
  }

  lemma StartRefused(s: State, workflow: string)
    requires !(workflow in s.defs && s.defs[workflow].start in s.defs[workflow].steps && WellFormed(s.defs[workflow]))
    ensures StartWorkflow(s, workflow) == s
  {
    hide WellFormed;
  }

  lemma StartWorld(s: State, workflow: string, lines: Lines)
    requires World(s, lines)
    ensures World(StartWorkflow(s, workflow), lines)
  {
    hide SagaAlong, StartWorkflow, Linear, WellFormed, Same, Issued;
    if !(workflow in s.defs && s.defs[workflow].start in s.defs[workflow].steps && WellFormed(s.defs[workflow])) {
      StartRefused(s, workflow);
    } else {
      var s' := StartWorkflow(s, workflow);
      StartIs(s, workflow);
      StartIsIssued(s, workflow);
      var first := NewSaga(s, workflow, lines);
      forall k | k in s'.instances
        ensures HasSaga(s', k, lines)
      {
        if k != s.nextInstance {
          assert HasSaga(s, k, lines);
          var ids :| SagaAlong(s, k, lines, ids);
          StartSame(s, workflow, k);
          SameSagaAlong(s, s', k, lines, ids);
        }
      }
    }
  }

  lemma StartIsIssued(s: State, workflow: string)
    requires Issued(s)
    ensures Issued(StartWorkflow(s, workflow))
  {
    hide WellFormed, EnqueueNext, Issued, Keeps;
    if workflow in s.defs && s.defs[workflow].start in s.defs[workflow].steps && WellFormed(s.defs[workflow]) {
      NewInstanceIssued(s, workflow);
      EnqueueNextKeeps(NewInstance(s, workflow), s.nextInstance, s.defs[workflow].steps, [s.defs[workflow].start],
                       false);
      KeptIsIssued(NewInstance(s, workflow), StartWorkflow(s, workflow), s.nextInstance);
    }
  }

  // ---- Runs ----

  ghost predicate PlainRun(events: seq<Event>) {
    forall e :: e in events ==> Plain(e)
  }

  lemma StepWorld(s: State, e: Event, lines: Lines)
    requires World(s, lines) && Plain(e)
    ensures World(Step(s, e), lines)
  {
    hide World, ExecuteNext, StartWorkflow;
    match e
    case Start(workflow) => StartWorld(s, workflow, lines);
    case Execute(q, c) => ExecuteWorld(s, q, c, lines);
  }

  lemma {:induction false} RunWorld(s: State, events: seq<Event>, lines: Lines)
    requires World(s, lines) && PlainRun(events)
    ensures World(After(s, events), lines)
    decreases events
  {
    hide World, Step;
    if events != [] {
      StepWorld(s, events[0], lines);
      RunWorld(Step(s, events[0]), events[1..], lines);
    }
  }

  lemma {:induction false} ReachableWorld(defs: map<string, Definition>, events: seq<Event>, lines: Lines)
    requires AllLinear(defs, lines) && PlainRun(events)
    ensures World(After(Initial(defs), events), lines)
  {
    InitialWorld(defs, lines);
    RunWorld(Initial(defs), events, lines);
  }

  lemma InitialWorld(defs: map<string, Definition>, lines: Lines)
    requires AllLinear(defs, lines)
    ensures World(Initial(defs), lines)
  {
  }

  // ---- Atomicity ----

  /** Every step of the line has a row, and all of them are completed. */
  ghost predicate EndedForward(s: State, i: nat, main: seq<string>, ids: seq<nat>) {
    && InStatus(s, i, WorkflowStatus.Completed) && |ids| == |main|
    && forall k :: 0 <= k < |ids| ==> ids[k] in s.rows && s.rows[ids[k]].status == StepStatus.Completed
  }

  /**
   The instance has failed: up to the nearest save point before the last row everything is
   completed, and everything after it is rolled back or has used up its compensation retries.
   */
  ghost predicate EndedBackward(s: State, i: nat, def: Definition, main: seq<string>, ids: seq<nat>, sp: int) {
    && InStatus(s, i, WorkflowStatus.Failed) && Nearest(def, main, |ids| - 1, sp)
    && forall k :: 0 <= k < |ids| ==>
         && ids[k] in s.rows && main[k] in def.steps
         && if k <= sp then s.rows[ids[k]].status == StepStatus.Completed
            else s.rows[ids[k]].status == RolledBack || Exhausted(def.steps, s.rows[ids[k]], def.steps[main[k]])
  }

  lemma QuietSagaEnded(s: State, i: nat, def: Definition, main: seq<string>, ids: seq<nat>) returns (sp: int)
    requires Saga(s, i, def, main, ids) && 0 < |ids| <= |main|
    ensures NoItems(s, i) <==> EndedForward(s, i, main, ids) || EndedBackward(s, i, def, main, ids, sp)
  {
    hide RunsOk;
    sp := -1;
    if Forward(s, i, def.steps, main, ids) {
      assert HasItem(s, i, ids[|ids| - 1]);
    } else if Finished(s, i, def.steps, main, ids) {
      forall k | 0 <= k < |ids|
        ensures ids[k] in s.rows && s.rows[ids[k]].status == StepStatus.Completed
      {
        assert Done(s.rows[ids[k]]);
      }
    } else {
      sp :| Backward(s, i, def, main, ids, sp);
      BackwardEnded(s, i, def, main, ids, sp);
    }
  }

  lemma PendingHasItem(s: State, i: nat, pending: set<nat>, id: nat)
    requires Queued(s, i, pending) && id in pending
    ensures !NoItems(s, i)
  {
    assert HasItem(s, i, id);
  }

  lemma BackwardEnded(s: State, i: nat, def: Definition, main: seq<string>, ids: seq<nat>, sp: int)
    requires Backward(s, i, def, main, ids, sp)
    ensures NoItems(s, i) <==> EndedBackward(s, i, def, main, ids, sp)
  {
    hide RunsOk;
    RowsDiffer(s, i, def.steps, main, ids, |ids| - 1);
    if NoItems(s, i) {
      forall k | 0 <= k < |ids|
        ensures ids[k] !in Pend(s, ids)
      {
        if ids[k] in Pend(s, ids) {
          PendingHasItem(s, i, Pend(s, ids), ids[k]);
          assert false;
        }
      }
      forall k | 0 <= k < |ids|
        ensures if k <= sp then s.rows[ids[k]].status == StepStatus.Completed
                else s.rows[ids[k]].status == RolledBack || Exhausted(def.steps, s.rows[ids[k]], def.steps[main[k]])
      {
        if k <= sp {
          assert Done(s.rows[ids[k]]);
        } else {
          assert ids[k] !in Pend(s, ids);
          assert Undone(def.steps, s.rows[ids[k]], def.steps[main[k]]);
        }
      }
    }
    if EndedBackward(s, i, def, main, ids, sp) {
      assert Pend(s, ids) == {};
    }
  }

  /**
   Saga atomicity: in every state of every run, an instance has no queue item exactly when it
   has ended in one of the two ways.
   */
  lemma SagasAreAtomic(defs: map<string, Definition>, lines: Lines, events: seq<Event>,
        i: nat) returns (ids: seq<nat>, sp: int)
    requires AllLinear(defs, lines) && PlainRun(events) && i in After(Initial(defs), events).instances
    ensures var s := After(Initial(defs), events);
            var main := LineOf(s, i, lines);
            && DefinedFor(s, i) && Along(s, i, DefOf(s, i).steps, main, ids)
            && (NoItems(s, i) <==> EndedForward(s, i, main, ids) || EndedBackward(s, i, DefOf(s, i), main, ids, sp))
  {
    hide After, Linear, Forward, Finished, Backward, NoItems, EndedForward, EndedBackward;
    var s := After(Initial(defs), events);
    ReachableWorld(defs, events, lines);
    assert HasSaga(s, i, lines);
    ids :| SagaAlong(s, i, lines, ids);
    sp := QuietSagaEnded(s, i, DefOf(s, i), LineOf(s, i, lines), ids);
    SagaRows(s, i, DefOf(s, i), LineOf(s, i, lines), ids);
  }

  lemma SagaRows(s: State, i: nat, def: Definition, main: seq<string>, ids: seq<nat>)
    requires Saga(s, i, def, main, ids)
    ensures Along(s, i, def.steps, main, ids) && RunsOk(s, def.steps, main, ids)
  {
  }

  // ---- Bounds ----

  /** In every run, each row's handler and each row's compensation run only so often. */
  lemma {:induction false} RunsAreBounded(defs: map<string, Definition>, lines: Lines, events: seq<Event>, i: nat,
        id: nat)
    requires AllLinear(defs, lines) && PlainRun(events)
    requires var s := After(Initial(defs), events); i in s.instances && IsRowOf(s, i, id)
    ensures var s := After(Initial(defs), events);
            && DefinedFor(s, i) && s.rows[id].name in DefOf(s, i).steps
            && var d := DefOf(s, i).steps[s.rows[id].name];
            && Count(s.log, Ran(id)) <= RunLimit(d)
            && Count(s.log, Compensated(id)) <= CompLimit(DefOf(s, i).steps, d)
  {
    hide After, Linear, Saga;
    var s := After(Initial(defs), events);
    ReachableWorld(defs, events, lines);
    assert HasSaga(s, i, lines);
    var ids :| SagaAlong(s, i, lines, ids);
    var def, main := DefOf(s, i), LineOf(s, i, lines);
    SagaRows(s, i, def, main, ids);
    var k :| 0 <= k < |ids| && ids[k] == id;
    RowsOnLine(s, i, def.steps, main, ids, k);
    SagaCompensations(s, i, def, main, ids, k);
  }

  /** A row under compensation has not used up its limit. */
  lemma SagaCompensations(s: State, i: nat, def: Definition, main: seq<string>, ids: seq<nat>, k: nat)
    requires Saga(s, i, def, main, ids) && k < |ids| && 0 < |ids| <= |main|
    ensures main[k] in def.steps && Count(s.log, Compensated(ids[k])) <= CompLimit(def.steps, def.steps[main[k]])
  {
    hide Queued, Along;
    SagaRows(s, i, def, main, ids);
    RowsOnLine(s, i, def.steps, main, ids, k);
    assert CompensatedOk(s, def.steps, ids[k], def.steps[main[k]]);
    if s.rows[ids[k]].status == Compensation {
      if sp :| Backward(s, i, def, main, ids, sp) {
        if k > sp {
          assert Undone(def.steps, s.rows[ids[k]], def.steps[main[k]]);
        }
      }
    }
  }

  /** How often in a run an ExecuteNext has done something for the instance. */
  ghost function EffectiveRuns(s: State, events: seq<Event>, i: nat): nat
    decreases events
  {
    if events == [] then 0
    else (if EffectiveOn(s, events[0], i) then 1 else 0) + EffectiveRuns(Step(s, events[0]), events[1..], i)
  }

  lemma StepSaga(s: State, e: Event, lines: Lines, k: nat, ids: seq<nat>) returns (ids': seq<nat>)
    requires World(s, lines) && Plain(e) && SagaAlong(s, k, lines, ids)
    ensures var s' := Step(s, e);
            && SagaAlong(s', k, lines, ids')
            && LineOf(s', k, lines) == LineOf(s, k, lines) && DefOf(s', k) == DefOf(s, k)
            && Measure(s', k, DefOf(s', k).steps, LineOf(s', k, lines), ids') + (if EffectiveOn(s, e, k) then 1 else 0)
               <= Measure(s, k, DefOf(s, k).steps, LineOf(s, k, lines), ids)
  {
    hide SagaAlong, Measure, ExecuteNext, StartWorkflow, Same;
    match e
    case Start(workflow) =>
      ids' := ids;
      KnownInstance(s, k, lines, ids);
      StartSame(s, workflow, k);
      SameSagaAlong(s, StartWorkflow(s, workflow), k, lines, ids);
    case Execute(q, c) =>
      ids' := ExecuteSaga(s, q, c, lines, k, ids);
  }

  lemma KnownInstance(s: State, k: nat, lines: Lines, ids: seq<nat>)
    requires World(s, lines) && SagaAlong(s, k, lines, ids)
    ensures k in s.instances && k != s.nextInstance && Issued(s)
  {
  }

  lemma {:induction false} WorkShrinks(s: State, events: seq<Event>, lines: Lines, i: nat, ids: seq<nat>)
    requires World(s, lines) && PlainRun(events) && SagaAlong(s, i, lines, ids)
    ensures EffectiveRuns(s, events, i) <= Measure(s, i, DefOf(s, i).steps, LineOf(s, i, lines), ids)
    ensures var s' := After(s, events);
            DefinedFor(s', i) && DefOf(s', i) == DefOf(s, i) && LineOf(s', i, lines) == LineOf(s, i, lines)
    decreases events
  {
    hide World, Step, Measure, Saga;
    if events != [] {
      var ids' := StepSaga(s, events[0], lines, i, ids);
      StepWorld(s, events[0], lines);
      WorkShrinks(Step(s, events[0]), events[1..], lines, i, ids');
    }
  }

  /** An instance that is still to come. */
  lemma {:induction false} WorkToCome(s: State, events: seq<Event>, lines: Lines, i: nat)
    requires World(s, lines) && PlainRun(events) && i !in s.instances
    ensures var s' := After(s, events);
            i in s'.instances ==>
              && DefinedFor(s', i)
              && EffectiveRuns(s, events, i) <= Budget(DefOf(s', i).steps, LineOf(s', i, lines))
    decreases events
  {
    hide Measure, Saga, Issued, Linear, HasSaga, GivesBack, WellFormed, Budget;
    if events != [] {
      var e, s1 := events[0], Step(s, events[0]);
      StepWorld(s, e, lines);
      NotYet(s, e, lines, i);
      if i in s1.instances {
        assert e.Start?;
        var workflow := e.workflow;
        StartedNow(s, workflow, i);
        var ids := NewSaga(s, workflow, lines);
        WorkShrinks(s1, events[1..], lines, i, ids);
      } else {
        WorkToCome(s1, events[1..], lines, i);
      }
    }
  }

  lemma NotYet(s: State, e: Event, lines: Lines, i: nat)
    requires World(s, lines) && Plain(e) && i !in s.instances
    ensures !EffectiveOn(s, e, i)
    ensures e.Execute? ==> i !in Step(s, e).instances
  {
    hide ExecuteNext, GivesBack;
    if e.Execute? {
      ExecuteKeepsWorkflow(s, e.item, e.choice);
    }
  }

  lemma StartedNow(s: State, workflow: string, i: nat)
    requires i !in s.instances && i in StartWorkflow(s, workflow).instances
    ensures workflow in s.defs && s.defs[workflow].start in s.defs[workflow].steps && WellFormed(s.defs[workflow])
    ensures i == s.nextInstance
  {
    hide WellFormed;
    if workflow in s.defs && s.defs[workflow].start in s.defs[workflow].steps && WellFormed(s.defs[workflow]) {
      StartIs(s, workflow);
    }
  }

  /**
   Termination: in every run, the engine does something for an instance at most as often as
   the handler and compensation runs of its workflow add up to.
   */
  lemma {:induction false} WorkComesToAnEnd(defs: map<string, Definition>, lines: Lines, events: seq<Event>, i: nat)
    requires AllLinear(defs, lines) && PlainRun(events) && i in After(Initial(defs), events).instances
    ensures var s := After(Initial(defs), events);
            && DefinedFor(s, i)
            && EffectiveRuns(Initial(defs), events, i) <= Budget(DefOf(s, i).steps, LineOf(s, i, lines))
  {
    hide After, Linear, EffectiveRuns, Budget;
    InitialWorld(defs, lines);
    WorkToCome(Initial(defs), events, lines, i);
  }
}
