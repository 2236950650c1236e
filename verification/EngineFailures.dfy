/**
 How one execution ends that does not succeed: a retry, a dead letter, the final failure with
 its rollback, a cancellation or an abortion; and what one run of a compensation does.
 */
module EngineFailures {
  import opened Definitions
  import opened Graphs
  import opened Links
  import opened Searches
  import opened Rollback
  import opened JoinStates
  import opened Validator
  import opened Engine
  import opened EngineFrame
  import opened EngineEffects
  import opened EngineUndo
  import opened EngineOutcomes
  import RollbackTargets
  import RollbackExact

  // ---- Cancellation ----

  predicate IsActive(s: State, i: nat, k: nat) {
    IsRowOf(s, i, k) && (s.rows[k].status == Pending || s.rows[k].status == StepStatus.Running)
  }

  /** All active rows of the instance are skipped and its cancel request is gone. */
  ghost predicate Stopped(s: State, u: State, i: nat) {
    && u == s.(rows := u.rows, cancels := s.cancels - {i}) && u.rows.Keys == s.rows.Keys
    && forall k :: k in s.rows ==>
         u.rows[k] == if IsActive(s, i, k) then s.rows[k].(status := Skipped) else s.rows[k]
  }

  /** The instance's completed row that was created last. */
  ghost predicate LastCompletion(s: State, i: nat, k: nat) {
    && IsRowOf(s, i, k) && s.rows[k].status == StepStatus.Completed
    && forall m: nat :: IsRowOf(s, i, m) && s.rows[m].status == StepStatus.Completed ==> m <= k
  }

  ghost predicate NoneCompleted(s: State, i: nat) {
    forall k: nat :: IsRowOf(s, i, k) ==> s.rows[k].status != StepStatus.Completed
  }

  /** Everything is rolled back from the last completed row to the start. */
  ghost predicate RolledToStart(u: State, s': State, i: nat, steps: Steps) {
    exists last: nat, v ::
      && LastCompletion(u, i, last) && RollsBack(u, v, i, steps, u.rows[last].name, ROOT)
      && SameStore(s', WithStatus(v, i, Cancelled))
  }

  /**
   A cancellation stops what is active and rolls everything back from the last completed row
   to the start; an abortion only stops what is active.
   */
  ghost predicate CancelledFrom(s: State, s': State, i: nat, steps: Steps, kind: CancelKind) {
    exists u :: Stopped(s, u, i) &&
      if kind == Abort then SameStore(s', WithStatus(u, i, Aborted))
      else if NoneCompleted(u, i) then SameStore(s', WithStatus(u, i, Cancelled))
      else RolledToStart(u, s', i, steps)
  }

  lemma {:induction false} LastCompletedIs(s: State, i: nat, bound: nat)
    ensures forall m: nat :: IsRowOf(s, i, m) && s.rows[m].status == StepStatus.Completed && m < bound ==>
              LastCompleted(s, i, bound).Some? && m <= LastCompleted(s, i, bound).value
    decreases bound
  {
    if bound > 0 {
      LastCompletedIs(s, i, bound - 1);
    }
  }

  /** A rollback looks at rows, items and letters only. */
  lemma SameRollback(s: State, v: State, i: nat, steps: Steps, name: string, target: string, b: State)
    requires RollsBack(s, v, i, steps, name, target)
    requires b.rows == s.rows && b.queue == s.queue && b.dead == s.dead
    ensures RollsBack(b, b.(rows := v.rows, queue := v.queue, dead := v.dead), i, steps, name, target)
  {
    hide LatestStatuses, RollsBackIn;
    var status :| LatestStatuses(s, i, status) && RollsBackIn(s, v, i, Scene(steps, status, target), name);
    SameLatest(s, i, b, status);
    SameRollbackIn(s, v, i, Scene(steps, status, target), name, b);
  }

  lemma SameLatest(s: State, i: nat, b: State, status: map<string, StepStatus>)
    requires LatestStatuses(s, i, status) && b.rows == s.rows
    ensures LatestStatuses(b, i, status)
  {
    assert forall k: nat :: LatestRow(b, i, k) <==> LatestRow(s, i, k);
    assert forall n :: HasRow(b, i, n) <==> HasRow(s, i, n);
    hide LatestRow, HasRow;
  }

  lemma SameRollbackIn(s: State, v: State, i: nat, scene: Scene, name: string, b: State)
    requires RollsBackIn(s, v, i, scene, name)
    requires b.rows == s.rows && b.queue == s.queue && b.dead == s.dead
    ensures RollsBackIn(b, b.(rows := v.rows, queue := v.queue, dead := v.dead), i, scene, name)
  {
    hide RollbackExact.Concerned, Reaches, Flow;
    var w := b.(rows := v.rows, queue := v.queue, dead := v.dead);
    assert BelowFirst(b, w, scene.steps);
    hide BelowFirst;
    assert Reworked(b, w, i);
    hide Reworked;
    forall k | k in b.rows
      ensures k in w.rows
      ensures if IsUndone(b, i, scene, name, k) then Undone(b, w, i, scene.steps, k) else LeftAlone(b, w, k)
    {
      SameRow(s, v, i, scene, name, b, k);
    }
  }

  lemma SameRow(s: State, v: State, i: nat, scene: Scene, name: string, b: State, k: nat)
    requires b.rows == s.rows && b.queue == s.queue && b.dead == s.dead && k in s.rows && k in v.rows
    ensures var w := b.(rows := v.rows, queue := v.queue, dead := v.dead);
            && IsUndone(b, i, scene, name, k) == IsUndone(s, i, scene, name, k)
            && (k in w.rows && LeftAlone(b, w, k) == LeftAlone(s, v, k))
            && (s.rows[k].name in scene.steps ==> Undone(b, w, i, scene.steps, k) == Undone(s, v, i, scene.steps, k))
  {
    hide RollbackExact.Concerned;
    var w := b.(rows := v.rows, queue := v.queue, dead := v.dead);
    assert LatestRow(b, i, k) == LatestRow(s, i, k);
    assert NewItems(b, w, k) == NewItems(s, v, k);
    assert NewLetters(b, w, k) == NewLetters(s, v, k);
    hide NewItems, NewLetters, LatestRow;
  }

  lemma StopIs(s: State, i: nat)
    ensures var u := DropRequest(SkipRows(s, ActiveRows(s, i)), i);
            Stopped(s, u, i)
  {
  }

  lemma CancellationIs(s: State, i: nat, steps: Steps, depth: map<string, nat>, kind: CancelKind)
    requires Issued(s) && i in s.instances && Linked(steps, depth)
    requires forall k: nat :: IsRowOf(s, i, k) ==> s.rows[k].name in steps
    ensures CancelledFrom(s, HandleCancellation(s, i, steps, kind), i, steps, kind)
  {
    hide Linked, RollsBack, RollbackFrom, Stopped;
    var s1 := SkipRows(s, ActiveRows(s, i));
    var u := DropRequest(s1, i);
    var s' := HandleCancellation(s, i, steps, kind);
    StopIs(s, i);
    DropStatus(s1, i, Aborted);
    DropStatus(s1, i, Cancelled);
    if kind == Cancel {
      UndoAllIs(s, i, steps, depth);
    }
  }

  lemma DropStatus(s1: State, i: nat, status: WorkflowStatus)
    requires i in s1.instances
    ensures SameStore(DropRequest(SetInstance(s1, i, status), i), WithStatus(DropRequest(s1, i), i, status))
  {
    WithStatusIs(s1, i, status);
  }

  lemma UndoAllIs(s: State, i: nat, steps: Steps, depth: map<string, nat>)
    requires Issued(s) && i in s.instances && Linked(steps, depth)
    requires forall k: nat :: IsRowOf(s, i, k) ==> s.rows[k].name in steps
    ensures CancelledFrom(s, DropRequest(UndoAll(SkipRows(s, ActiveRows(s, i)), i, steps), i), i, steps, Cancel)
  {
    hide Linked, RollsBack, RollbackFrom, Stopped, Issued, Keeps, Quiet;
    var s1 := SkipRows(s, ActiveRows(s, i));
    var u := DropRequest(s1, i);
    StopIs(s, i);
    SkippedFacts(s, i);
    LastCompletedIs(s1, i, s1.nextRow);
    var last := LastCompleted(s1, i, s1.nextRow);
    if last.None? {
      DropStatus(s1, i, Cancelled);
      assert forall k: nat :: IsRowOf(u, i, k) ==> u.rows[k].status != StepStatus.Completed;
    } else {
      var k := last.value;
      assert LastCompletion(u, i, k);
      RolledBackIs(s1, i, steps, depth, s1.rows[k].name);
    }
  }

  lemma RolledBackIs(s1: State, i: nat, steps: Steps, depth: map<string, nat>, name: string)
    requires Issued(s1) && i in s1.instances && Linked(steps, depth) && name in steps
    ensures var back := RollbackFrom(SetInstance(s1, i, Cancelling), i, steps, name, ROOT);
            && back.1
            && exists v :: RollsBack(DropRequest(s1, i), v, i, steps, name, ROOT)
                           && SameStore(DropRequest(SetInstance(back.0, i, Cancelled), i), WithStatus(v, i, Cancelled))
  {
    hide Linked, RollsBack, RollbackFrom, Issued, Keeps, Quiet;
    var u, s2 := DropRequest(s1, i), SetInstance(s1, i, Cancelling);
    SetInstanceKeeps(s1, i, Cancelling);
    KeptIsIssued(s1, s2, i);
    RootIsNoStep(steps, depth, name);
    RollbackFromIs(s2, i, steps, depth, name, ROOT);
    var v := RollbackFrom(s2, i, steps, name, ROOT).0;
    SameRollback(s2, v, i, steps, name, ROOT, u);
    RolledInstances(s2, v, i, steps, name, ROOT);
    FinishCancel(s1, s2, v, u, u.(rows := v.rows, queue := v.queue, dead := v.dead), i);
  }

  lemma SkippedFacts(s: State, i: nat)
    requires Issued(s) && i in s.instances
    ensures var s1 := SkipRows(s, ActiveRows(s, i));
            && Issued(s1) && s1.instances == s.instances && s1.nextRow == s.nextRow && s1.rows.Keys == s.rows.Keys
            && (forall k :: k in s.rows ==> SameIdentity(s.rows[k], s1.rows[k]))
            && (forall k :: k in s1.rows ==> k < s1.nextRow)
  {
    hide Keeps, Quiet;
    SkipRowsKeeps(s, i, ActiveRows(s, i));
    KeptIsIssued(s, SkipRows(s, ActiveRows(s, i)), i);
  }

  lemma RootIsNoStep(steps: Steps, depth: map<string, nat>, name: string)
    requires Linked(steps, depth) && name in steps
    ensures name != ROOT
  {
  }

  lemma RolledInstances(s: State, v: State, i: nat, steps: Steps, name: string, target: string)
    requires RollsBack(s, v, i, steps, name, target)
    ensures SameStore(v, s.(rows := v.rows, queue := v.queue, dead := v.dead))
  {
  }

  lemma FinishCancel(s1: State, s2: State, v: State, u: State, w: State, i: nat)
    requires i in s1.instances && s2 == SetInstance(s1, i, Cancelling) && u == DropRequest(s1, i)
    requires SameStore(v, s2.(rows := v.rows, queue := v.queue, dead := v.dead))
    requires w == u.(rows := v.rows, queue := v.queue, dead := v.dead)
    ensures SameStore(DropRequest(SetInstance(v, i, Cancelled), i), WithStatus(w, i, Cancelled))
  {
    WithStatusIs(v, i, Cancelled);
    SameMap(WithStatus(v, i, Cancelled).instances, WithStatus(w, i, Cancelled).instances);
  }

  /** No row stays active. */
  lemma CancelledIsQuiet(s: State, s': State, i: nat, steps: Steps, kind: CancelKind)
    requires CancelledFrom(s, s', i, steps, kind)
    ensures i !in s'.cancels && forall k: nat :: !IsActive(s', i, k)
  {
    hide RolledToStart, NoneCompleted;
    var u :| Stopped(s, u, i) &&
             if kind == Abort then SameStore(s', WithStatus(u, i, Aborted))
             else if NoneCompleted(u, i) then SameStore(s', WithStatus(u, i, Cancelled))
             else RolledToStart(u, s', i, steps);
    assert forall k: nat :: !IsActive(u, i, k);
    if RolledToStart(u, s', i, steps) {
      RolledIsQuiet(u, s', i, steps);
    }
  }

  lemma RolledIsQuiet(u: State, s': State, i: nat, steps: Steps)
    requires RolledToStart(u, s', i, steps) && forall k: nat :: !IsActive(u, i, k)
    ensures s'.cancels == u.cancels && forall k: nat :: !IsActive(s', i, k)
  {
    hide RollsBack;
    var last: nat, v :| LastCompletion(u, i, last) && RollsBack(u, v, i, steps, u.rows[last].name, ROOT)
                        && SameStore(s', WithStatus(v, i, Cancelled));
    RollbackActivatesNone(u, v, i, steps, u.rows[last].name, ROOT);
    assert s'.rows == v.rows && forall k: nat :: IsActive(s', i, k) <==> IsActive(v, i, k);
  }

  lemma RollbackActivatesNone(s: State, v: State, i: nat, steps: Steps, name: string, target: string)
    requires RollsBack(s, v, i, steps, name, target) && forall k: nat :: !IsActive(s, i, k)
    ensures v.cancels == s.cancels && forall k: nat :: !IsActive(v, i, k)
  {
    hide BelowFirst, NewItems, NewLetters, RollbackExact.Concerned;
    var status :| LatestStatuses(s, i, status) && RollsBackIn(s, v, i, Scene(steps, status, target), name);
    forall k: nat | IsRowOf(v, i, k)
      ensures !IsActive(v, i, k)
    {
      assert k in s.rows && !IsActive(s, i, k);
    }
  }

  /** A pending request is carried out when the instance's next item is handed out. */
  lemma PendingRequestTakesEffect(s: State, q: nat, i: nat, id: nat, name: string, c: Choice, depth: map<string, nat>)
    requires Picks(s, q, i, id, name) && c.hasHandler && i in s.cancels && Linked(DefOf(s, i).steps, depth)
    requires forall k: nat :: IsRowOf(s, i, k) ==> s.rows[k].name in DefOf(s, i).steps
    ensures CancelledFrom(s.(queue := s.queue - {q}), ExecuteNext(s, q, c), i, DefOf(s, i).steps, s.cancels[i])
  {
    hide Issued, HandleCancellation, CancelledFrom, Linked, Keeps, Quiet;
    var claimed := RemoveItem(s, q);
    RemoveItemKeeps(s, i, q);
    KeptIsIssued(s, claimed, i);
    CancellationIs(claimed, i, DefOf(s, i).steps, depth, s.cancels[i]);
  }

  /** The run of a step that a request overtakes: what has come meanwhile is stopped as well. */
  lemma LateRequestTakesEffect(s: State, q: nat, i: nat, id: nat, name: string, c: Choice, depth: map<string, nat>)
    requires Picks(s, q, i, id, name) && c.hasHandler && i !in s.cancels && Linked(DefOf(s, i).steps, depth)
    requires c.late.Some? && s.instances[i].status in {WorkflowStatus.Running, Cancelling}
    requires LeadsToSteps(DefOf(s, i).steps, DefOf(s, i).steps[name])
    requires forall k: nat :: IsRowOf(s, i, k) ==> s.rows[k].name in DefOf(s, i).steps
    ensures var steps := DefOf(s, i).steps;
            exists w ::
              && Grown(Ranned(Started(s, q, id), steps[name], id), w, i)
              && CancelledFrom(w, ExecuteNext(s, q, c), i, steps, c.late.value)
  {
    hide Issued, HandleCancellation, CancelledFrom, Linked, Keeps, Work, Started, Ranned, Grown, NewOfSteps, NewNamed;
    hide HandleSuccess, HandleFailure, Passes;
    var steps := DefOf(s, i).steps;
    var s1 := Started(s, q, id);
    StartedFacts(s, q, i, id, name);
    WorkAdds(s1, i, steps, id, name, c);
    var w := Work(s1, i, steps, id, name, c).0;
    WorkKeeps(s1, i, steps, id, name, c);
    KeptIsIssued(s1, w, i);
    NamesKnown(s, q, i, id, name, w);
    OvertakenIs(s, q, i, id, name, c);
    CancellationIs(w, i, steps, depth, c.late.value);
  }

  lemma OvertakenIs(s: State, q: nat, i: nat, id: nat, name: string, c: Choice)
    requires Picks(s, q, i, id, name) && c.hasHandler && i !in s.cancels
    requires c.late.Some? && s.instances[i].status in {WorkflowStatus.Running, Cancelling}
    ensures var steps := DefOf(s, i).steps;
            ExecuteNext(s, q, c) ==
            HandleCancellation(Work(Started(s, q, id), i, steps, id, name, c).0, i, steps, c.late.value)
  {
    hide Issued, Work, HandleCancellation, SetStatus;
  }

  lemma NamesKnown(s: State, q: nat, i: nat, id: nat, name: string, w: State)
    requires Picks(s, q, i, id, name) && forall k: nat :: IsRowOf(s, i, k) ==> s.rows[k].name in DefOf(s, i).steps
    requires var base := Ranned(Started(s, q, id), DefOf(s, i).steps[name], id);
             Grown(base, w, i) && NewOfSteps(base, w, DefOf(s, i).steps)
    ensures forall k: nat :: IsRowOf(w, i, k) ==> w.rows[k].name in DefOf(s, i).steps
  {
    hide Grown;
    var base := Ranned(Started(s, q, id), DefOf(s, i).steps[name], id);
    StartedFacts(s, q, i, id, name);
    RannedRows(Started(s, q, id), DefOf(s, i).steps[name], id);
    hide Started, Ranned, Issued;
    forall k: nat | IsRowOf(w, i, k)
      ensures w.rows[k].name in DefOf(s, i).steps
    {
      if k in base.rows { OldRowStays(base, w, i, k); }
    }
  }

  lemma OldRowStays(s: State, s': State, i: nat, k: nat)
    requires Grown(s, s', i) && k in s.rows
    ensures k in s'.rows && s'.rows[k] == s.rows[k]
  {
  }

  // ---- Failure ----

  /** The step may be tried again: the first time if it has retries at all, later if some are left. */
  predicate TriesAgain(d: StepDef, row: Row) {
    if row.retry == 0 then d.maxRetries > 0 else row.retry < row.maxRetries && !d.noIdempotent
  }

  /** What a failed run logs when it is not the last. */
  function RunEntries(d: StepDef, id: nat): seq<Entry> {
    if d.kind == Task then [Ran(id)] else []
  }

  lemma FailureIs(s: State, q: nat, i: nat, id: nat, name: string, c: Choice)
    requires Picks(s, q, i, id, name) && Undisturbed(s, i, c)
    requires LeadsToSteps(DefOf(s, i).steps, DefOf(s, i).steps[name]) && !Passes(s, i, DefOf(s, i).steps[name], name, c)
    ensures var def := DefOf(s, i);
            ExecuteNext(s, q, c) ==
            HandleFailure(Ranned(Started(s, q, id), def.steps[name], id), i, def, id, s.rows[id], c)
  {
    hide Issued, Work, Tell, SetStatus, Keeps, Started, Passes, HandleFailure, HandleSuccess;
    hide Grown, NewOfSteps, NewNamed;
    var steps := DefOf(s, i).steps;
    var s1 := Started(s, q, id);
    ExecutionIs(s, q, i, id, name, c);
    StartedFacts(s, q, i, id, name);
    WorkAdds(s1, i, steps, id, name, c);
    PassesThere(s, s1, i, steps[name], name, c);
  }

  lemma PassesThere(s: State, s1: State, i: nat, d: StepDef, name: string, c: Choice)
    requires s1.joins == s.joins
    ensures Passes(s1, i, d, name, c) == Passes(s, i, d, name, c)
    ensures d.Forks() ==> Passes(s, i, d, name, c)
  {
  }

  /** A step that is tried again waits, as failed, for its one new item. */
  lemma FailureIsRetried(s: State, q: nat, i: nat, id: nat, name: string, c: Choice)
    requires Picks(s, q, i, id, name) && Undisturbed(s, i, c)
    requires var d := DefOf(s, i).steps[name];
             LeadsToSteps(DefOf(s, i).steps, d) && !Passes(s, i, d, name, c) && TriesAgain(d, s.rows[id])
    ensures var base := Settled(s, q, id, StepStatus.Failed, RunEntries(DefOf(s, i).steps[name], id));
            SameStore(ExecuteNext(s, q, c), base.(queue := base.queue[s.nextItem := Item(i, id)]))
  {
    hide Passes, ExecuteNext, FailStep, BuryStep;
    FailureIs(s, q, i, id, name, c);
    var d := DefOf(s, i).steps[name];
    SettledIs(s, q, id, d, StepStatus.Failed, false);
    RetriedIs(s, q, id, d);
  }

  lemma RetriedIs(s: State, q: nat, id: nat, d: StepDef)
    requires id in s.rows
    ensures SetStatus(Ranned(Started(s, q, id), d, id), id, StepStatus.Failed)
         == Settled(s, q, id, StepStatus.Failed, RunEntries(d, id))
  {
    StartedLog(s, q, id);
    StatusTwice(s, q, id, StepStatus.Failed, s.log + RunEntries(d, id));
    hide SetStatus;
    assert s.log + [] == s.log;
    assert Ranned(Started(s, q, id), d, id) == Started(s, q, id).(log := s.log + RunEntries(d, id));
  }

  /** The instance is frozen: nothing of it is queued, and its running rows are paused. */
  ghost predicate FrozenAs(t: State, s': State, i: nat) {
    && SameStore(s', WithStatus(t, i, Dlq).(rows := s'.rows, queue := s'.queue)) && s'.rows.Keys == t.rows.Keys
    && (forall k :: k in t.rows ==>
          s'.rows[k] == if IsRowOf(t, i, k) && t.rows[k].status == StepStatus.Running
                        then t.rows[k].(status := Paused) else t.rows[k])
    && (forall q :: q in s'.queue <==> q in t.queue && t.queue[q].instance != i)
    && (forall q :: q in s'.queue ==> s'.queue[q] == t.queue[q])
  }

  /**
   The last failure of a step where dead letters are on: the row is paused, the joins have been
   told, there is one letter more, about the row, and the instance is frozen.
   */
  lemma FailureIsBuried(s: State, q: nat, i: nat, id: nat, name: string, c: Choice)
    requires Picks(s, q, i, id, name) && Undisturbed(s, i, c) && JoinsThere(s, i, DefOf(s, i).steps, name)
    requires var d := DefOf(s, i).steps[name];
             LeadsToSteps(DefOf(s, i).steps, d) && !Passes(s, i, d, name, c) && !TriesAgain(d, s.rows[id])
    requires DefOf(s, i).dlqEnabled
    ensures var steps := DefOf(s, i).steps;
            exists t, letter: nat ::
              && Joined(Settled(s, q, id, Paused, Entries(steps[name], id, false)), t, i, steps)
              && letter !in t.dead
              && FrozenAs(t.(dead := t.dead[letter := DeadLetter(i, id)]), ExecuteNext(s, q, c), i)
  {
    hide Passes, ExecuteNext, FailStep, Issued, Joined, Settled, Entries, SetStatus, Notify, Started, Ranned;
    hide JoinsThere;
    var steps := DefOf(s, i).steps;
    FailureIs(s, q, i, id, name, c);
    SettledIs(s, q, id, steps[name], Paused, false);
    var base := Settled(s, q, id, Paused, Entries(steps[name], id, false));
    SettledIssued(s, q, i, id, name, Paused, false);
    JoinsThereStill(s, q, i, id, name, Paused, false);
    var t := Notify(base, i, steps, c.order, c.order, name, false).0;
    NotifyJoined(base, i, steps, c.order, c.order, name, false);
    NotifySucceeds(base, i, steps, c.order, c.order, name, false);
    StillRuns(base, t, i, steps);
    FreezeIs(t, i, id);
  }

  lemma FreezeIs(t: State, i: nat, id: nat)
    requires Issued(t) && i in t.instances
    ensures t.nextDead !in t.dead
    ensures FrozenAs(t.(dead := t.dead[t.nextDead := DeadLetter(i, id)]),
                     SetInstance(Freeze(Bury(t, i, id), i), i, Dlq), i)
  {
    var b := Freeze(Bury(t, i, id), i);
    WithStatusIs(b, i, Dlq);
    WithStatusIs(t, i, Dlq);
  }

  lemma SettledIssued(s: State, q: nat, i: nat, id: nat, name: string, status: StepStatus, success: bool)
    requires Picks(s, q, i, id, name) && status in {StepStatus.Completed, StepStatus.Failed, Paused}
    ensures var base := Settled(s, q, id, status, Entries(DefOf(s, i).steps[name], id, success));
            Issued(base) && i in base.instances && !InDlq(base, i) && base.instances == s.instances
  {
    hide Issued, Keeps, Settled, Entries, Started, SetStatus;
    var d := DefOf(s, i).steps[name];
    var s1 := Started(s, q, id);
    StartedFacts(s, q, i, id, name);
    NoteKeeps(s1, i, Ran(id));
    Reflexive(s1, i);
    var s2 := Ranned(s1, d, id);
    KeptIsIssued(s1, s2, i);
    RannedRows(s1, d, id);
    SettledIs(s, q, id, d, status, success);
    DecideKeeps(s2, i, id, status, success);
    KeptIsIssued(s2, Note(SetStatus(s2, id, status), Ended(id, success)), i);
    SettledInstances(s, q, id, status, Entries(d, id, success));
  }

  lemma SettledInstances(s: State, q: nat, id: nat, status: StepStatus, entries: seq<Entry>)
    requires id in s.rows
    ensures Settled(s, q, id, status, entries).instances == s.instances
    ensures Settled(s, q, id, status, entries).joins == s.joins
  {
  }

  lemma JoinsThereStill(s: State, q: nat, i: nat, id: nat, name: string, status: StepStatus, success: bool)
    requires Picks(s, q, i, id, name) && JoinsThere(s, i, DefOf(s, i).steps, name)
    ensures var base := Settled(s, q, id, status, Entries(DefOf(s, i).steps[name], id, success));
            JoinsThere(base, i, DefOf(s, i).steps, name)
  {
    hide Settled;
    SettledInstances(s, q, id, status, Entries(DefOf(s, i).steps[name], id, success));
  }

  // ---- The final failure ----

  /** A step in a branch of the fork. */
  ghost predicate BelowFork(steps: Steps, f: string, n: string) {
    f in steps && exists p :: p in steps[f].parallel && Reaches(Flow(steps), p, n)
  }

  /** An active row of another step in the branches of the fork of which `name` begins a branch. */
  ghost predicate IsSibling(t: State, i: nat, steps: Steps, name: string, k: nat) {
    && IsActive(t, i, k) && t.rows[k].name != name
    && exists f :: f in steps && steps[f].kind == Fork && name in steps[f].parallel
                   && BelowFork(steps, f, t.rows[k].name)
  }

  ghost predicate SiblingsStopped(t: State, u: State, i: nat, steps: Steps, name: string) {
    && SameStore(u, t.(rows := u.rows)) && u.rows.Keys == t.rows.Keys
    && forall k :: k in t.rows ==>
         u.rows[k] == if IsSibling(t, i, steps, name, k) then t.rows[k].(status := Skipped) else t.rows[k]
  }

  lemma {:induction false} ForkOfIs(steps: Steps, order: seq<string>, name: string, f: string)
    requires f in order && f in steps && steps[f].kind == Fork && name in steps[f].parallel && "" !in steps
    ensures ForkOf(steps, order, name) != ""
    decreases order
  {
    if order[0] != f {
      ForkOfIs(steps, order[1..], name, f);
    }
  }

  /** On linked definitions both ways of looking for the steps of a branch find the same. */
  lemma InBranchIsBelow(steps: Steps, depth: map<string, nat>, f: string, n: string)
    requires Linked(steps, depth) && f in steps && n in steps && steps[f].kind == Fork
    ensures InBranch(steps, n, f) <==> BelowFork(steps, f, n)
  {
    forall p | p in steps[f].parallel
      ensures p in steps && (Reaches(Flow(steps), p, n) <==> Reaches(Back(steps), n, p))
    {
      assert p in Successors(steps[f]);
      assert Edge(Flow(steps), f, p);
      ForwardIffBackward(steps, depth, p, n);
    }
    ReachesSelf(Back(steps), n);
  }

  lemma OnlyOneFork(steps: Steps, depth: map<string, nat>, f: string, g: string, name: string)
    requires Linked(steps, depth) && f in steps && g in steps
    requires name in steps[f].parallel && name in steps[g].parallel
    ensures f == g
  {
    assert name in Successors(steps[f]) && name in Successors(steps[g]);
    assert Edge(Flow(steps), f, name) && Edge(Flow(steps), g, name);
  }

  lemma SiblingsAre(t: State, i: nat, steps: Steps, depth: map<string, nat>, order: seq<string>, name: string, k: nat)
    requires Linked(steps, depth) && k in t.rows
    requires (forall n :: n in steps ==> n in order) && (IsRowOf(t, i, k) ==> t.rows[k].name in steps)
    ensures k in Siblings(t, i, steps, order, name) <==> IsSibling(t, i, steps, name, k)
  {
    hide Linked, BelowFork, InBranch;
    var fork := ForkOf(steps, order, name);
    if IsSibling(t, i, steps, name, k) {
      var f :| f in steps && steps[f].kind == Fork && name in steps[f].parallel && BelowFork(steps, f, t.rows[k].name);
      NoEmptyName(steps, depth);
      ForkOfIs(steps, order, name, f);
      OnlyOneFork(steps, depth, f, fork, name);
      InBranchIsBelow(steps, depth, f, t.rows[k].name);
    }
    if k in Siblings(t, i, steps, order, name) {
      InBranchIsBelow(steps, depth, fork, t.rows[k].name);
    }
  }

  lemma NoEmptyName(steps: Steps, depth: map<string, nat>)
    requires Linked(steps, depth)
    ensures "" !in steps && ROOT !in steps
  {
  }

  lemma SiblingsAreStopped(t: State, i: nat, steps: Steps, depth: map<string, nat>, order: seq<string>, name: string)
    requires Linked(steps, depth) && forall n :: n in steps ==> n in order
    requires forall k: nat :: IsRowOf(t, i, k) ==> t.rows[k].name in steps
    ensures SiblingsStopped(t, SkipRows(t, Siblings(t, i, steps, order, name)), i, steps, name)
  {
    hide Linked, Siblings, IsSibling;
    forall k | k in t.rows
      ensures k in Siblings(t, i, steps, order, name) <==> IsSibling(t, i, steps, name, k)
    {
      SiblingsAre(t, i, steps, depth, order, name, k);
    }
  }

  /** The instance fails: siblings are stopped, and everything is rolled back to the nearest stop. */
  ghost predicate FailsFrom(t: State, s': State, i: nat, steps: Steps, name: string) {
    exists u, v, stop: string ::
      && SiblingsStopped(t, u, i, steps, name) && RollbackTargets.IsNearestStop(steps, name, stop)
      && RollsBack(u, v, i, steps, name, stop) && SameStore(s', WithStatus(v, i, WorkflowStatus.Failed))
  }

  lemma UnwindIs(t: State, i: nat, steps: Steps, depth: map<string, nat>, start: string, name: string, c: Choice)
    requires Issued(t) && i in t.instances && Linked(steps, depth) && forall n :: n in steps ==> n in c.order
    requires forall k: nat :: IsRowOf(t, i, k) ==> t.rows[k].name in steps
    requires start in steps && steps[start].prev == ROOT && name in steps && Reaches(Flow(steps), start, name)
    requires steps[name].kind != SavePoint
    ensures FailsFrom(t, SetInstance(Unwind(t, i, steps, name, c), i, WorkflowStatus.Failed), i, steps, name)
  {
    hide Linked, Issued, Keeps, Quiet, SiblingsStopped, RollsBack, RollbackFrom, SkipRows, Siblings, Reaches;
    hide RollbackTargets.IsNearestStop, NearestSavePoint, SetInstance, WithStatus;
    var u := SkipRows(t, Siblings(t, i, steps, c.order, name));
    var stop := NearestSavePoint(steps, name, c.strays);
    SiblingsAreStopped(t, i, steps, depth, c.order, name);
    SiblingsInPlay(t, i, steps, c.order, name);
    SkipRowsKeeps(t, i, Siblings(t, i, steps, c.order, name));
    KeptIsIssued(t, u, i);
    RollbackTargets.NearestIsAbove(steps, depth, start, name, c.strays, {});
    RollbackTargets.NearestIsNearest(steps, depth, start, name, c.strays);
    RootIsNoStep(steps, depth, name);
    RollbackFromIs(u, i, steps, depth, name, stop);
    var v := RollbackFrom(u, i, steps, name, stop).0;
    RolledInstances(u, v, i, steps, name, stop);
    WithStatusIs(v, i, WorkflowStatus.Failed);
  }

  lemma SiblingsInPlay(t: State, i: nat, steps: Steps, order: seq<string>, name: string)
    ensures forall k :: k in Siblings(t, i, steps, order, name) ==> InPlay(t, i, k)
  {
  }

  /**
   The last failure of a step where dead letters are off: the row is failed, the joins have been
   told, active steps beside it in the fork it begins a branch of are skipped, everything is rolled
   back to the nearest save point, and the instance has failed.
   */
  lemma FailureIsFinal(s: State, q: nat, i: nat, id: nat, name: string, c: Choice, depth: map<string, nat>)
    requires Picks(s, q, i, id, name) && Undisturbed(s, i, c) && JoinsThere(s, i, DefOf(s, i).steps, name)
    requires var d := DefOf(s, i).steps[name];
             LeadsToSteps(DefOf(s, i).steps, d) && !Passes(s, i, d, name, c) && !TriesAgain(d, s.rows[id])
    requires !DefOf(s, i).dlqEnabled && Linked(DefOf(s, i).steps, depth)
    requires forall k: nat :: IsRowOf(s, i, k) ==> s.rows[k].name in DefOf(s, i).steps
    requires forall n :: n in DefOf(s, i).steps ==> n in c.order
    requires var start, steps := DefOf(s, i).start, DefOf(s, i).steps;
             start in steps && steps[start].prev == ROOT && Reaches(Flow(steps), start, name)
    ensures var steps := DefOf(s, i).steps;
            exists t ::
              && Joined(Settled(s, q, id, StepStatus.Failed, Entries(steps[name], id, false)), t, i, steps)
              && FailsFrom(t, ExecuteNext(s, q, c), i, steps, name)
  {
    hide ExecuteNext, BuryStep, Issued, Joined, Settled, Entries, SetStatus, Tell, Started, Ranned, JoinsThere;
    hide Linked, FailsFrom, Unwind, Reaches;
    var steps := DefOf(s, i).steps;
    FailureIs(s, q, i, id, name, c);
    SettledIs(s, q, id, steps[name], StepStatus.Failed, false);
    var base := Settled(s, q, id, StepStatus.Failed, Entries(steps[name], id, false));
    SettledIssued(s, q, i, id, name, StepStatus.Failed, false);
    JoinsThereStill(s, q, i, id, name, StepStatus.Failed, false);
    var t := Tell(base, i, steps, c.order, name, false).0;
    TellJoined(base, i, steps, c.order, name, false);
    TellSucceeds(base, i, steps, c.order, name, false);
    StillRuns(base, t, i, steps);
    JoinedNames(s, q, i, id, StepStatus.Failed, Entries(steps[name], id, false), steps, t);
    UnwindIs(t, i, steps, depth, DefOf(s, i).start, name, c);
  }

  lemma JoinedNames(s: State, q: nat, i: nat, id: nat, status: StepStatus, entries: seq<Entry>, steps: Steps, t: State)
    requires id in s.rows && Joined(Settled(s, q, id, status, entries), t, i, steps)
    requires forall k: nat :: IsRowOf(s, i, k) ==> s.rows[k].name in steps
    ensures forall k: nat :: IsRowOf(t, i, k) ==> t.rows[k].name in steps
  {
    hide FreshRow, Issued;
    var base := Settled(s, q, id, status, entries);
    assert base.rows.Keys == s.rows.Keys && forall k :: k in s.rows ==> SameIdentity(s.rows[k], base.rows[k]);
  }

  // ---- Joins that run ----

  /** Rows keep what they are, and none is completed. */
  ghost predicate NoneIsCompleted(s: State, s': State) {
    forall k :: k in s.rows ==>
      && k in s'.rows && SameIdentity(s.rows[k], s'.rows[k])
      && (s.rows[k].status != StepStatus.Completed ==> s'.rows[k].status != StepStatus.Completed)
  }

  /** No row is completed by the change, and the only rows that come are of joins. */
  ghost predicate CompletesNothing(s: State, s': State, steps: Steps) {
    OnlyJoins(s, s', steps) && NoneIsCompleted(s, s')
  }

  lemma NoneTwice(s: State, s1: State, s2: State)
    requires NoneIsCompleted(s, s1) && NoneIsCompleted(s1, s2)
    ensures NoneIsCompleted(s, s2)
  {
  }

  lemma {:induction false} RollbackCompletesNothing(s: State, i: nat, steps: Steps, before: State, calls: seq<string>)
    ensures var s' := RollbackRows(s, i, steps, before, calls); s'.rows.Keys == s.rows.Keys && NoneIsCompleted(s, s')
    decreases calls
  {
    hide RollbackRow, NoneIsCompleted;
    NoneItself(s);
    if calls != [] {
      var rows := StepMap(before, i, before.nextRow);
      if calls[0] in rows && calls[0] in steps {
        var id := rows[calls[0]];
        var s1 := RollbackRow(s, i, steps, id, before.rows[id]);
        OneCompletesNothing(s, i, steps, id, before.rows[id]);
        RollbackCompletesNothing(s1, i, steps, before, calls[1..]);
        NoneTwice(s, s1, RollbackRows(s1, i, steps, before, calls[1..]));
      } else {
        RollbackCompletesNothing(s, i, steps, before, calls[1..]);
      }
    }
  }

  lemma NoneItself(s: State)
    ensures NoneIsCompleted(s, s)
  {
  }

  lemma OneCompletesNothing(s: State, i: nat, steps: Steps, id: nat, row: Row)
    requires row.name in steps
    ensures var s' := RollbackRow(s, i, steps, id, row); s'.rows.Keys == s.rows.Keys && NoneIsCompleted(s, s')
  {
    hide NoneIsCompleted, SetStatus, SetCompensation;
    var failed, sent := SetStatus(s, id, StepStatus.Failed), SetCompensation(s, id, row.comp + 1);
    StatusCompletesNothing(s, id, StepStatus.Failed, row.comp + 1);
    StatusCompletesNothing(s, id, RolledBack, row.comp + 1);
    SameRowsSame(s, failed, Bury(failed, i, id));
    SameRowsSame(s, sent, Enqueue(sent, i, id));
  }

  lemma StatusCompletesNothing(s: State, id: nat, status: StepStatus, comp: nat)
    requires status != StepStatus.Completed
    ensures NoneIsCompleted(s, SetStatus(s, id, status)) && NoneIsCompleted(s, SetCompensation(s, id, comp))
    ensures SetStatus(s, id, status).rows.Keys == s.rows.Keys && SetCompensation(s, id, comp).rows.Keys == s.rows.Keys
  {
    hide NoneIsCompleted;
    NoneItself(s);
    if id in s.rows {
      OneRowChanges(s, SetStatus(s, id, status), id);
      OneRowChanges(s, SetCompensation(s, id, comp), id);
    }
  }

  lemma OneRowChanges(s: State, s': State, id: nat)
    requires id in s.rows && id in s'.rows && s'.rows == s.rows[id := s'.rows[id]]
    requires SameIdentity(s.rows[id], s'.rows[id]) && s'.rows[id].status != StepStatus.Completed
    ensures NoneIsCompleted(s, s') && s'.rows.Keys == s.rows.Keys
  {
  }

  lemma SameRowsSame(s: State, s1: State, s2: State)
    requires NoneIsCompleted(s, s1) && s2.rows == s1.rows
    ensures NoneIsCompleted(s, s2)
  {
  }

  lemma UnwindCompletesNothing(s: State, i: nat, steps: Steps, name: string, c: Choice)
    requires Issued(s)
    ensures var s' := SetInstance(Unwind(s, i, steps, name, c), i, WorkflowStatus.Failed);
            CompletesNothing(s, s', steps) && s'.log == s.log
  {
    hide NoneIsCompleted, SkipRows, RollbackRows, Siblings, Issued, Keeps, Scene.Chain, NearestSavePoint, Statuses;
    var s1 := SkipRows(s, Siblings(s, i, steps, c.order, name));
    var stop := NearestSavePoint(steps, name, c.strays);
    var v := Unwind(s, i, steps, name, c);
    SkipCompletesNothing(s, Siblings(s, i, steps, c.order, name));
    RollbackCompletesNothing(s1, i, steps, s1, Scene(steps, Statuses(s1, i), stop).Chain(name, false, {}).calls);
    NoneTwice(s, s1, v);
    UnwindKeeps(s, i, steps, name, c);
    SameRowsSame(s, v, SetInstance(v, i, WorkflowStatus.Failed));
    QuietIsJoinless(s, v, i, steps);
  }

  lemma SkipCompletesNothing(s: State, skipped: set<nat>)
    ensures NoneIsCompleted(s, SkipRows(s, skipped))
  {
  }

  lemma QuietIsJoinless(s: State, v: State, i: nat, steps: Steps)
    requires Quiet(s, v)
    ensures OnlyJoins(s, SetInstance(v, i, WorkflowStatus.Failed), steps)
    ensures SetInstance(v, i, WorkflowStatus.Failed).log == s.log
  {
  }

  lemma JoinedThen(base: State, t: State, s': State, i: nat, id: nat, steps: Steps)
    requires Joined(base, t, i, steps) && CompletesNothing(t, s', steps) && s'.log == t.log
    requires id in base.rows && base.rows[id].status != StepStatus.Completed
    ensures OnlyJoins(base, s', steps) && id in s'.rows && s'.rows[id].status != StepStatus.Completed
    ensures s'.log == base.log
  {
    hide FreshRow, Issued;
    forall k | k in s'.rows && k !in base.rows && k in t.rows
      ensures s'.rows[k].name in steps && steps[s'.rows[k].name].kind == Join && s'.rows[k].kind == Join
      ensures s'.rows[k].maxRetries == 0
    {
    }
  }

  lemma FreezeCompletesNothing(t: State, i: nat, id: nat, steps: Steps)
    ensures var s' := SetInstance(Freeze(Bury(t, i, id), i), i, Dlq); CompletesNothing(t, s', steps) && s'.log == t.log
  {
  }

  lemma CompletesNothingItself(t: State, steps: Steps)
    ensures CompletesNothing(t, t, steps)
  {
  }

  /** The three ways a failure may go. */
  lemma FailedAddsOnlyJoins(s: State, q: nat, i: nat, id: nat, name: string, c: Choice)
    requires Picks(s, q, i, id, name)
    ensures var def := DefOf(s, i);
            var d := def.steps[name];
            var s' := HandleFailure(Ranned(Started(s, q, id), d, id), i, def, id, s.rows[id], c);
            && id in s'.rows && s'.rows[id].status != StepStatus.Completed
            && OnlyJoins(s, s', def.steps)
            && (s'.log == s.log + RunEntries(d, id) || s'.log == s.log + Entries(d, id, false))
  {
    hide Issued, Joined, Entries, RunEntries, SetStatus, Notify, Tell, Started, Ranned, Unwind, Freeze, Bury;
    hide SetInstance;
    hide CompletesNothing, OnlyJoins, Retries, Settled, Enqueue;
    var def := DefOf(s, i);
    var steps, d, s2 := def.steps, def.steps[name], Ranned(Started(s, q, id), def.steps[name], id);
    var s' := HandleFailure(s2, i, def, id, s.rows[id], c);
    PickedRow(s, q, i, id, name);
    RetriedIs(s, q, id, d);
    RetriedRows(s, q, id, d, i, steps);
    if !Retries(d, s.rows[id]) {
      var status := if def.dlqEnabled then Paused else StepStatus.Failed;
      var base := Settled(s, q, id, status, Entries(d, id, false));
      SettledIs(s, q, id, d, status, false);
      SettledIssued(s, q, i, id, name, status, false);
      SettledRow(s, q, id, status, Entries(d, id, false), steps);
      var t := if def.dlqEnabled then Notify(base, i, steps, c.order, c.order, name, false).0
               else Tell(base, i, steps, c.order, name, false).0;
      NotifyJoined(base, i, steps, c.order, c.order, name, false);
      TellJoined(base, i, steps, c.order, name, false);
      assert Issued(t) by { StillRuns(base, t, i, steps); }
      FreezeCompletesNothing(t, i, id, steps);
      UnwindCompletesNothing(t, i, steps, name, c);
      CompletesNothingItself(t, steps);
      JoinedThen(base, t, s', i, id, steps);
      SameKeysOnlyJoins(s, base, s', steps);
    }
  }

  lemma PickedRow(s: State, q: nat, i: nat, id: nat, name: string)
    requires Picks(s, q, i, id, name)
    ensures id in s.rows && s.rows[id].name == name
  {
  }

  lemma RetriedRows(s: State, q: nat, id: nat, d: StepDef, i: nat, steps: Steps)
    requires id in s.rows
    ensures var s' := Enqueue(Settled(s, q, id, StepStatus.Failed, RunEntries(d, id)), i, id);
            && OnlyJoins(s, s', steps) && id in s'.rows && s'.rows[id].status != StepStatus.Completed
            && s'.log == s.log + RunEntries(d, id)
  {
    hide RunEntries;
  }

  lemma SettledRow(s: State, q: nat, id: nat, status: StepStatus, entries: seq<Entry>, steps: Steps)
    requires id in s.rows
    ensures var base := Settled(s, q, id, status, entries);
            && base.rows.Keys == s.rows.Keys && base.rows[id].status == status && base.log == s.log + entries
  {
  }

  lemma SameKeysOnlyJoins(s: State, base: State, s': State, steps: Steps)
    requires base.rows.Keys == s.rows.Keys && OnlyJoins(base, s', steps)
    ensures OnlyJoins(s, s', steps)
  {
  }

  /** A step that does not pass is not completed, and no rows come but those of joins. */
  lemma FailureAddsOnlyJoins(s: State, q: nat, i: nat, id: nat, name: string, c: Choice)
    requires Picks(s, q, i, id, name) && Undisturbed(s, i, c)
    requires var d := DefOf(s, i).steps[name]; LeadsToSteps(DefOf(s, i).steps, d) && !Passes(s, i, d, name, c)
    ensures var s', d := ExecuteNext(s, q, c), DefOf(s, i).steps[name];
            && id in s'.rows && s'.rows[id].status != StepStatus.Completed
            && OnlyJoins(s, s', DefOf(s, i).steps)
            && (s'.log == s.log + RunEntries(d, id) || s'.log == s.log + Entries(d, id, false))
  {
    hide Passes, ExecuteNext, HandleFailure, Issued, Entries, RunEntries;
    FailureIs(s, q, i, id, name, c);
    FailedAddsOnlyJoins(s, q, i, id, name, c);
  }

  /**
   A join that runs succeeds if and only if it is ready and, where all steps are to succeed, none
   has failed. Then everything that follows it comes; otherwise nothing does.
   */
  lemma JoinSucceedsIff(s: State, q: nat, i: nat, id: nat, name: string, c: Choice)
    requires Picks(s, q, i, id, name) && Undisturbed(s, i, c)
    requires var steps := DefOf(s, i).steps;
             LeadsToSteps(steps, steps[name]) && steps[name].kind == Join && JoinsThere(s, i, steps, name)
    ensures var s' := ExecuteNext(s, q, c);
            && s'.log == s.log + [Ended(id, true)] <==> JoinPasses(s, i, name)
    ensures var steps, s' := DefOf(s, i).steps, ExecuteNext(s, q, c);
            var d := steps[name];
            if JoinPasses(s, i, name) then
              d.next != [] ==> id in s'.rows && s'.rows[id].status == StepStatus.Completed
                               && forall n :: n in d.next && steps[n].kind != Join ==> NewNamed(s, s', n) != {}
            else
              id in s'.rows && s'.rows[id].status != StepStatus.Completed && OnlyJoins(s, s', steps)
  {
    hide ExecuteNext, Issued, JoinsThere, OnlyJoins, Completes, Busy;
    var steps, s' := DefOf(s, i).steps, ExecuteNext(s, q, c);
    var d := steps[name];
    assert Entries(d, id, true) == [Ended(id, true)] && Entries(d, id, false) == [Ended(id, false)];
    if JoinPasses(s, i, name) {
      SuccessOutcome(s, q, i, id, name, c);
      var base := Settled(s, q, id, StepStatus.Completed, Entries(d, id, true));
      if Completes(base, s', i, steps) {
        CompletesLog(base, s', i, steps);
      }
      SettledKeys(s, q, id, StepStatus.Completed, Entries(d, id, true));
      if d.next != [] {
        forall n | n in d.next && steps[n].kind != Join
          ensures NewNamed(s, s', n) != {}
        {
          assert n in multiset(d.next);
          assert |NewNamed(base, s', n)| > 0;
        }
      }
    } else {
      FailureAddsOnlyJoins(s, q, i, id, name, c);
      assert (s.log + [Ended(id, false)])[|s.log|] != (s.log + [Ended(id, true)])[|s.log|];
      assert |s.log + []| != |s.log + [Ended(id, true)]|;
    }
  }

  lemma CompletesLog(b: State, s': State, i: nat, steps: Steps)
    requires Completes(b, s', i, steps)
    ensures s'.log == b.log
  {
    hide SentBack, LeftAlone, LatestFirst, CompletedLate, InCompensation, HasFailures;
  }

  // ---- Compensation ----

  /** After it the instance has failed, if nothing of it is worked on, paused or in compensation. */
  ghost predicate SettledAfter(b: State, s': State, i: nat) {
    if !Busy(b, i) && !InCompensation(b, i) && HasFailures(b, i)
    then SameStore(s', WithStatus(b, i, WorkflowStatus.Failed)) else SameStore(s', b)
  }

  /**
   One run of a compensation: the row is rolled back if it succeeds; else it is sent there again,
   with one item, as long as retries are left, and fails for good after that.
   */
  lemma CompensationOutcome(s: State, q: nat, i: nat, id: nat, name: string, c: Choice)
    requires Issued(s) && q in s.queue && s.queue[q] == Item(i, id) && IsRowOf(s, i, id) && s.rows[id].name == name
    requires s.rows[id].status == Compensation && DefinedFor(s, i) && !InDlq(s, i) && name in DefOf(s, i).steps
    requires c.hasHandler
    ensures var steps, s' := DefOf(s, i).steps, ExecuteNext(s, q, c);
            var undo, row := steps[name].onFailure, s.rows[id];
            var b := s.(queue := s.queue - {q}, log := s.log + [Compensated(id)]);
            if undo !in steps then
              SameStore(s', s.(queue := s.queue - {q}, rows := s.rows[id := row.(status := RolledBack)]))
            else if c.succeeds then SettledAfter(b.(rows := s.rows[id := row.(status := RolledBack)]), s', i)
            else if row.comp < steps[undo].maxRetries then
              SameStore(s', b.(rows := s.rows[id := row.(comp := row.comp + 1)],
                               queue := b.queue[s.nextItem := Item(i, id)]))
            else
              SameStore(s', b.(rows := s.rows[id := row.(status := StepStatus.Failed, retry := row.retry + 1)]))
  {
    hide Issued;
    var row := s.rows[id];
    assert row.(status := Compensation, comp := row.comp + 1) == row.(comp := row.comp + 1);
    WithStatusIs(Note(RemoveItem(s, q), Compensated(id)), i, WorkflowStatus.Failed);
  }
}
