/**
 How often one row's handler and its compensation may run, in any run of any workflow: each
 row has a budget, and the engine's operations spend it without ever renewing it. Only a
 requeue of the row's own dead letter starts it anew.
 */
module EngineBounds {
  import opened Definitions
  import opened Searches
  import opened Rollback
  import opened JoinStates
  import opened Validator
  import opened Engine
  import opened EngineFrame
  import opened EngineRuns
  import opened EngineSagas

  /** A row and what its definition grants it; `undo` is the MaxRetries of its compensation. */
  datatype Grant = Grant(row: nat, instance: nat, name: string, d: StepDef, undo: Option<int>)

  function Positive(x: int): nat {
    if x > 0 then x else 0
  }

  /** Compensations still to come when the counter stands at `comp`. */
  function Tries(k: Grant, comp: nat): nat {
    if k.undo.None? then 0 else Positive(k.undo.value - comp)
  }

  /** Compensations that a completion may bring about, as it lets the counter start at 0 again. */
  function Again(k: Grant): nat {
    if k.undo.None? then 0 else Positive(k.undo.value) + 1
  }

  function Once(k: Grant): nat {
    if k.undo.None? then 0 else 1
  }

  /** Runs of the handler from the next one on. */
  function Left(k: Grant, retry: nat): nat {
    if retry < RunLimit(k.d) then RunLimit(k.d) - retry else 1
  }

  /** How many queue items lead to a row in each status. */
  predicate ItemsFit(status: StepStatus, n: nat) {
    match status
    case Pending => n <= 1
    case Failed => n <= 1
    case Compensation => n <= 2
    case Skipped => true
    case RolledBack => true
    case _ => n == 0
  }

  function RunsToCome(k: Grant, row: Row, n: nat): nat {
    match row.status
    case Pending => if n >= 1 then Left(k, row.retry) else 0
    case Failed => if n >= 1 then Left(k, row.retry) else 0
    case Compensation => if n >= 2 then Left(k, row.retry) else 0
    case Running => Left(k, row.retry) - 1
    case _ => 0
  }

  function CompensationsToCome(k: Grant, row: Row, n: nat): nat {
    match row.status
    case Pending => if n >= 1 then Tries(k, row.comp) + Again(k) else 0
    case Running => Tries(k, row.comp) + Again(k)
    case Failed => Tries(k, row.comp) + if n >= 1 then Again(k) else 0
    case Completed => Again(k)
    case Compensation => if n >= 1 then Tries(k, row.comp) + Once(k) + if n >= 2 then Again(k) else 0 else 0
    case _ => 0
  }

  function CompBound(k: Grant): nat {
    if k.undo.None? then 0 else 2 * Positive(k.undo.value) + 1
  }

  /** What the row has used and what may still come stay within its grant. */
  predicate Within(k: Grant, row: Row, n: nat, runs: nat, comps: nat) {
    && row.maxRetries in {k.d.maxRetries, 0}
    && ItemsFit(row.status, n)
    && runs + RunsToCome(k, row, n) <= RunLimit(k.d)
    && comps + CompensationsToCome(k, row, n) <= CompBound(k)
  }

  predicate IsIt(row: Row, k: Grant) {
    row.instance == k.instance && row.name == k.name
  }

  /** The granted row is there. */
  predicate Its(s: State, k: Grant) {
    k.row in s.rows && IsIt(s.rows[k.row], k)
  }

  ghost predicate InBudget(s: State, k: Grant)
    requires k.row in s.rows
  {
    Within(k, s.rows[k.row], |Items(s, k.row)|, Count(s.log, Ran(k.row)), Count(s.log, Compensated(k.row)))
  }

  ghost predicate Unborn(s: State, k: Grant) {
    Items(s, k.row) == {} && Count(s.log, Ran(k.row)) == 0 && Count(s.log, Compensated(k.row)) == 0
  }

  ghost predicate Numbered(s: State) {
    && (forall id :: id in s.rows ==> id < s.nextRow)
    && (forall q :: q in s.queue ==> q < s.nextItem)
  }

  /** The invariant for one row number: not given out yet, or given to another row, or within budget. */
  ghost predicate Keeping(s: State, k: Grant) {
    && Numbered(s)
    && (k.row !in s.rows ==> Unborn(s, k))
    && (Its(s, k) ==> InBudget(s, k))
  }

  /** The definition by which instance `i` is worked on grants what the row has. */
  predicate Grants(steps: Steps, i: nat, k: Grant) {
    i == k.instance && k.name in steps ==>
      && steps[k.name] == k.d
      && k.undo == if k.d.onFailure in steps then Some(steps[k.d.onFailure].maxRetries) else None
  }

  // ---- Primitive changes elsewhere ----

  lemma SameItems(s: State, s': State, k: Grant)
    requires s'.queue == s.queue && s'.log == s.log && s'.nextRow == s.nextRow && s'.nextItem == s.nextItem
    requires s'.rows.Keys == s.rows.Keys && (k.row in s.rows ==> s'.rows[k.row] == s.rows[k.row])
    requires Keeping(s, k)
    ensures Keeping(s', k)
  {
    hide Within;
    assert Items(s', k.row) == Items(s, k.row);
  }

  lemma OtherStatusKeeps(s: State, id: nat, status: StepStatus, comp: nat, k: Grant)
    requires Keeping(s, k) && id != k.row
    ensures Keeping(SetStatus(s, id, status), k) && Keeping(SetCompensation(s, id, comp), k)
  {
    hide Keeping;
    if id in s.rows {
      SameItems(s, SetStatus(s, id, status), k);
      SameItems(s, SetCompensation(s, id, comp), k);
    }
  }

  lemma EnqueueOtherKeeps(s: State, i: nat, id: nat, k: Grant)
    requires Keeping(s, k) && id != k.row
    ensures Keeping(Enqueue(s, i, id), k)
  {
    hide Within;
    assert Items(Enqueue(s, i, id), k.row) == Items(s, k.row) by {
      assert s.nextItem !in s.queue;
    }
  }

  lemma FewerItemsKeep(k: Grant, row: Row, n: nat, m: nat, runs: nat, comps: nat)
    requires Within(k, row, n, runs, comps) && m <= n
    ensures Within(k, row, m, runs, comps)
  {
  }

  lemma LessQueueKeeps(s: State, s': State, k: Grant)
    requires Keeping(s, k) && s'.log == s.log && s'.rows == s.rows && s'.nextRow == s.nextRow
    requires s'.nextItem == s.nextItem && s'.queue.Keys <= s.queue.Keys
    requires forall q :: q in s'.queue ==> s'.queue[q] == s.queue[q]
    ensures Keeping(s', k)
  {
    hide Within;
    assert Items(s', k.row) <= Items(s, k.row);
    SubsetCardinality(Items(s', k.row), Items(s, k.row));
    if Its(s, k) {
      FewerItemsKeep(k, s.rows[k.row], |Items(s, k.row)|, |Items(s', k.row)|,
                     Count(s.log, Ran(k.row)), Count(s.log, Compensated(k.row)));
    }
  }

  lemma RemoveItemKept(s: State, q: nat, k: Grant)
    requires Keeping(s, k)
    ensures Keeping(RemoveItem(s, q), k)
  {
    hide Keeping;
    LessQueueKeeps(s, RemoveItem(s, q), k);
  }

  lemma InstanceKept(s: State, i: nat, status: WorkflowStatus, k: Grant)
    requires Keeping(s, k)
    ensures Keeping(SetInstance(s, i, status), k)
  {
    hide Keeping;
    SameItems(s, SetInstance(s, i, status), k);
  }

  lemma PutJoinKept(s: State, i: nat, join: string, j: JoinState, k: Grant)
    requires Keeping(s, k)
    ensures Keeping(PutJoin(s, i, join, j), k)
  {
    hide Keeping;
    SameItems(s, PutJoin(s, i, join, j), k);
  }

  lemma BuryKept(s: State, i: nat, id: nat, k: Grant)
    requires Keeping(s, k)
    ensures Keeping(Bury(s, i, id), k)
  {
    hide Keeping;
    SameItems(s, Bury(s, i, id), k);
  }

  lemma NoteKept(s: State, e: Entry, k: Grant)
    requires Keeping(s, k) && (e.Ended? || e.row != k.row)
    ensures Keeping(Note(s, e), k)
  {
    hide Within, Items, Numbered;
    CountNote(s.log, e, Ran(k.row));
    CountNote(s.log, e, Compensated(k.row));
    SameQueueItems(s, Note(s, e), k.row);
  }

  lemma SameQueueItems(s: State, s': State, r: nat)
    requires s'.queue == s.queue && s'.rows == s.rows && s'.nextRow == s.nextRow && s'.nextItem == s.nextItem
    ensures Items(s', r) == Items(s, r) && Numbered(s') == Numbered(s)
  {
  }

  /** A row that is skipped or paused has nothing to come. */
  lemma SkipRowsKept(s: State, skipped: set<nat>, k: Grant)
    requires Keeping(s, k)
    ensures Keeping(SkipRows(s, skipped), k)
  {
    assert Items(SkipRows(s, skipped), k.row) == Items(s, k.row);
  }

  lemma FreezeKept(s: State, i: nat, k: Grant)
    requires Keeping(s, k)
    ensures Keeping(Freeze(s, i), k)
  {
    hide Within;
    var s1 := Freeze(s, i).(rows := s.rows);
    assert Keeping(s1, k) by { hide Keeping; LessQueueKeeps(s, s1, k); }
    var s' := Freeze(s, i);
    assert Items(s', k.row) == Items(s1, k.row);
    if Its(s, k) {
      PausedKeeps(k, s.rows[k.row], |Items(s1, k.row)|, Count(s.log, Ran(k.row)), Count(s.log, Compensated(k.row)));
    }
  }

  lemma PausedKeeps(k: Grant, row: Row, n: nat, runs: nat, comps: nat)
    requires Within(k, row, n, runs, comps)
    ensures row.status == StepStatus.Running ==> Within(k, row.(status := Paused), n, runs, comps)
  {
  }

  // ---- New rows ----

  /** A row as it is created: pending with an item, or paused without one. */
  predicate IsNew(row: Row, steps: Steps, i: nat) {
    && row.instance == i && row.retry == 0 && row.comp == 0 && row.name in steps
    && row.maxRetries in {steps[row.name].maxRetries, 0}
  }

  lemma BornWithin(k: Grant, row: Row, steps: Steps, i: nat)
    requires IsNew(row, steps, i) && Grants(steps, i, k) && IsIt(row, k)
    ensures row.status == Pending ==> Within(k, row, 1, 0, 0)
    ensures row.status == Paused ==> Within(k, row, 0, 0, 0)
  {
  }

  lemma NewRowItems(s: State, row: Row, i: nat, r: nat)
    requires Numbered(s)
    ensures var s1 := CreateRow(s, row);
            && Numbered(s1) && Items(s1, r) == Items(s, r)
            && (r != s.nextRow ==> Items(Enqueue(s1, i, s.nextRow), r) == Items(s, r))
            && |Items(Enqueue(s1, i, s.nextRow), s.nextRow)| == |Items(s1, s.nextRow)| + 1
            && Numbered(Enqueue(s1, i, s.nextRow))
  {
    var s1 := CreateRow(s, row);
    assert Items(s1, r) == Items(s, r);
    EnqueueItems(s1, i, s.nextRow);
    assert s.nextItem !in s.queue;
    assert r != s.nextRow ==> Items(Enqueue(s1, i, s.nextRow), r) == Items(s, r);
  }

  lemma NewRowKept(s: State, row: Row, steps: Steps, i: nat, k: Grant)
    requires Keeping(s, k) && IsNew(row, steps, i) && Grants(steps, i, k)
    ensures row.status == Pending ==> Keeping(Enqueue(CreateRow(s, row), i, s.nextRow), k)
    ensures row.status == Paused ==> Keeping(CreateRow(s, row), k)
  {
    hide Within, IsNew, Grants, Items, Numbered;
    NewRowItems(s, row, i, k.row);
    assert s.nextRow !in s.rows by { NextIsNew(s); }
    if s.nextRow == k.row && IsIt(row, k) {
      BornWithin(k, row, steps, i);
    }
  }

  lemma NextIsNew(s: State)
    requires Numbered(s)
    ensures s.nextRow !in s.rows
  {
  }

  // ---- The row itself ----

  /** The row is taken from running to an outcome. */
  lemma DecidedWithin(k: Grant, row: Row, n: nat, runs: nat, comps: nat)
    requires Within(k, row, n, runs, comps) && row.status == StepStatus.Running
    ensures Within(k, row.(status := StepStatus.Completed), n, runs, comps)
    ensures Within(k, row.(status := Paused), n, runs, comps)
    ensures Within(k, row.(status := StepStatus.Failed, retry := row.retry + 1), n, runs, comps)
  {
  }

  lemma OwnRow(s: State, s': State, k: Grant)
    requires Keeping(s, k) && Its(s, k) && s'.rows.Keys == s.rows.Keys && Its(s', k)
    requires s'.nextRow == s.nextRow && (forall q :: q in s'.queue ==> q < s'.nextItem)
    requires InBudget(s', k)
    ensures Keeping(s', k)
  {
  }

  lemma DecideStatusKeeps(s: State, id: nat, status: StepStatus, k: Grant)
    requires Keeping(s, k) && status in {StepStatus.Completed, StepStatus.Failed, Paused}
    requires id == k.row && Its(s, k) ==> s.rows[id].status == StepStatus.Running
    ensures Keeping(SetStatus(s, id, status), k)
  {
    hide Within;
    var s' := SetStatus(s, id, status);
    if id == k.row && Its(s, k) {
      assert Items(s', k.row) == Items(s, k.row);
      DecidedWithin(k, s.rows[id], |Items(s, id)|, Count(s.log, Ran(id)), Count(s.log, Compensated(id)));
      OwnRow(s, s', k);
    } else if id == k.row {
      assert Items(s', k.row) == Items(s, k.row);
    } else {
      hide Keeping;
      OtherStatusKeeps(s, id, status, 0, k);
    }
  }

  lemma DecideKept(s: State, id: nat, status: StepStatus, success: bool, k: Grant)
    requires Keeping(s, k) && status in {StepStatus.Completed, StepStatus.Failed, Paused}
    requires id == k.row && Its(s, k) ==> s.rows[id].status == StepStatus.Running
    ensures Keeping(Note(SetStatus(s, id, status), Ended(id, success)), k)
  {
    hide Keeping, SetStatus, Note;
    DecideStatusKeeps(s, id, status, k);
    NoteKept(SetStatus(s, id, status), Ended(id, success), k);
  }

  /** A failed run that is to be repeated. */
  lemma RetryWithin(k: Grant, row: Row, n: nat, runs: nat, comps: nat)
    requires Within(k, row, n, runs, comps) && row.status == StepStatus.Running
    requires Retries(k.d, row)
    ensures Within(k, row.(status := StepStatus.Failed, retry := row.retry + 1), n + 1, runs, comps)
  {
  }

  lemma EnqueueItems(s: State, i: nat, r: nat)
    requires Numbered(s)
    ensures |Items(Enqueue(s, i, r), r)| == |Items(s, r)| + 1
    ensures Numbered(Enqueue(s, i, r))
  {
    assert s.nextItem !in s.queue;
    assert Items(Enqueue(s, i, r), r) == Items(s, r) + {s.nextItem};
  }

  /** A row that gets a new status and an item at once. */
  lemma OwnEnqueued(s: State, s1: State, i: nat, k: Grant)
    requires Keeping(s, k) && Its(s, k) && Its(s1, k)
    requires s1 == s.(rows := s.rows[k.row := s1.rows[k.row]])
    requires Within(k, s1.rows[k.row], |Items(s, k.row)| + 1,
                    Count(s.log, Ran(k.row)), Count(s.log, Compensated(k.row)))
    ensures Keeping(Enqueue(s1, i, k.row), k)
  {
    hide Within;
    assert Items(s1, k.row) == Items(s, k.row);
    EnqueueItems(s1, i, k.row);
  }

  lemma RetryKeeps(s: State, i: nat, id: nat, row: Row, k: Grant)
    requires Keeping(s, k) && id in s.rows
    requires id == k.row && Its(s, k) ==>
             s.rows[id] == row.(status := StepStatus.Running) && Retries(k.d, row)
    ensures Keeping(Enqueue(SetStatus(s, id, StepStatus.Failed), i, id), k)
  {
    var s1 := SetStatus(s, id, StepStatus.Failed);
    if id == k.row && Its(s, k) {
      hide Within;
      RetryWithin(k, s.rows[id], |Items(s, id)|, Count(s.log, Ran(id)), Count(s.log, Compensated(id)));
      OwnEnqueued(s, s1, i, k);
    } else if id == k.row {
      hide Within;
    } else {
      hide Keeping, SetStatus, Enqueue;
      OtherStatusKeeps(s, id, StepStatus.Failed, 0, k);
      EnqueueOtherKeeps(s1, i, id, k);
    }
  }

  // ---- Rollback and compensation ----

  lemma UndoneWithin(k: Grant, row: Row, n: nat, runs: nat, comps: nat)
    requires Within(k, row, n, runs, comps) && row.status in {StepStatus.Completed, StepStatus.Failed}
    ensures Within(k, row.(status := RolledBack), n, runs, comps)
    ensures k.undo.Some? && row.comp >= k.undo.value ==>
              Within(k, row.(status := StepStatus.Failed, retry := row.retry + 1), n, runs, comps)
    ensures k.undo.Some? && row.comp < k.undo.value ==>
              Within(k, row.(status := Compensation, comp := row.comp + 1), n + 1, runs, comps)
    ensures row.status == StepStatus.Completed ==>
              Within(k, row.(status := Compensation, comp := 0), n + 1, runs, comps)
  {
  }

  lemma OwnRolledBack(s: State, i: nat, steps: Steps, row: Row, k: Grant)
    requires Keeping(s, k) && Its(s, k) && s.rows[k.row] == row && row.name in steps && i == k.instance
    requires Grants(steps, i, k) && row.status in {StepStatus.Completed, StepStatus.Failed}
    ensures Keeping(RollbackRow(s, i, steps, k.row, row), k)
  {
    hide Within;
    var r := k.row;
    UndoneWithin(k, row, |Items(s, r)|, Count(s.log, Ran(r)), Count(s.log, Compensated(r)));
    if k.undo.None? {
      var s' := SetStatus(s, r, RolledBack);
      assert Items(s', r) == Items(s, r);
      OwnRow(s, s', k);
    } else if row.comp >= k.undo.value {
      var s' := SetStatus(s, r, StepStatus.Failed);
      assert Items(s', r) == Items(s, r);
      OwnRow(s, s', k);
      BuryKept(s', i, r, k);
    } else {
      OwnEnqueued(s, SetCompensation(s, r, row.comp + 1), i, k);
    }
  }

  lemma RollbackRowKept(s: State, i: nat, steps: Steps, id: nat, row: Row, k: Grant)
    requires Keeping(s, k) && id in s.rows && s.rows[id] == row && row.name in steps && row.instance == i
    requires Grants(steps, i, k) && row.status in {StepStatus.Completed, StepStatus.Failed}
    ensures Keeping(RollbackRow(s, i, steps, id, row), k)
  {
    if id == k.row && Its(s, k) {
      hide Keeping, RollbackRow;
      OwnRolledBack(s, i, steps, row, k);
    } else if id == k.row {
      OtherRowStays(s, i, steps, row, k);
    } else {
      hide Keeping, SetStatus, SetCompensation, Bury, Enqueue;
      OtherStatusKeeps(s, id, RolledBack, row.comp + 1, k);
      OtherStatusKeeps(s, id, StepStatus.Failed, row.comp + 1, k);
      BuryKept(SetStatus(s, id, StepStatus.Failed), i, id, k);
      EnqueueOtherKeeps(SetCompensation(s, id, row.comp + 1), i, id, k);
    }
  }

  /** Another row that carries the number stays the other row. */
  lemma NotItsKeeps(s: State, s': State, k: Grant)
    requires Keeping(s, k) && k.row in s.rows && !Its(s, k)
    requires s'.rows.Keys == s.rows.Keys && IsIt(s'.rows[k.row], k) == IsIt(s.rows[k.row], k)
    requires s'.nextRow == s.nextRow && forall q :: q in s'.queue ==> q < s'.nextItem
    ensures Keeping(s', k)
  {
  }

  lemma OtherRowStays(s: State, i: nat, steps: Steps, row: Row, k: Grant)
    requires Keeping(s, k) && k.row in s.rows && !Its(s, k) && s.rows[k.row] == row && row.name in steps
    ensures Keeping(RollbackRow(s, i, steps, k.row, row), k)
  {
    hide Keeping, RollbackRow;
    KeepingIsNumbered(s, k);
    RollbackRowOthers(s, i, steps, k.row, row);
    RollbackRowNumbers(s, i, steps, k.row, row);
    NotItsKeeps(s, RollbackRow(s, i, steps, k.row, row), k);
  }

  lemma KeepingIsNumbered(s: State, k: Grant)
    requires Keeping(s, k)
    ensures Numbered(s)
  {
  }

  lemma RollbackRowNumbers(s: State, i: nat, steps: Steps, id: nat, row: Row)
    requires row.name in steps && id in s.rows && Numbered(s)
    ensures var s' := RollbackRow(s, i, steps, id, row);
            && s'.nextRow == s.nextRow && (forall q :: q in s'.queue ==> q < s'.nextItem)
            && id in s'.rows && SameIdentity(s.rows[id], s'.rows[id])
  {
    var onFailure := steps[row.name].onFailure;
    var s' := RollbackRow(s, i, steps, id, row);
    if onFailure !in steps {
      assert s' == SetStatus(s, id, RolledBack);
    } else if row.comp >= steps[onFailure].maxRetries {
      assert s' == Bury(SetStatus(s, id, StepStatus.Failed), i, id);
    } else {
      assert s' == Enqueue(SetCompensation(s, id, row.comp + 1), i, id);
    }
  }

  lemma EnqueueRows(s: State, i: nat, id: nat)
    ensures Enqueue(s, i, id).rows == s.rows
  {
  }

  lemma RollbackRowOthers(s: State, i: nat, steps: Steps, id: nat, row: Row)
    requires row.name in steps && id in s.rows
    ensures var s' := RollbackRow(s, i, steps, id, row);
            && id in s'.rows && s'.rows.Keys == s.rows.Keys
            && (forall n :: n in s.rows && n != id ==> s'.rows[n] == s.rows[n])
  {
    hide Enqueue;
    var s' := RollbackRow(s, i, steps, id, row);
    EnqueueRows(SetCompensation(s, id, row.comp + 1), i, id);
    assert s'.rows == s.rows[id := s'.rows[id]];
  }

  lemma {:induction false} RollbackRowsKept(s: State, i: nat, steps: Steps, before: State, calls: seq<string>, k: Grant)
    requires Keeping(s, k) && Grants(steps, i, k) && Untouched(s, i, steps, before, calls)
    ensures Keeping(RollbackRows(s, i, steps, before, calls), k)
    decreases calls
  {
    hide Keeping, RollbackRow, Grants;
    if calls != [] {
      var rows := StepMap(before, i, before.nextRow);
      var id := rows[calls[0]];
      assert calls[0] in calls;
      RollbackRowKept(s, i, steps, id, before.rows[id], k);
      RollbackRowOthers(s, i, steps, id, before.rows[id]);
      UntouchedNext(s, RollbackRow(s, i, steps, id, before.rows[id]), i, steps, before, calls);
      RollbackRowsKept(RollbackRow(s, i, steps, id, before.rows[id]), i, steps, before, calls[1..], k);
    }
  }

  lemma RollbackFromKept(s: State, i: nat, steps: Steps, name: string, target: string, k: Grant)
    requires Keeping(s, k) && Grants(steps, i, k)
    ensures Keeping(RollbackFrom(s, i, steps, name, target).0, k)
  {
    hide Keeping, Grants;
    var scene := Scene(steps, Statuses(s, i), target);
    EachStepAtMostOnce(scene, name, false, {});
    RollbackRowsKept(s, i, steps, s, scene.Chain(name, false, {}).calls, k);
  }

  /** completeWorkflow compensates a completed row, with the counter at 0 again. */
  lemma LateCompensationKeeps(s: State, i: nat, id: nat, k: Grant)
    requires Keeping(s, k) && id in s.rows && s.rows[id].status == StepStatus.Completed
    ensures Keeping(Enqueue(SetCompensation(s, id, 0), i, id), k) && Keeping(SetStatus(s, id, RolledBack), k)
  {
    if id == k.row && Its(s, k) {
      hide Within;
      UndoneWithin(k, s.rows[id], |Items(s, id)|, Count(s.log, Ran(id)), Count(s.log, Compensated(id)));
      OwnEnqueued(s, SetCompensation(s, id, 0), i, k);
      var s' := SetStatus(s, id, RolledBack);
      assert Items(s', id) == Items(s, id);
      OwnRow(s, s', k);
    } else if id == k.row {
      hide Within;
    } else {
      hide Keeping, SetStatus, SetCompensation, Enqueue;
      OtherStatusKeeps(s, id, RolledBack, 0, k);
      EnqueueOtherKeeps(SetCompensation(s, id, 0), i, id, k);
    }
  }

  lemma {:induction false} CompensateCompletedKept(s: State, i: nat, steps: Steps, after: Option<nat>, bound: nat,
        k: Grant)
    requires Keeping(s, k)
    ensures Keeping(CompensateCompleted(s, i, steps, after, bound), k)
    decreases bound
  {
    hide Keeping, SetStatus, SetCompensation, Enqueue;
    if bound > 0 {
      var id := bound - 1;
      if LateCompletion(s, i, after, id) {
        LateCompensationKeeps(s, i, id, k);
      }
      var s1 := if !LateCompletion(s, i, after, id) then s
                else if s.rows[id].name in steps && steps[s.rows[id].name].onFailure != "" then
                  Enqueue(SetCompensation(s, id, 0), i, id)
                else SetStatus(s, id, RolledBack);
      CompensateCompletedKept(s1, i, steps, after, id, k);
    }
  }

  lemma CompleteWorkflowKept(s: State, i: nat, steps: Steps, k: Grant)
    requires Keeping(s, k)
    ensures Keeping(CompleteWorkflow(s, i, steps), k)
  {
    hide Keeping, SetInstance, CompensateCompleted;
    var s1 := CompensateCompleted(s, i, steps, LastSavePoint(s, i, s.nextRow), s.nextRow);
    CompensateCompletedKept(s, i, steps, LastSavePoint(s, i, s.nextRow), s.nextRow, k);
    InstanceKept(s1, i, WorkflowStatus.Failed, k);
    InstanceKept(s, i, WorkflowStatus.Completed, k);
  }

  // ---- Joins ----

  lemma CreateJoinRowKept(s: State, i: nat, steps: Steps, join: string, k: Grant)
    requires Keeping(s, k) && Grants(steps, i, k) && join in steps
    ensures Keeping(CreateJoinRow(s, i, join), k)
  {
    hide Keeping, Grants, Enqueue, CreateRow;
    NewRowKept(s, Row(i, join, Join, Paused, 0, 0, 0), steps, i, k);
    NewRowKept(s, Row(i, join, Join, Pending, 0, 0, 0), steps, i, k);
  }

  lemma NotifyOneKept(s: State, i: nat, steps: Steps, order: seq<string>, join: string, name: string, success: bool,
        k: Grant)
    requires Keeping(s, k) && Grants(steps, i, k) && join in steps
    ensures Keeping(NotifyOne(s, i, steps, order, join, name, success).0, k)
  {
    hide Keeping, Grants, PutJoin, CreateJoinRow, BranchesPending, Update, HasRow;
    if (i, join) in s.joins {
      var updated := Update(s.joins[(i, join)], name, success);
      var s1 := PutJoin(s, i, join, updated);
      PutJoinKept(s, i, join, updated, k);
      PutJoinKept(s1, i, join, Update(updated, name, success), k);
      CreateJoinRowKept(s1, i, steps, join, k);
    }
  }

  lemma {:induction false} NotifyKept(s: State, i: nat, steps: Steps, order: seq<string>, rest: seq<string>,
        name: string, success: bool, k: Grant)
    requires Keeping(s, k) && Grants(steps, i, k)
    ensures Keeping(Notify(s, i, steps, order, rest, name, success).0, k)
    decreases rest
  {
    hide Keeping, Grants, NotifyOne;
    if rest != [] {
      if Waits(s, i, steps, rest[0], name) {
        var s1 := NotifyOne(s, i, steps, order, rest[0], name, success).0;
        NotifyOneKept(s, i, steps, order, rest[0], name, success, k);
        NotifyKept(s1, i, steps, order, rest[1..], name, success, k);
      } else {
        NotifyKept(s, i, steps, order, rest[1..], name, success, k);
      }
    }
  }

  lemma TakePlaceholderKept(s: State, i: nat, steps: Steps, order: seq<string>, condition: string, name: string,
        success: bool, k: Grant)
    requires Keeping(s, k) && Grants(steps, i, k)
    ensures Keeping(TakePlaceholder(s, i, steps, order, condition, name, success), k)
  {
    hide Keeping, Grants, PutJoin, NotifyOne, JoinFor, ReplaceWait, FirstStatus;
    var join := JoinFor(steps, order, name);
    if join != "" {
      var j := if (i, join) !in s.joins then Fresh([name], All)
               else ReplaceWait(s.joins[(i, join)], VirtualName(condition), name, FirstStatus(s, i, name, s.nextRow));
      PutJoinKept(s, i, join, j, k);
      NotifyOneKept(PutJoin(s, i, join, j), i, steps, order, join, name, success, k);
    }
  }

  lemma AddTerminalKept(s: State, i: nat, steps: Steps, order: seq<string>, name: string, k: Grant)
    requires Keeping(s, k)
    ensures Keeping(AddTerminal(s, i, steps, order, name), k)
  {
    hide Keeping, PutJoin, JoinFor, AddWait;
    var join := JoinFor(steps, order, name);
    if join != "" {
      PutJoinKept(s, i, join, Fresh([name], steps[join].strategy), k);
      if (i, join) in s.joins {
        PutJoinKept(s, i, join, AddWait(s.joins[(i, join)], name), k);
      }
    }
  }

  lemma TellKept(s: State, i: nat, steps: Steps, order: seq<string>, name: string, success: bool, k: Grant)
    requires Keeping(s, k) && Grants(steps, i, k) && name in steps
    ensures Keeping(Tell(s, i, steps, order, name, success).0, k)
  {
    hide Keeping, Grants, TakePlaceholder, AddTerminal, Notify, TerminalInFork, ConditionAbove;
    TakePlaceholderKept(s, i, steps, order, ConditionAbove(steps, steps[name]), name, success, k);
    AddTerminalKept(s, i, steps, order, name, k);
    NotifyKept(PrepareJoins(s, i, steps, order, name, success), i, steps, order, order, name, success, k);
  }

  // ---- One step ----

  lemma {:induction false} EnqueueNextKept(s: State, i: nat, steps: Steps, names: seq<string>, skipJoins: bool,
        k: Grant)
    requires Keeping(s, k) && Grants(steps, i, k)
    ensures Keeping(EnqueueNext(s, i, steps, names, skipJoins).0, k)
    decreases names
  {
    hide Keeping, Grants, Enqueue, CreateRow;
    if names != [] && names[0] in steps {
      EnqueueNextKept(s, i, steps, names[1..], skipJoins, k);
      var row := Row(i, names[0], steps[names[0]].kind, Pending, 0, steps[names[0]].maxRetries, 0);
      NewRowKept(s, row, steps, i, k);
      EnqueueNextKept(Enqueue(CreateRow(s, row), i, s.nextRow), i, steps, names[1..], skipJoins, k);
    }
  }

  lemma {:induction false} CreateBranchesKept(s: State, i: nat, steps: Steps, names: seq<string>, k: Grant)
    requires Keeping(s, k) && Grants(steps, i, k)
    ensures Keeping(CreateBranches(s, i, steps, names).0, k)
    decreases names
  {
    hide Keeping, Grants, Enqueue, CreateRow;
    if names != [] && names[0] in steps {
      var row := Row(i, names[0], steps[names[0]].kind, Pending, 0, steps[names[0]].maxRetries, 0);
      NewRowKept(s, row, steps, i, k);
      CreateBranchesKept(Enqueue(CreateRow(s, row), i, s.nextRow), i, steps, names[1..], k);
    }
  }

  lemma {:induction false} CreateJoinsKept(s: State, i: nat, steps: Steps, d: StepDef, names: seq<string>, k: Grant)
    requires Keeping(s, k)
    ensures Keeping(CreateJoins(s, i, steps, d, names), k)
    decreases names
  {
    hide Keeping, PutJoin;
    if names != [] {
      if names[0] in steps && steps[names[0]].kind == Join {
        var join := steps[names[0]];
        var waitFor := if join.waitFor == [] then d.parallel else join.waitFor;
        PutJoinKept(s, i, names[0], Fresh(waitFor, join.strategy), k);
        CreateJoinsKept(NewJoin(s, i, names[0], waitFor, join.strategy), i, steps, d, names[1..], k);
      } else {
        CreateJoinsKept(s, i, steps, d, names[1..], k);
      }
    }
  }

  /** The row is running and one more run of its handler is in its budget. */
  ghost predicate MayRun(s: State, k: Grant)
    requires k.row in s.rows
  {
    s.rows[k.row].status == StepStatus.Running
    && Count(s.log, Ran(k.row)) + Left(k, s.rows[k.row].retry) <= RunLimit(k.d)
  }

  lemma RanKeeps(s: State, id: nat, k: Grant)
    requires Keeping(s, k) && id in s.rows && (id == k.row && Its(s, k) ==> MayRun(s, k))
    ensures Keeping(Note(s, Ran(id)), k)
  {
    CountNote(s.log, Ran(id), Ran(k.row));
    CountNote(s.log, Ran(id), Compensated(k.row));
    assert Items(Note(s, Ran(id)), k.row) == Items(s, k.row);
  }

  lemma WorkKept(s: State, i: nat, steps: Steps, id: nat, name: string, c: Choice, k: Grant)
    requires Keeping(s, k) && Grants(steps, i, k) && name in steps && id in s.rows
    requires id == k.row && Its(s, k) ==> MayRun(s, k)
    ensures Keeping(Work(s, i, steps, id, name, c).0, k)
  {
    hide Keeping, Grants, Note, CreateBranches, CreateJoins, JoinSucceeds, MayRun;
    var d := steps[name];
    RanKeeps(s, id, k);
    CreateBranchesKept(s, i, steps, d.parallel, k);
    CreateJoinsKept(CreateBranches(s, i, steps, d.parallel).0, i, steps, d, d.next, k);
  }

  /** If it is the granted row that is worked on, it is running. */
  predicate RunningIf(s: State, id: nat, k: Grant) {
    id == k.row && Its(s, k) ==> s.rows[id].status == StepStatus.Running
  }

  lemma HandleSuccessKept(s: State, i: nat, steps: Steps, id: nat, name: string, order: seq<string>, next: bool,
        k: Grant)
    requires Keeping(s, k) && Grants(steps, i, k) && name in steps && RunningIf(s, id, k)
    ensures Keeping(HandleSuccess(s, i, steps, id, name, order, next), k)
  {
    hide Keeping, Grants, Note, SetStatus, Tell, CompleteWorkflow, EnqueueNext, Unfinished;
    var s1 := Note(SetStatus(s, id, StepStatus.Completed), Ended(id, true));
    var s2 := Tell(s1, i, steps, order, name, true).0;
    DecideKept(s, id, StepStatus.Completed, true, k);
    TellKept(s1, i, steps, order, name, true, k);
    CompleteWorkflowKept(s2, i, steps, k);
    EnqueueNextKept(s2, i, steps, steps[name].next, true, k);
    EnqueueNextKept(s2, i, steps, [steps[name].els], false, k);
  }

  lemma UnwindKept(s: State, i: nat, steps: Steps, name: string, c: Choice, k: Grant)
    requires Keeping(s, k) && Grants(steps, i, k)
    ensures Keeping(SetInstance(Unwind(s, i, steps, name, c), i, WorkflowStatus.Failed), k)
  {
    hide Keeping, Grants, SkipRows, RollbackFrom, Siblings, SetInstance;
    var s1 := SkipRows(s, Siblings(s, i, steps, c.order, name));
    SkipRowsKept(s, Siblings(s, i, steps, c.order, name), k);
    RollbackFromKept(s1, i, steps, name, NearestSavePoint(steps, name, c.strays), k);
    InstanceKept(Unwind(s, i, steps, name, c), i, WorkflowStatus.Failed, k);
  }

  lemma FailStepKept(s: State, i: nat, steps: Steps, id: nat, name: string, c: Choice, k: Grant)
    requires Keeping(s, k) && Grants(steps, i, k) && name in steps && RunningIf(s, id, k)
    ensures Keeping(FailStep(s, i, steps, id, name, c), k)
  {
    hide Keeping, Grants, Note, SetStatus, Tell, Unwind, SetInstance;
    var s1 := Note(SetStatus(s, id, StepStatus.Failed), Ended(id, false));
    DecideKept(s, id, StepStatus.Failed, false, k);
    TellKept(s1, i, steps, c.order, name, false, k);
    UnwindKept(Tell(s1, i, steps, c.order, name, false).0, i, steps, name, c, k);
  }

  lemma BuryStepKept(s: State, i: nat, steps: Steps, id: nat, name: string, c: Choice, k: Grant)
    requires Keeping(s, k) && Grants(steps, i, k) && RunningIf(s, id, k)
    ensures Keeping(BuryStep(s, i, steps, id, name, c), k)
  {
    hide Keeping, Grants, Note, SetStatus, Notify, Bury, Freeze, SetInstance;
    var s1 := Note(SetStatus(s, id, Paused), Ended(id, false));
    var s2 := Notify(s1, i, steps, c.order, c.order, name, false).0;
    DecideKept(s, id, Paused, false, k);
    NotifyKept(s1, i, steps, c.order, c.order, name, false, k);
    BuryKept(s2, i, id, k);
    FreezeKept(Bury(s2, i, id), i, k);
    InstanceKept(Freeze(Bury(s2, i, id), i), i, Dlq, k);
  }

  lemma HandleFailureKept(s: State, i: nat, def: Definition, id: nat, row: Row, c: Choice, k: Grant)
    requires Keeping(s, k) && Grants(def.steps, i, k) && id in s.rows && row.name in def.steps && row.instance == i
    requires s.rows[id] == row.(status := StepStatus.Running)
    ensures Keeping(HandleFailure(s, i, def, id, row, c), k)
  {
    hide Keeping, SetStatus, Enqueue, FailStep, BuryStep, Retries;
    if Retries(def.steps[row.name], row) {
      RetryKeeps(s, i, id, row, k);
    } else {
      FailStepKept(s, i, def.steps, id, row.name, c, k);
      BuryStepKept(s, i, def.steps, id, row.name, c, k);
    }
  }

  lemma HandleCancellationKept(s: State, i: nat, steps: Steps, kind: CancelKind, k: Grant)
    requires Keeping(s, k) && Grants(steps, i, k)
    ensures Keeping(HandleCancellation(s, i, steps, kind), k)
  {
    hide Keeping, Grants, SkipRows, ActiveRows, SetInstance, RollbackFrom, DropRequest;
    var s1 := SkipRows(s, ActiveRows(s, i));
    SkipRowsKept(s, ActiveRows(s, i), k);
    InstanceKept(s1, i, Aborted, k);
    InstanceKept(s1, i, Cancelled, k);
    InstanceKept(s1, i, Cancelling, k);
    var last := LastCompleted(s1, i, s1.nextRow);
    if last.Some? {
      var back := RollbackFrom(SetInstance(s1, i, Cancelling), i, steps, s1.rows[last.value].name, ROOT);
      RollbackFromKept(SetInstance(s1, i, Cancelling), i, steps, s1.rows[last.value].name, ROOT, k);
      InstanceKept(back.0, i, if back.1 then Cancelled else WorkflowStatus.Failed, k);
    }
    DropRequestKept(if kind == Abort then SetInstance(s1, i, Aborted) else UndoAll(s1, i, steps), i, k);
  }

  lemma DropRequestKept(s: State, i: nat, k: Grant)
    requires Keeping(s, k)
    ensures Keeping(DropRequest(s, i), k)
  {
    hide Keeping;
    SameItems(s, DropRequest(s, i), k);
  }

  // ---- One item ----

  /** The item has been claimed, so the row it leads to has one less. */
  lemma ClaimedItems(s: State, q: nat)
    requires q in s.queue
    ensures |Items(s, s.queue[q].row)| == |Items(RemoveItem(s, q), s.queue[q].row)| + 1
  {
    var r := s.queue[q].row;
    assert Items(s, r) == Items(RemoveItem(s, q), r) + {q};
  }

  lemma StartsWithin(k: Grant, row: Row, n: nat, runs: nat, comps: nat)
    requires Within(k, row, n + 1, runs, comps) && row.status != Compensation && !Dropped(row.status)
    ensures Within(k, row.(status := StepStatus.Running), n, runs, comps)
    ensures runs + Left(k, row.retry) <= RunLimit(k.d)
  {
  }

  lemma StartKept(s: State, q: nat, k: Grant)
    requires Keeping(s, k) && q in s.queue
    requires var id := s.queue[q].row;
             id in s.rows && s.rows[id].status != Compensation && !Dropped(s.rows[id].status)
    ensures var id, s1 := s.queue[q].row, SetStatus(RemoveItem(s, q), s.queue[q].row, StepStatus.Running);
            && Keeping(s1, k) && id in s1.rows && (id == k.row && Its(s1, k) ==> MayRun(s1, k))
  {
    hide Within;
    var id, claimed := s.queue[q].row, RemoveItem(s, q);
    var s1 := SetStatus(claimed, id, StepStatus.Running);
    RemoveItemKept(s, q, k);
    if id == k.row && Its(s, k) {
      ClaimedItems(s, q);
      assert Items(s1, id) == Items(claimed, id);
      StartsWithin(k, s.rows[id], |Items(claimed, id)|, Count(s.log, Ran(id)), Count(s.log, Compensated(id)));
      OwnRow(claimed, s1, k);
    } else if id != k.row {
      hide Keeping, SetStatus, RemoveItem;
      OtherStatusKeeps(claimed, id, StepStatus.Running, 0, k);
    }
  }

  lemma StartedRow(s: State, q: nat)
    requires q in s.queue && s.queue[q].row in s.rows
    ensures var id, s1 := s.queue[q].row, SetStatus(RemoveItem(s, q), s.queue[q].row, StepStatus.Running);
            && id in s1.rows && s1.rows[id] == s.rows[id].(status := StepStatus.Running)
  {
  }

  lemma ExecuteStepKept(s: State, q: nat, i: nat, def: Definition, c: Choice, k: Grant)
    requires Keeping(s, k) && Grants(def.steps, i, k) && Issued(s) && q in s.queue && i in s.instances
    requires var id := s.queue[q].row;
             && IsRowOf(s, i, id) && s.queue[q].instance == i && s.rows[id].name in def.steps
             && s.rows[id].status != Compensation && !Dropped(s.rows[id].status)
    ensures Keeping(ExecuteStep(RemoveItem(s, q), i, def, s.queue[q].row, s.rows[s.queue[q].row], c), k)
  {
    hide Keeping, Grants, SetStatus, Work, HandleCancellation, HandleFailure, HandleSuccess, RemoveItem, MayRun, Issued;
    var claimed, id, row := RemoveItem(s, q), s.queue[q].row, s.rows[s.queue[q].row];
    RemoveItemKept(s, q, k);
    ClaimedIs(s, q);
    if i in claimed.cancels {
      HandleCancellationKept(claimed, i, def.steps, claimed.cancels[i], k);
    } else {
      var s1 := SetStatus(claimed, id, StepStatus.Running);
      var s2 := Work(s1, i, def.steps, id, row.name, c).0;
      StartKept(s, q, k);
      StartedRow(s, q);
      WorkKept(s1, i, def.steps, id, row.name, c, k);
      WorkLeavesRow(s, q, i, def, c);
      if c.late.Some? { HandleCancellationKept(s2, i, def.steps, c.late.value, k); }
      HandleFailureKept(s2, i, def, id, row, c, k);
      HandleSuccessKept(s2, i, def.steps, id, row.name, c.order,
                        def.steps[row.name].kind == Condition ==> c.takesNext, k);
    }
  }

  lemma ClaimedIs(s: State, q: nat)
    ensures RemoveItem(s, q).instances == s.instances && RemoveItem(s, q).rows == s.rows
  {
  }

  lemma WorkLeavesRow(s: State, q: nat, i: nat, def: Definition, c: Choice)
    requires Issued(s) && q in s.queue && i in s.instances && s.queue[q].instance == i
    requires var id := s.queue[q].row; InPlay(s, i, id) && s.rows[id].name in def.steps
    ensures var id := s.queue[q].row;
            var s1 := SetStatus(RemoveItem(s, q), id, StepStatus.Running);
            var s2 := Work(s1, i, def.steps, id, s.rows[id].name, c).0;
            id in s2.rows && s2.rows[id] == s.rows[id].(status := StepStatus.Running)
  {
    hide Issued, Keeps, Work, SetStatus;
    var id, claimed := s.queue[q].row, RemoveItem(s, q);
    RemoveItemKeeps(s, i, q);
    KeptIsIssued(s, claimed, i);
    ClaimedIs(s, q);
    StartsRunning(claimed, i, id);
    StartedRow(s, q);
    StillInPlay(SetStatus(claimed, id, StepStatus.Running), i, def.steps, id, s.rows[id].name, c);
  }

  lemma CompensatedWithin(k: Grant, row: Row, n: nat, runs: nat, comps: nat)
    requires Within(k, row, n + 1, runs, comps) && row.status == Compensation
    ensures Within(k, row.(status := RolledBack), n, runs, comps)
    ensures k.undo.Some? ==> Within(k, row.(status := RolledBack), n, runs, comps + 1)
    ensures k.undo.Some? && row.comp < k.undo.value ==> Within(k, row.(comp := row.comp + 1), n + 1, runs, comps + 1)
    ensures k.undo.Some? && row.comp >= k.undo.value ==>
              Within(k, row.(status := StepStatus.Failed, retry := row.retry + 1), n, runs, comps + 1)
  {
  }

  /** The row's own compensation: the states it may lead to, before the instance is settled. */
  lemma OwnCompensated(s: State, q: nat, i: nat, k: Grant)
    requires Keeping(s, k) && q in s.queue && s.queue[q].row == k.row && Its(s, k)
    requires s.rows[k.row].status == Compensation
    ensures var claimed, r, row := RemoveItem(s, q), k.row, s.rows[k.row];
            var s1 := Note(claimed, Compensated(r));
            && Keeping(SetStatus(claimed, r, RolledBack), k)
            && (k.undo.Some? ==> Keeping(SetStatus(s1, r, RolledBack), k))
            && (k.undo.Some? && row.comp < k.undo.value ==>
                  Keeping(Enqueue(SetCompensation(s1, r, row.comp + 1), i, r), k))
            && (k.undo.Some? && row.comp >= k.undo.value ==> Keeping(SetStatus(s1, r, StepStatus.Failed), k))
  {
    hide Within;
    var claimed, r, row := RemoveItem(s, q), k.row, s.rows[k.row];
    var s1 := Note(claimed, Compensated(r));
    ClaimedItems(s, q);
    CountNote(s.log, Compensated(r), Ran(r));
    CountNote(s.log, Compensated(r), Compensated(r));
    CompensatedWithin(k, row, |Items(claimed, r)|, Count(s.log, Ran(r)), Count(s.log, Compensated(r)));
    assert Items(SetStatus(claimed, r, RolledBack), r) == Items(claimed, r);
    assert Items(SetStatus(s1, r, RolledBack), r) == Items(claimed, r);
    assert Items(SetStatus(s1, r, StepStatus.Failed), r) == Items(claimed, r);
    var s2 := SetCompensation(s1, r, row.comp + 1);
    assert Items(s2, r) == Items(claimed, r);
    EnqueueItems(s2, i, r);
  }

  lemma OtherCompensated(s: State, i: nat, id: nat, comp: nat, k: Grant)
    requires Keeping(s, k) && (id == k.row ==> id in s.rows && !Its(s, k))
    ensures var s1 := Note(s, Compensated(id));
            && Keeping(SetStatus(s, id, RolledBack), k) && Keeping(SetStatus(s1, id, RolledBack), k)
            && Keeping(SetStatus(s1, id, StepStatus.Failed), k)
            && Keeping(Enqueue(SetCompensation(s1, id, comp), i, id), k)
  {
    var s1 := Note(s, Compensated(id));
    if id == k.row {
      hide Within, Count, Items;
    } else {
      hide Keeping, SetStatus, SetCompensation, Enqueue, Note;
      NoteKept(s, Compensated(id), k);
      OtherStatusKeeps(s, id, RolledBack, comp, k);
      OtherStatusKeeps(s1, id, RolledBack, comp, k);
      OtherStatusKeeps(s1, id, StepStatus.Failed, comp, k);
      EnqueueOtherKeeps(SetCompensation(s1, id, comp), i, id, k);
    }
  }

  lemma ExecuteCompensationKept(s: State, q: nat, i: nat, steps: Steps, c: Choice, k: Grant)
    requires Keeping(s, k) && Grants(steps, i, k) && q in s.queue
    requires var id := s.queue[q].row;
             IsRowOf(s, i, id) && s.rows[id].name in steps && s.rows[id].status == Compensation
    ensures Keeping(ExecuteCompensation(RemoveItem(s, q), i, steps, s.queue[q].row, s.rows[s.queue[q].row], c), k)
  {
    hide Keeping, Note, SetStatus, SetCompensation, Enqueue, RemoveItem, SetInstance, Unfinished, HasStatus;
    var claimed, id, row := RemoveItem(s, q), s.queue[q].row, s.rows[s.queue[q].row];
    var s1 := Note(claimed, Compensated(id));
    ClaimedIs(s, q);
    if id == k.row && Its(s, k) {
      OwnCompensated(s, q, i, k);
    } else {
      RemoveItemKept(s, q, k);
      OtherCompensated(claimed, i, id, row.comp + 1, k);
    }
    if steps[row.name].onFailure in steps {
      InstanceKept(SetStatus(s1, id, RolledBack), i, WorkflowStatus.Failed, k);
    }
  }

  lemma ExecuteNextKept(s: State, q: nat, c: Choice, k: Grant)
    requires Keeping(s, k) && Issued(s)
    requires forall i :: DefinedFor(s, i) ==> Grants(DefOf(s, i).steps, i, k)
    ensures Keeping(ExecuteNext(s, q, c), k)
  {
    hide Keeping, Issued, RemoveItem, ExecuteCompensation, ExecuteStep, Grants;
    if q in s.queue {
      var claimed, i, id := RemoveItem(s, q), s.queue[q].instance, s.queue[q].row;
      RemoveItemKept(s, q, k);
      RemoveItemKept(claimed, id, k);
      if Runnable(s, q) && !LacksHandler(DefOf(s, i).steps, s.rows[id], c) {
        ClaimedIs(s, q);
        if s.rows[id].status == Compensation {
          ExecuteCompensationKept(s, q, i, DefOf(s, i).steps, c, k);
        } else {
          ExecuteStepKept(s, q, i, DefOf(s, i), c, k);
        }
      }
    }
  }

  // ---- Runs ----

  lemma StartKeepsBudget(s: State, workflow: string, k: Grant)
    requires Keeping(s, k) && Issued(s)
    requires var s' := StartWorkflow(s, workflow);
             forall i :: DefinedFor(s', i) ==> Grants(DefOf(s', i).steps, i, k)
    ensures Keeping(StartWorkflow(s, workflow), k)
  {
    hide Keeping, EnqueueNext, WellFormed, Grants;
    if workflow in s.defs && s.defs[workflow].start in s.defs[workflow].steps && WellFormed(s.defs[workflow]) {
      var i, def, s1 := s.nextInstance, s.defs[workflow], NewInstance(s, workflow);
      var s2 := EnqueueNext(s1, i, def.steps, [def.start], false).0;
      SameItems(s, s1, k);
      NewInstanceIssued(s, workflow);
      EnqueueNextKeeps(s1, i, def.steps, [def.start], false);
      Outcome(s1, s2, i);
      SameDefinition(s1, s2, i, i);
      assert DefinedFor(s1, i) && DefOf(s1, i) == def;
      assert s2 == StartWorkflow(s, workflow) && DefinedFor(s2, i);
      EnqueueNextKept(s1, i, def.steps, [def.start], false, k);
    }
  }

  lemma SameDefinition(s: State, s': State, i: nat, n: nat)
    requires Result(s, s', i)
    ensures DefinedFor(s', n) <==> DefinedFor(s, n)
    ensures DefinedFor(s', n) ==> DefOf(s', n) == DefOf(s, n)
  {
  }

  lemma RequestKeepsBudget(s: State, i: nat, kind: CancelKind, k: Grant)
    requires Keeping(s, k)
    ensures Keeping(RequestCancel(s, i, kind), k)
  {
    hide Keeping;
    SameItems(s, RequestCancel(s, i, kind), k);
  }

  /** A paused join row that becomes pending has no item, so nothing is to come. */
  lemma AwakenedWithin(k: Grant, row: Row, n: nat, runs: nat, comps: nat)
    requires Within(k, row, n, runs, comps) && row.status == Paused
    ensures Within(k, row.(status := Pending), n, runs, comps)
  {
  }

  lemma OtherLetter(s: State, dead: nat, r: nat)
    requires r in s.rows && (dead in s.dead ==> s.dead[dead].row != r)
    ensures var s' := Requeue(s, dead);
            && r in s'.rows
            && (s'.rows[r] == s.rows[r]
                || (s.rows[r].status == Paused && s'.rows[r] == s.rows[r].(status := Pending)))
  {
  }

  lemma RequeueKeepsBudget(s: State, dead: nat, k: Grant)
    requires Keeping(s, k) && Issued(s) && (dead in s.dead ==> s.dead[dead].row != k.row)
    ensures Keeping(Requeue(s, dead), k)
  {
    hide Within, Requeue, Issued;
    var s' := Requeue(s, dead);
    RequeueFacts(s, dead);
    RequeueRest(s, dead);
    assert Items(s', k.row) == Items(s, k.row);
    if k.row in s.rows {
      OtherLetter(s, dead, k.row);
      if Its(s, k) && s.rows[k.row].status == Paused {
        AwakenedWithin(k, s.rows[k.row], |Items(s, k.row)|, Count(s.log, Ran(k.row)), Count(s.log, Compensated(k.row)));
      }
    }
  }

  /** No requeue in the run is of a letter of that row. */
  ghost predicate NotRequeued(s: State, events: seq<Event>, r: nat)
    decreases events
  {
    events == [] ||
    ((events[0].RequeueLetter? && events[0].dead in s.dead ==> s.dead[events[0].dead].row != r)
     && NotRequeued(Step(s, events[0]), events[1..], r))
  }

  /** Definitions and the workflow of an instance never change. */
  ghost predicate SameWorkflows(s: State, s': State) {
    && s'.defs == s.defs
    && forall i :: i in s.instances ==> i in s'.instances && s'.instances[i].workflow == s.instances[i].workflow
  }

  lemma StepSameWorkflows(s: State, e: Event)
    requires Orderly(s)
    ensures SameWorkflows(s, Step(s, e))
  {
    hide Orderly, Issued, ExecuteNext, Requeue, EnqueueNext, WellFormed;
    OrderlyIsIssued(s);
    match e
    case Start(workflow) =>
      if workflow in s.defs && s.defs[workflow].start in s.defs[workflow].steps && WellFormed(s.defs[workflow]) {
        StartSameWorkflows(s, workflow);
      }
    case Execute(q, c) =>
      ExecuteNextKeeps(s, q, c);
      Outcome(s, ExecuteNext(s, q, c), Worked(s, q));
    case RequestStop(i, kind) =>
    case RequeueLetter(dead) =>
      RequeueRest(s, dead);
      RequeueInstances(s, dead);
  }

  lemma StartSameWorkflows(s: State, workflow: string)
    requires Issued(s) && workflow in s.defs
    ensures var i, def := s.nextInstance, s.defs[workflow];
            SameWorkflows(s, EnqueueNext(NewInstance(s, workflow), i, def.steps, [def.start], false).0)
  {
    hide EnqueueNext;
    var i, def, s1 := s.nextInstance, s.defs[workflow], NewInstance(s, workflow);
    NewInstanceIssued(s, workflow);
    EnqueueNextKeeps(s1, i, def.steps, [def.start], false);
    Outcome(s1, EnqueueNext(s1, i, def.steps, [def.start], false).0, i);
  }

  lemma {:induction false} RunSameWorkflows(s: State, events: seq<Event>)
    requires Orderly(s)
    ensures SameWorkflows(s, After(s, events))
    decreases events
  {
    hide Orderly, Step;
    if events != [] {
      StepSameWorkflows(s, events[0]);
      StepOrderly(s, events[0]);
      RunSameWorkflows(Step(s, events[0]), events[1..]);
    }
  }

  /** Every instance is worked on by a definition that grants what the row has. */
  ghost predicate AllGrant(s: State, k: Grant) {
    forall i :: DefinedFor(s, i) ==> Grants(DefOf(s, i).steps, i, k)
  }

  lemma GrantedBefore(s: State, s': State, k: Grant)
    requires SameWorkflows(s, s') && AllGrant(s', k)
    ensures AllGrant(s, k)
  {
    hide Grants;
    forall i | DefinedFor(s, i)
      ensures Grants(DefOf(s, i).steps, i, k)
    {
      assert DefinedFor(s', i) && DefOf(s', i) == DefOf(s, i);
    }
  }

  lemma StepKeepsBudget(s: State, e: Event, k: Grant)
    requires Keeping(s, k) && Orderly(s) && AllGrant(s, k) && AllGrant(Step(s, e), k)
    requires e.RequeueLetter? && e.dead in s.dead ==> s.dead[e.dead].row != k.row
    ensures Keeping(Step(s, e), k)
  {
    hide Keeping, Orderly, Issued, ExecuteNext, StartWorkflow, Requeue, RequestCancel, Grants;
    OrderlyIsIssued(s);
    match e
    case Start(workflow) => StartKeepsBudget(s, workflow, k);
    case Execute(q, c) => ExecuteNextKept(s, q, c, k);
    case RequestStop(i, kind) => RequestKeepsBudget(s, i, kind, k);
    case RequeueLetter(dead) => RequeueKeepsBudget(s, dead, k);
  }

  lemma {:induction false} RunKeepsBudget(s: State, events: seq<Event>, k: Grant)
    requires Keeping(s, k) && Orderly(s) && NotRequeued(s, events, k.row) && AllGrant(After(s, events), k)
    ensures Keeping(After(s, events), k)
    decreases events
  {
    hide Keeping, Orderly, Step, AllGrant, SameWorkflows;
    if events != [] {
      var s1 := Step(s, events[0]);
      StepOrderly(s, events[0]);
      RunSameWorkflows(s, events);
      RunSameWorkflows(s1, events[1..]);
      GrantedBefore(s, After(s, events), k);
      GrantedBefore(s1, After(s, events), k);
      StepKeepsBudget(s, events[0], k);
      RunKeepsBudget(s1, events[1..], k);
    }
  }

  /**
   In every run of any workflows, with forks, joins, conditions, cancellation and dead letters,
   a row's handler runs at most 1 + MaxRetries times, and at most twice if the step is not
   idempotent. Its compensation runs at most 2 * MaxRetries + 1 times: up to MaxRetries after
   the rollback of a failure, and, as completing the instance lets the counter start at 0
   again, up to MaxRetries + 1 times after that. Only requeueing the row's own letter adds to it.
   */
  lemma {:induction false} RowsStayInBudget(defs: map<string, Definition>, events: seq<Event>, id: nat)
    requires var s := After(Initial(defs), events);
             id in s.rows && DefinedFor(s, s.rows[id].instance)
             && s.rows[id].name in DefOf(s, s.rows[id].instance).steps
    requires NotRequeued(Initial(defs), events, id)
    ensures var s := After(Initial(defs), events);
            var steps := DefOf(s, s.rows[id].instance).steps;
            var d := steps[s.rows[id].name];
            && Count(s.log, Ran(id)) <= RunLimit(d)
            && Count(s.log, Compensated(id)) <= if d.onFailure in steps then 2 * CompLimit(steps, d) + 1 else 0
  {
    hide After, NotRequeued, Orderly;
    var s := After(Initial(defs), events);
    var i, name := s.rows[id].instance, s.rows[id].name;
    var steps := DefOf(s, i).steps;
    var d := steps[name];
    var undo := if d.onFailure in steps then Some(steps[d.onFailure].maxRetries) else None;
    var k := Grant(id, i, name, d, undo);
    InitialOrderly(defs);
    assert Keeping(Initial(defs), k);
    assert AllGrant(s, k);
    RunKeepsBudget(Initial(defs), events, k);
  }
}
