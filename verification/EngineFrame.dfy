/**
 What one engine operation may touch: only its own instance, and nothing that was skipped,
 paused or rolled back. Rolled-back rows stay so in every run, and a frozen instance stays frozen.
 */
module EngineFrame {
  import opened Definitions
  import opened Searches
  import opened Rollback
  import opened JoinStates
  import opened Validator
  import opened Engine

  /** The queue items that lead to a row. */
  function Items(s: State, r: nat): set<nat> {
    set q | q in s.queue && s.queue[q].row == r
  }

  /** Numbers are handed out in order, and items and letters belong to rows of their instance. */
  ghost predicate Issued(s: State) {
    && (forall id :: id in s.rows ==> id < s.nextRow && s.rows[id].instance in s.instances)
    && (forall q :: q in s.queue ==> q < s.nextItem && IsRowOf(s, s.queue[q].instance, s.queue[q].row))
    && (forall k :: k in s.dead ==> k < s.nextDead && IsRowOf(s, s.dead[k].instance, s.dead[k].row))
    && (forall i :: i in s.instances ==> i < s.nextInstance)
    && (forall key: Key :: key in s.joins ==> key.0 in s.instances)
    && (forall e :: e in s.log ==> e.row in s.rows)
  }

  predicate SameIdentity(a: Row, b: Row) {
    a.instance == b.instance && a.name == b.name && a.kind == b.kind && a.maxRetries == b.maxRetries
  }

  ghost predicate RowsAdvance(s: State, s': State, i: nat) {
    && s.nextRow <= s'.nextRow
    && (forall id :: id in s.rows ==>
          && id in s'.rows && SameIdentity(s.rows[id], s'.rows[id])
          && (s.rows[id].instance != i || Dropped(s.rows[id].status) ==> s'.rows[id] == s.rows[id]))
    && (forall id :: id in s'.rows && id !in s.rows ==> s.nextRow <= id && s'.rows[id].instance == i)
  }

  ghost predicate QueueAdvances(s: State, s': State, i: nat) {
    && s.nextItem <= s'.nextItem
    && (forall q :: q in s'.queue ==>
          (q in s.queue && s'.queue[q] == s.queue[q]) || (s.nextItem <= q && s'.queue[q].instance == i))
  }

  /** The queue items of other instances stay. */
  ghost predicate OthersQueued(s: State, s': State, i: nat) {
    forall q :: q in s.queue && s.queue[q].instance != i ==> q in s'.queue && s'.queue[q] == s.queue[q]
  }

  ghost predicate OthersKept(s: State, s': State, i: nat) {
    && s'.defs == s.defs && s'.nextInstance == s.nextInstance && s'.instances.Keys == s.instances.Keys
    && (forall k :: k in s.instances ==> s'.instances[k].workflow == s.instances[k].workflow
                                         && (k != i ==> s'.instances[k] == s.instances[k]))
    && (InDlq(s', i) ==> InDlq(s, i))
    && (forall k :: k in s'.cancels ==> k in s.cancels)
    && (forall key: Key :: key in s.joins ==> key in s'.joins)
    && (forall key: Key :: key in s'.joins && key.0 != i ==> key in s.joins && s'.joins[key] == s.joins[key])
  }

  /** The log only grows, and not by entries on rows that are out of the game. */
  ghost predicate LogAdvances(s: State, s': State, i: nat) {
    && s.log <= s'.log
    && forall k :: |s.log| <= k < |s'.log| ==>
         s'.log[k].row in s.rows ==> s.rows[s'.log[k].row].instance == i && !Dropped(s.rows[s'.log[k].row].status)
  }

  ghost predicate Advances(s: State, s': State, i: nat) {
    RowsAdvance(s, s', i) && QueueAdvances(s, s', i) && OthersKept(s, s', i) && LogAdvances(s, s', i)
  }

  ghost predicate RunningShrinks(s: State, s': State) {
    forall id :: id in s'.rows && s'.rows[id].status == StepStatus.Running ==>
      id in s.rows && s.rows[id].status == StepStatus.Running
  }

  ghost predicate Keeps(s: State, s': State, i: nat) {
    Issued(s') && Advances(s, s', i) && RunningShrinks(s, s') && OthersQueued(s, s', i)
  }

  ghost predicate NoItems(s: State, i: nat) {
    forall q :: q in s.queue ==> s.queue[q].instance != i
  }

  /** Kept, and then put into the dead-letter state with an empty queue. */
  ghost predicate Froze(s: State, s': State, i: nat) {
    exists s1 :: Keeps(s, s1, i) && NoItems(s1, i) && s' == SetInstance(s1, i, Dlq)
  }

  ghost predicate KeepsOrFroze(s: State, s': State, i: nat) {
    Keeps(s, s', i) || Froze(s, s', i)
  }

  /** No rows, joins or log entries come or go. */
  ghost predicate Quiet(s: State, s': State) {
    && s'.rows.Keys == s.rows.Keys && (forall id :: id in s.rows ==> SameIdentity(s.rows[id], s'.rows[id]))
    && s'.joins == s.joins && s'.log == s.log
  }

  lemma AdvanceTransitive(s: State, s1: State, s2: State, i: nat)
    requires Advances(s, s1, i) && Advances(s1, s2, i)
    ensures Advances(s, s2, i)
  {
    assert LogAdvances(s, s2, i) by {
      forall k | |s.log| <= k < |s2.log| && s2.log[k].row in s.rows
        ensures s.rows[s2.log[k].row].instance == i && !Dropped(s.rows[s2.log[k].row].status)
      {
        if k < |s1.log| {
          assert s2.log[k] == s1.log[k];
        }
      }
    }
  }

  lemma Transitive(s: State, s1: State, s2: State, i: nat)
    requires Keeps(s, s1, i) && Keeps(s1, s2, i)
    ensures Keeps(s, s2, i)
  {
    hide Advances;
    AdvanceTransitive(s, s1, s2, i);
  }

  lemma TransitiveOrFroze(s: State, s1: State, s2: State, i: nat)
    requires Keeps(s, s1, i) && KeepsOrFroze(s1, s2, i)
    ensures KeepsOrFroze(s, s2, i)
  {
    hide Keeps;
    if Keeps(s1, s2, i) {
      Transitive(s, s1, s2, i);
    } else {
      var s' :| Keeps(s1, s', i) && NoItems(s', i) && s2 == SetInstance(s', i, Dlq);
      Transitive(s, s1, s', i);
    }
  }

  lemma QuietTransitive(s: State, s1: State, s2: State)
    requires Quiet(s, s1) && Quiet(s1, s2)
    ensures Quiet(s, s2)
  {
  }

  lemma Reflexive(s: State, i: nat)
    requires Issued(s)
    ensures Keeps(s, s, i) && Quiet(s, s)
  {
  }

  /** What an instance's row was, it still is. */
  lemma StillRowOf(s: State, s': State, i: nat, id: nat)
    requires Keeps(s, s', i) && IsRowOf(s, i, id)
    ensures IsRowOf(s', i, id)
  {
  }

  // ---- The primitive changes ----

  /** A row that is still in the game. */
  ghost predicate InPlay(s: State, i: nat, id: nat) {
    IsRowOf(s, i, id) && !Dropped(s.rows[id].status)
  }

  lemma SetStatusKeeps(s: State, i: nat, id: nat, status: StepStatus)
    requires Issued(s) && InPlay(s, i, id)
    ensures var s' := SetStatus(s, id, status);
            && Issued(s') && Advances(s, s', i) && Quiet(s, s') && OthersQueued(s, s', i)
            && (status != StepStatus.Running ==> RunningShrinks(s, s'))
  {
    hide QueueAdvances, OthersQueued, OthersKept, LogAdvances;
    QueueStays(s, SetStatus(s, id, status), i);
    RestStays(s, SetStatus(s, id, status), i);
  }

  lemma SetCompensationKeeps(s: State, i: nat, id: nat, comp: nat)
    requires Issued(s) && InPlay(s, i, id)
    ensures Keeps(s, SetCompensation(s, id, comp), i) && Quiet(s, SetCompensation(s, id, comp))
  {
    hide QueueAdvances, OthersQueued, OthersKept, LogAdvances;
    QueueStays(s, SetCompensation(s, id, comp), i);
    RestStays(s, SetCompensation(s, id, comp), i);
  }

  lemma CreateRowKeeps(s: State, i: nat, row: Row)
    requires Issued(s) && row.instance == i && i in s.instances && row.status != StepStatus.Running
    ensures Keeps(s, CreateRow(s, row), i) && IsRowOf(CreateRow(s, row), i, s.nextRow)
  {
    assert s.nextRow !in s.rows;
  }

  lemma EnqueueKeeps(s: State, i: nat, id: nat)
    requires Issued(s) && IsRowOf(s, i, id)
    ensures Keeps(s, Enqueue(s, i, id), i) && Quiet(s, Enqueue(s, i, id))
  {
    assert s.nextItem !in s.queue;
  }

  lemma CreateAndEnqueueKeeps(s: State, i: nat, row: Row)
    requires Issued(s) && row.instance == i && i in s.instances && row.status != StepStatus.Running
    ensures Keeps(s, Enqueue(CreateRow(s, row), i, s.nextRow), i)
  {
    hide Keeps, Issued;
    CreateRowKeeps(s, i, row);
    var s1 := CreateRow(s, row);
    KeptIsIssued(s, s1, i);
    EnqueueKeeps(s1, i, s.nextRow);
    Transitive(s, s1, Enqueue(s1, i, s.nextRow), i);
  }

  lemma KeptIsIssued(s: State, s': State, i: nat)
    requires Keeps(s, s', i)
    ensures Issued(s') && s'.instances.Keys == s.instances.Keys
  {
  }

  lemma RemoveItemKeeps(s: State, i: nat, q: nat)
    requires Issued(s) && (q in s.queue ==> s.queue[q].instance == i)
    ensures Keeps(s, RemoveItem(s, q), i) && Quiet(s, RemoveItem(s, q))
  {
  }

  lemma RowsStay(s: State, s': State, i: nat)
    requires s'.rows == s.rows && s'.nextRow == s.nextRow
    ensures RowsAdvance(s, s', i) && RunningShrinks(s, s')
  {
  }

  lemma QueueStays(s: State, s': State, i: nat)
    requires s'.queue == s.queue && s'.nextItem == s.nextItem
    ensures QueueAdvances(s, s', i) && OthersQueued(s, s', i)
  {
  }

  lemma RestStays(s: State, s': State, i: nat)
    requires s'.defs == s.defs && s'.instances == s.instances && s'.nextInstance == s.nextInstance
    requires s'.joins == s.joins
    requires s'.log == s.log && s'.cancels == s.cancels
    ensures OthersKept(s, s', i) && LogAdvances(s, s', i)
  {
  }

  lemma SetInstanceIssued(s: State, i: nat, status: WorkflowStatus)
    requires Issued(s)
    ensures Issued(SetInstance(s, i, status))
  {
    assert SetInstance(s, i, status).instances.Keys == s.instances.Keys;
  }

  lemma SetInstanceOthers(s: State, i: nat, status: WorkflowStatus)
    requires status != Dlq
    ensures OthersKept(s, SetInstance(s, i, status), i)
  {
  }

  lemma LogStays(s: State, s': State, i: nat)
    requires s'.log == s.log
    ensures LogAdvances(s, s', i)
  {
  }

  lemma QuietRows(s: State, s': State)
    requires s'.rows == s.rows && s'.joins == s.joins && s'.log == s.log
    ensures Quiet(s, s')
  {
  }

  lemma SetInstanceKeeps(s: State, i: nat, status: WorkflowStatus)
    requires Issued(s) && status != Dlq
    ensures Keeps(s, SetInstance(s, i, status), i) && Quiet(s, SetInstance(s, i, status))
  {
    hide Issued, RowsAdvance, QueueAdvances, RunningShrinks, OthersQueued, OthersKept, LogAdvances, Quiet;
    var s' := SetInstance(s, i, status);
    RowsStay(s, s', i);
    QueueStays(s, s', i);
    LogStays(s, s', i);
    SetInstanceOthers(s, i, status);
    SetInstanceIssued(s, i, status);
    QuietRows(s, s');
  }

  lemma PutJoinKeeps(s: State, i: nat, join: string, j: JoinState)
    requires Issued(s) && i in s.instances
    ensures Keeps(s, PutJoin(s, i, join, j), i)
  {
  }

  lemma BuryKeeps(s: State, i: nat, id: nat)
    requires Issued(s) && IsRowOf(s, i, id)
    ensures Keeps(s, Bury(s, i, id), i) && Quiet(s, Bury(s, i, id))
  {
  }

  lemma NoteKeeps(s: State, i: nat, e: Entry)
    requires Issued(s) && InPlay(s, i, e.row)
    ensures Keeps(s, Note(s, e), i)
  {
  }

  lemma FreezeRows(s: State, i: nat)
    requires Issued(s)
    ensures RowsAdvance(s, Freeze(s, i), i) && RunningShrinks(s, Freeze(s, i))
  {
  }

  lemma FreezeQueue(s: State, i: nat)
    requires Issued(s)
    ensures QueueAdvances(s, Freeze(s, i), i) && OthersQueued(s, Freeze(s, i), i) && Quiet(s, Freeze(s, i))
  {
  }

  lemma FreezeIssued(s: State, i: nat)
    requires Issued(s)
    ensures Issued(Freeze(s, i))
  {
  }

  lemma FreezeKeeps(s: State, i: nat)
    requires Issued(s)
    ensures Keeps(s, Freeze(s, i), i) && Quiet(s, Freeze(s, i))
  {
    hide Issued, RowsAdvance, RunningShrinks, QueueAdvances, OthersQueued, OthersKept, LogAdvances, Quiet;
    RestStays(s, Freeze(s, i), i);
    FreezeRows(s, i);
    FreezeQueue(s, i);
    FreezeIssued(s, i);
  }

  lemma SkipRowsKeeps(s: State, i: nat, skipped: set<nat>)
    requires Issued(s) && forall id :: id in skipped ==> InPlay(s, i, id)
    ensures Keeps(s, SkipRows(s, skipped), i) && Quiet(s, SkipRows(s, skipped))
  {
    hide QueueAdvances, OthersQueued, OthersKept, LogAdvances;
    QueueStays(s, SkipRows(s, skipped), i);
    RestStays(s, SkipRows(s, skipped), i);
  }

  // ---- Rollback and compensation ----

  lemma RollbackRowKeeps(s: State, i: nat, steps: Steps, id: nat, row: Row)
    requires Issued(s) && InPlay(s, i, id) && row.name in steps
    ensures var s' := RollbackRow(s, i, steps, id, row);
            && Keeps(s, s', i) && Quiet(s, s')
            && (forall k :: k in s.rows && k != id ==> s'.rows[k] == s.rows[k])
  {
    hide Keeps, Issued, Quiet;
    var onFailure := steps[row.name].onFailure;
    if onFailure !in steps {
      SetStatusKept(s, i, id, RolledBack);
    } else if row.comp >= steps[onFailure].maxRetries {
      var s1 := SetStatus(s, id, StepStatus.Failed);
      SetStatusKept(s, i, id, StepStatus.Failed);
      BuryKeeps(s1, i, id);
      Both(s, s1, Bury(s1, i, id), i);
    } else {
      var s1 := SetCompensation(s, id, row.comp + 1);
      SetCompensationKeeps(s, i, id, row.comp + 1);
      KeptIsIssued(s, s1, i);
      EnqueueKeeps(s1, i, id);
      Both(s, s1, Enqueue(s1, i, id), i);
    }
  }

  lemma SetStatusKept(s: State, i: nat, id: nat, status: StepStatus)
    requires Issued(s) && InPlay(s, i, id) && status != StepStatus.Running
    ensures Keeps(s, SetStatus(s, id, status), i) && Quiet(s, SetStatus(s, id, status))
    ensures Issued(SetStatus(s, id, status)) && IsRowOf(SetStatus(s, id, status), i, id)
  {
    SetStatusKeeps(s, i, id, status);
  }

  lemma Both(s: State, s1: State, s2: State, i: nat)
    requires Keeps(s, s1, i) && Quiet(s, s1) && Keeps(s1, s2, i) && Quiet(s1, s2)
    ensures Keeps(s, s2, i) && Quiet(s, s2)
  {
    Transitive(s, s1, s2, i);
    QuietTransitive(s, s1, s2);
  }

  /** The rows that are still to be rolled back are as they were before the traversal. */
  ghost predicate Untouched(s: State, i: nat, steps: Steps, before: State, calls: seq<string>) {
    var rows := StepMap(before, i, before.nextRow);
    && NoDuplicates(calls)
    && forall c :: c in calls ==>
         && c in rows && c in steps && rows[c] in s.rows && s.rows[rows[c]] == before.rows[rows[c]]
         && s.rows[rows[c]].status in {StepStatus.Completed, StepStatus.Failed}
  }

  lemma {:induction false} UntouchedNext(s: State, s1: State, i: nat, steps: Steps, before: State, calls: seq<string>)
    requires Untouched(s, i, steps, before, calls) && calls != []
    requires forall k :: k in s.rows && k != StepMap(before, i, before.nextRow)[calls[0]] ==>
             k in s1.rows && s1.rows[k] == s.rows[k]
    ensures Untouched(s1, i, steps, before, calls[1..])
  {
    var rows := StepMap(before, i, before.nextRow);
    forall c | c in calls[1..]
      ensures c in calls && rows[c] != rows[calls[0]]
    {
      assert before.rows[rows[c]].name == c && c != calls[0];
    }
  }

  lemma {:induction false} RollbackRowsKeeps(s: State, i: nat, steps: Steps, before: State, calls: seq<string>)
    requires Issued(s) && Untouched(s, i, steps, before, calls)
    ensures Keeps(s, RollbackRows(s, i, steps, before, calls), i) && Quiet(s, RollbackRows(s, i, steps, before, calls))
    decreases calls
  {
    hide Keeps, Issued, Quiet;
    Reflexive(s, i);
    if calls != [] {
      var rows := StepMap(before, i, before.nextRow);
      var id := rows[calls[0]];
      assert calls[0] in calls;
      var s1 := RollbackRow(s, i, steps, id, before.rows[id]);
      RollbackRowKeeps(s, i, steps, id, before.rows[id]);
      KeptIsIssued(s, s1, i);
      QuietKeys(s, s1);
      UntouchedNext(s, s1, i, steps, before, calls);
      RollbackRowsKeeps(s1, i, steps, before, calls[1..]);
      Both(s, s1, RollbackRows(s1, i, steps, before, calls[1..]), i);
    }
  }

  lemma QuietKeys(s: State, s': State)
    requires Quiet(s, s')
    ensures s'.rows.Keys == s.rows.Keys
  {
  }

  lemma RollbackFromKeeps(s: State, i: nat, steps: Steps, name: string, target: string)
    requires Issued(s)
    ensures Keeps(s, RollbackFrom(s, i, steps, name, target).0, i)
    ensures Quiet(s, RollbackFrom(s, i, steps, name, target).0)
  {
    hide Keeps, Issued, Quiet;
    var scene := Scene(steps, Statuses(s, i), target);
    EachStepAtMostOnce(scene, name, false, {});
    RollbackRowsKeeps(s, i, steps, s, scene.Chain(name, false, {}).calls);
  }

  lemma {:induction false} CompensateCompletedKeeps(s: State, i: nat, steps: Steps, after: Option<nat>, bound: nat)
    requires Issued(s)
    ensures Keeps(s, CompensateCompleted(s, i, steps, after, bound), i)
    ensures Quiet(s, CompensateCompleted(s, i, steps, after, bound))
    decreases bound
  {
    hide Keeps, Issued, Quiet;
    Reflexive(s, i);
    if bound != 0 {
      var id := bound - 1;
      var s1 := if !LateCompletion(s, i, after, id) then s
                else if s.rows[id].name in steps && steps[s.rows[id].name].onFailure != "" then
                  Enqueue(SetCompensation(s, id, 0), i, id)
                else SetStatus(s, id, RolledBack);
      if LateCompletion(s, i, after, id) {
        if s.rows[id].name in steps && steps[s.rows[id].name].onFailure != "" {
          CompensateKeeps(s, i, id, 0);
        } else {
          SetStatusKept(s, i, id, RolledBack);
        }
      }
      KeptIsIssued(s, s1, i);
      CompensateCompletedKeeps(s1, i, steps, after, id);
      Both(s, s1, CompensateCompleted(s1, i, steps, after, id), i);
    }
  }

  lemma CompensateKeeps(s: State, i: nat, id: nat, comp: nat)
    requires Issued(s) && InPlay(s, i, id)
    ensures Keeps(s, Enqueue(SetCompensation(s, id, comp), i, id), i)
    ensures Quiet(s, Enqueue(SetCompensation(s, id, comp), i, id))
  {
    hide Keeps, Issued, Quiet;
    var s1 := SetCompensation(s, id, comp);
    SetCompensationKeeps(s, i, id, comp);
    KeptIsIssued(s, s1, i);
    EnqueueKeeps(s1, i, id);
    Both(s, s1, Enqueue(s1, i, id), i);
  }

  lemma CompleteWorkflowKeeps(s: State, i: nat, steps: Steps)
    requires Issued(s)
    ensures Keeps(s, CompleteWorkflow(s, i, steps), i) && Quiet(s, CompleteWorkflow(s, i, steps))
  {
    hide Keeps, Issued, Quiet, SetInstance;
    SetInstanceKeeps(s, i, WorkflowStatus.Completed);
    var s1 := CompensateCompleted(s, i, steps, LastSavePoint(s, i, s.nextRow), s.nextRow);
    CompensateCompletedKeeps(s, i, steps, LastSavePoint(s, i, s.nextRow), s.nextRow);
    KeptIsIssued(s, s1, i);
    SetInstanceKeeps(s1, i, WorkflowStatus.Failed);
    Both(s, s1, SetInstance(s1, i, WorkflowStatus.Failed), i);
  }

  // ---- Joins ----

  lemma CreateJoinRowKeeps(s: State, i: nat, join: string)
    requires Issued(s) && i in s.instances
    ensures Keeps(s, CreateJoinRow(s, i, join), i)
  {
    hide Keeps, Issued;
    CreateRowKeeps(s, i, Row(i, join, Join, Paused, 0, 0, 0));
    CreateAndEnqueueKeeps(s, i, Row(i, join, Join, Pending, 0, 0, 0));
  }

  lemma NotifyOneKeeps(s: State, i: nat, steps: Steps, order: seq<string>, join: string, name: string, success: bool)
    requires Issued(s) && i in s.instances && join in steps
    ensures Keeps(s, NotifyOne(s, i, steps, order, join, name, success).0, i)
  {
    hide Keeps, Issued, BranchesPending, HasRow, CreateJoinRow, PutJoin;
    Reflexive(s, i);
    if (i, join) in s.joins {
      var updated := Update(s.joins[(i, join)], name, success);
      var s1 := PutJoin(s, i, join, updated);
      PutJoinKeeps(s, i, join, updated);
      KeptIsIssued(s, s1, i);
      var again := PutJoin(s1, i, join, Update(updated, name, success));
      PutJoinKeeps(s1, i, join, Update(updated, name, success));
      Transitive(s, s1, again, i);
      CreateJoinRowKeeps(s1, i, join);
      Transitive(s, s1, CreateJoinRow(s1, i, join), i);
    }
  }

  lemma {:induction false} NotifyKeeps(s: State, i: nat, steps: Steps, order: seq<string>, rest: seq<string>,
        name: string, success: bool)
    requires Issued(s) && i in s.instances
    ensures Keeps(s, Notify(s, i, steps, order, rest, name, success).0, i)
    decreases rest
  {
    hide Keeps, Issued, NotifyOne;
    Reflexive(s, i);
    if rest != [] {
      if Waits(s, i, steps, rest[0], name) {
        var one := NotifyOne(s, i, steps, order, rest[0], name, success);
        NotifyOneKeeps(s, i, steps, order, rest[0], name, success);
        KeptIsIssued(s, one.0, i);
        if one.1 {
          NotifyKeeps(one.0, i, steps, order, rest[1..], name, success);
          Transitive(s, one.0, Notify(one.0, i, steps, order, rest[1..], name, success).0, i);
        }
      } else {
        NotifyKeeps(s, i, steps, order, rest[1..], name, success);
      }
    }
  }

  lemma NewJoinKeeps(s: State, i: nat, join: string, waitFor: seq<string>, strategy: JoinStrategy)
    requires Issued(s) && i in s.instances
    ensures Keeps(s, NewJoin(s, i, join, waitFor, strategy), i)
  {
    hide Keeps, Issued;
    Reflexive(s, i);
    PutJoinKeeps(s, i, join, Fresh(waitFor, strategy));
  }

  lemma PrepareJoinsKeeps(s: State, i: nat, steps: Steps, order: seq<string>, name: string, success: bool)
    requires Issued(s) && i in s.instances && name in steps
    ensures Keeps(s, PrepareJoins(s, i, steps, order, name, success), i)
  {
    hide Keeps, Issued, NotifyOne, PutJoin, NewJoin, TerminalInFork;
    Reflexive(s, i);
    var join := JoinFor(steps, order, name);
    var condition := ConditionAbove(steps, steps[name]);
    if join != "" {
      NewJoinKeeps(s, i, join, [name], All);
      NewJoinKeeps(s, i, join, [name], steps[join].strategy);
      if (i, join) in s.joins {
        PutJoinKeeps(s, i, join, AddWait(s.joins[(i, join)], name));
        PutJoinKeeps(s, i, join,
                     ReplaceWait(s.joins[(i, join)], VirtualName(condition), name, FirstStatus(s, i, name, s.nextRow)));
      }
      var s1 := if (i, join) !in s.joins then NewJoin(s, i, join, [name], All)
                else PutJoin(s, i, join, ReplaceWait(s.joins[(i, join)], VirtualName(condition), name,
                                                     FirstStatus(s, i, name, s.nextRow)));
      KeptIsIssued(s, s1, i);
      NotifyOneKeeps(s1, i, steps, order, join, name, success);
      Transitive(s, s1, NotifyOne(s1, i, steps, order, join, name, success).0, i);
    }
  }

  // ---- Success and failure ----

  lemma {:induction false} EnqueueNextKeeps(s: State, i: nat, steps: Steps, names: seq<string>, skipJoins: bool)
    requires Issued(s) && i in s.instances
    ensures Keeps(s, EnqueueNext(s, i, steps, names, skipJoins).0, i)
    decreases names
  {
    hide Keeps, Issued;
    Reflexive(s, i);
    if names != [] && names[0] in steps {
      EnqueueNextKeeps(s, i, steps, names[1..], skipJoins);
      var d := steps[names[0]];
      var row := Row(i, names[0], d.kind, Pending, 0, d.maxRetries, 0);
      var s1 := Enqueue(CreateRow(s, row), i, s.nextRow);
      CreateAndEnqueueKeeps(s, i, row);
      KeptIsIssued(s, s1, i);
      EnqueueNextKeeps(s1, i, steps, names[1..], skipJoins);
      Transitive(s, s1, EnqueueNext(s1, i, steps, names[1..], skipJoins).0, i);
    }
  }

  lemma {:induction false} CreateBranchesKeeps(s: State, i: nat, steps: Steps, names: seq<string>)
    requires Issued(s) && i in s.instances
    ensures Keeps(s, CreateBranches(s, i, steps, names).0, i)
    decreases names
  {
    hide Keeps, Issued;
    Reflexive(s, i);
    if names != [] && names[0] in steps {
      var d := steps[names[0]];
      var row := Row(i, names[0], d.kind, Pending, 0, d.maxRetries, 0);
      var s1 := Enqueue(CreateRow(s, row), i, s.nextRow);
      CreateAndEnqueueKeeps(s, i, row);
      KeptIsIssued(s, s1, i);
      CreateBranchesKeeps(s1, i, steps, names[1..]);
      Transitive(s, s1, CreateBranches(s1, i, steps, names[1..]).0, i);
    }
  }

  lemma {:induction false} CreateJoinsKeeps(s: State, i: nat, steps: Steps, d: StepDef, names: seq<string>)
    requires Issued(s) && i in s.instances
    ensures Keeps(s, CreateJoins(s, i, steps, d, names), i)
    decreases names
  {
    hide Keeps, Issued, NewJoin;
    Reflexive(s, i);
    if names != [] {
      if names[0] in steps && steps[names[0]].kind == Join {
        var join := steps[names[0]];
        var waitFor := if join.waitFor == [] then d.parallel else join.waitFor;
        var s1 := NewJoin(s, i, names[0], waitFor, join.strategy);
        NewJoinKeeps(s, i, names[0], waitFor, join.strategy);
        KeptIsIssued(s, s1, i);
        CreateJoinsKeeps(s1, i, steps, d, names[1..]);
        Transitive(s, s1, CreateJoins(s1, i, steps, d, names[1..]), i);
      } else {
        CreateJoinsKeeps(s, i, steps, d, names[1..]);
      }
    }
  }

  lemma WorkKeeps(s: State, i: nat, steps: Steps, id: nat, name: string, c: Choice)
    requires Issued(s) && i in s.instances && InPlay(s, i, id) && name in steps
    ensures Keeps(s, Work(s, i, steps, id, name, c).0, i)
  {
    hide Keeps, Issued, CreateBranches, CreateJoins;
    Reflexive(s, i);
    NoteKeeps(s, i, Ran(id));
    var d := steps[name];
    var branches := CreateBranches(s, i, steps, d.parallel);
    CreateBranchesKeeps(s, i, steps, d.parallel);
    KeptIsIssued(s, branches.0, i);
    CreateJoinsKeeps(branches.0, i, steps, d, d.next);
    Transitive(s, branches.0, CreateJoins(branches.0, i, steps, d, d.next), i);
  }

  /** Deciding a row: its status and the log. */
  lemma DecideKeeps(s: State, i: nat, id: nat, status: StepStatus, success: bool)
    requires Issued(s) && InPlay(s, i, id) && status in {StepStatus.Completed, StepStatus.Failed, Paused}
    ensures var s' := Note(SetStatus(s, id, status), Ended(id, success));
            Keeps(s, s', i) && id in s'.rows && s'.rows[id].status == status
  {
    hide Keeps, Issued;
    var s0 := Note(s, Ended(id, success));
    NoteKeeps(s, i, Ended(id, success));
    KeptIsIssued(s, s0, i);
    SetStatusKept(s0, i, id, status);
    Transitive(s, s0, SetStatus(s0, id, status), i);
  }

  lemma TellKeeps(s: State, i: nat, steps: Steps, order: seq<string>, name: string, success: bool)
    requires Issued(s) && i in s.instances && name in steps
    ensures Keeps(s, Tell(s, i, steps, order, name, success).0, i)
  {
    hide Keeps, Issued, Notify, PrepareJoins;
    var s1 := PrepareJoins(s, i, steps, order, name, success);
    PrepareJoinsKeeps(s, i, steps, order, name, success);
    KeptIsIssued(s, s1, i);
    NotifyKeeps(s1, i, steps, order, order, name, success);
    Transitive(s, s1, Notify(s1, i, steps, order, order, name, success).0, i);
  }

  lemma HandleSuccessKeeps(s: State, i: nat, steps: Steps, id: nat, name: string, order: seq<string>, next: bool)
    requires Issued(s) && i in s.instances && InPlay(s, i, id) && name in steps
    ensures var s' := HandleSuccess(s, i, steps, id, name, order, next);
            Keeps(s, s', i) && id in s'.rows && s'.rows[id].status != StepStatus.Running
  {
    hide Keeps, Issued, Tell, CompleteWorkflow, EnqueueNext, Unfinished, Note, SetStatus;
    var d := steps[name];
    var s1 := Note(SetStatus(s, id, StepStatus.Completed), Ended(id, true));
    DecideKeeps(s, i, id, StepStatus.Completed, true);
    KeptIsIssued(s, s1, i);
    var s3 := Tell(s1, i, steps, order, name, true).0;
    TellKeeps(s1, i, steps, order, name, true);
    KeptIsIssued(s1, s3, i);
    Transitive(s, s1, s3, i);
    CompleteWorkflowKeeps(s3, i, steps);
    EnqueueNextKeeps(s3, i, steps, d.next, true);
    EnqueueNextKeeps(s3, i, steps, [d.els], false);
    Reflexive(s3, i);
    var s4 := HandleSuccess(s, i, steps, id, name, order, next);
    Transitive(s, s3, s4, i);
    Transitive(s1, s3, s4, i);
    StopsRunning(s1, s4, i, id);
  }

  lemma StopsRunning(s: State, s': State, i: nat, id: nat)
    requires Keeps(s, s', i) && id in s.rows && s.rows[id].status != StepStatus.Running
    ensures id in s'.rows && s'.rows[id].status != StepStatus.Running
  {
  }

  lemma UnwindKeeps(s: State, i: nat, steps: Steps, name: string, c: Choice)
    requires Issued(s)
    ensures Keeps(s, Unwind(s, i, steps, name, c), i) && Quiet(s, Unwind(s, i, steps, name, c))
  {
    hide Keeps, Issued, Quiet, SkipRows, RollbackFrom;
    var s1 := SkipRows(s, Siblings(s, i, steps, c.order, name));
    SkipRowsKeeps(s, i, Siblings(s, i, steps, c.order, name));
    KeptIsIssued(s, s1, i);
    var target := NearestSavePoint(steps, name, c.strays);
    RollbackFromKeeps(s1, i, steps, name, target);
    Both(s, s1, RollbackFrom(s1, i, steps, name, target).0, i);
  }

  lemma FailStepKeeps(s: State, i: nat, steps: Steps, id: nat, name: string, c: Choice)
    requires Issued(s) && i in s.instances && InPlay(s, i, id) && name in steps
    ensures var s' := FailStep(s, i, steps, id, name, c);
            Keeps(s, s', i) && id in s'.rows && s'.rows[id].status != StepStatus.Running
  {
    hide Keeps, Issued, Tell, Unwind, Note, SetStatus, SetInstance;
    var s1 := Note(SetStatus(s, id, StepStatus.Failed), Ended(id, false));
    DecideKeeps(s, i, id, StepStatus.Failed, false);
    KeptIsIssued(s, s1, i);
    var s3 := Tell(s1, i, steps, c.order, name, false).0;
    TellKeeps(s1, i, steps, c.order, name, false);
    KeptIsIssued(s1, s3, i);
    var s5 := Unwind(s3, i, steps, name, c);
    UnwindKeeps(s3, i, steps, name, c);
    KeptIsIssued(s3, s5, i);
    Transitive(s1, s3, s5, i);
    SetInstanceKeeps(s5, i, WorkflowStatus.Failed);
    Transitive(s1, s5, SetInstance(s5, i, WorkflowStatus.Failed), i);
    var s6 := FailStep(s, i, steps, id, name, c);
    Transitive(s, s1, s6, i);
    StopsRunning(s1, s6, i, id);
  }

  lemma FreezeEmpties(s: State, i: nat)
    ensures NoItems(Freeze(s, i), i)
  {
  }

  lemma BuryStepKeeps(s: State, i: nat, steps: Steps, id: nat, name: string, c: Choice)
    requires Issued(s) && i in s.instances && InPlay(s, i, id)
    ensures var s' := BuryStep(s, i, steps, id, name, c);
            KeepsOrFroze(s, s', i) && id in s'.rows && s'.rows[id].status != StepStatus.Running
  {
    hide Keeps, Issued, Notify, Freeze, Note, SetStatus, Bury;
    var s1 := Note(SetStatus(s, id, Paused), Ended(id, false));
    DecideKeeps(s, i, id, Paused, false);
    KeptIsIssued(s, s1, i);
    var s2 := Notify(s1, i, steps, c.order, c.order, name, false).0;
    NotifyKeeps(s1, i, steps, c.order, c.order, name, false);
    KeptIsIssued(s1, s2, i);
    StillRowOf(s, s1, i, id);
    StillRowOf(s1, s2, i, id);
    var s3 := Bury(s2, i, id);
    BuryKeeps(s2, i, id);
    KeptIsIssued(s2, s3, i);
    Transitive(s1, s2, s3, i);
    var s4 := Freeze(s3, i);
    FreezeKeeps(s3, i);
    KeptIsIssued(s3, s4, i);
    Transitive(s1, s3, s4, i);
    Transitive(s, s1, s2, i);
    Transitive(s, s1, s4, i);
    StopsRunning(s1, s2, i, id);
    StopsRunning(s1, s4, i, id);
    FreezeEmpties(s3, i);
  }

  lemma HandleFailureKeeps(s: State, i: nat, def: Definition, id: nat, row: Row, c: Choice)
    requires Issued(s) && i in s.instances && InPlay(s, i, id) && row.name in def.steps
    ensures var s' := HandleFailure(s, i, def, id, row, c);
            KeepsOrFroze(s, s', i) && id in s'.rows && s'.rows[id].status != StepStatus.Running
  {
    hide Keeps, Issued, FailStep, BuryStep, Retries;
    if Retries(def.steps[row.name], row) {
      var s1 := SetStatus(s, id, StepStatus.Failed);
      SetStatusKept(s, i, id, StepStatus.Failed);
      EnqueueKeeps(s1, i, id);
      Transitive(s, s1, Enqueue(s1, i, id), i);
    } else {
      FailStepKeeps(s, i, def.steps, id, row.name, c);
      BuryStepKeeps(s, i, def.steps, id, row.name, c);
    }
  }

  // ---- Cancellation, and one execution ----

  lemma UndoAllKeeps(s: State, i: nat, steps: Steps)
    requires Issued(s)
    ensures Keeps(s, UndoAll(s, i, steps), i) && Quiet(s, UndoAll(s, i, steps))
  {
    hide Keeps, Issued, Quiet, RollbackFrom, SetInstance;
    var last := LastCompleted(s, i, s.nextRow);
    SetInstanceKept(s, i, Cancelled);
    if last.Some? {
      var s1 := SetInstance(s, i, Cancelling);
      SetInstanceKept(s, i, Cancelling);
      var name := s.rows[last.value].name;
      var back := RollbackFrom(s1, i, steps, name, ROOT);
      RollbackFromKeeps(s1, i, steps, name, ROOT);
      KeptIsIssued(s1, back.0, i);
      Both(s, s1, back.0, i);
      var status := if back.1 then Cancelled else WorkflowStatus.Failed;
      SetInstanceKept(back.0, i, status);
      Both(s, back.0, SetInstance(back.0, i, status), i);
    }
  }

  lemma HandleCancellationKeeps(s: State, i: nat, steps: Steps, kind: CancelKind)
    requires Issued(s)
    ensures var s' := HandleCancellation(s, i, steps, kind);
            && Keeps(s, s', i) && Quiet(s, s')
            && forall id :: IsRowOf(s, i, id) ==> id in s'.rows && s'.rows[id].status != StepStatus.Running
  {
    hide Keeps, Issued, Quiet, SkipRows, UndoAll, SetInstance, DropRequest;
    var s1 := SkipRows(s, ActiveRows(s, i));
    SkipRowsKeeps(s, i, ActiveRows(s, i));
    KeptIsIssued(s, s1, i);
    var s2 := if kind == Abort then SetInstance(s1, i, Aborted) else UndoAll(s1, i, steps);
    SetInstanceKept(s1, i, Aborted);
    UndoAllKeeps(s1, i, steps);
    DropRequestKeeps(s1, s2, i);
    var s3 := DropRequest(s2, i);
    Both(s, s1, s3, i);
    forall id | IsRowOf(s, i, id)
      ensures id in s3.rows && s3.rows[id].status != StepStatus.Running
    {
      SkippedIsNotRunning(s, i, id);
      StopsRunning(s1, s3, i, id);
    }
  }

  lemma SetInstanceKept(s: State, i: nat, status: WorkflowStatus)
    requires Issued(s) && status != Dlq
    ensures Keeps(s, SetInstance(s, i, status), i) && Quiet(s, SetInstance(s, i, status))
    ensures Issued(SetInstance(s, i, status))
  {
    SetInstanceKeeps(s, i, status);
  }

  lemma SkippedIsNotRunning(s: State, i: nat, id: nat)
    requires IsRowOf(s, i, id)
    ensures var s' := SkipRows(s, ActiveRows(s, i)); id in s'.rows && s'.rows[id].status != StepStatus.Running
  {
  }

  lemma DropRequestKeeps(s: State, s': State, i: nat)
    requires Keeps(s, s', i) && Quiet(s, s')
    ensures Keeps(s, DropRequest(s', i), i) && Quiet(s, DropRequest(s', i))
  {
    SameToAll(s, s', DropRequest(s', i), i);
  }

  /** Cancel requests do not matter to what is kept. */
  lemma SameToAll(s: State, s1: State, s2: State, i: nat)
    requires s2 == s1.(cancels := s2.cancels) && s2.cancels.Keys <= s1.cancels.Keys && Keeps(s, s1, i)
    ensures Keeps(s, s2, i)
  {
    hide Issued, RowsAdvance, QueueAdvances, OthersKept, LogAdvances, RunningShrinks, OthersQueued;
    DropRows(s, s1, s2, i);
    DropRest(s, s1, s2, i);
  }

  lemma DropRows(s: State, s1: State, s2: State, i: nat)
    requires s2 == s1.(cancels := s2.cancels) && Issued(s1) && RowsAdvance(s, s1, i) && RunningShrinks(s, s1)
    ensures Issued(s2) && RowsAdvance(s, s2, i) && RunningShrinks(s, s2)
  {
  }

  lemma DropRest(s: State, s1: State, s2: State, i: nat)
    requires s2 == s1.(cancels := s2.cancels) && s2.cancels.Keys <= s1.cancels.Keys
    requires QueueAdvances(s, s1, i) && OthersKept(s, s1, i) && LogAdvances(s, s1, i) && OthersQueued(s, s1, i)
    ensures QueueAdvances(s, s2, i) && OthersKept(s, s2, i) && LogAdvances(s, s2, i) && OthersQueued(s, s2, i)
  {
  }

  /** An execution of a step keeps what it must and leaves no row running. */
  lemma ExecuteStepKeeps(s: State, i: nat, def: Definition, id: nat, row: Row, c: Choice)
    requires Issued(s) && i in s.instances && InPlay(s, i, id) && row.name in def.steps
    ensures KeepsOrFroze(s, ExecuteStep(s, i, def, id, row, c), i)
  {
    hide Keeps, Issued, Quiet, Advances, HandleCancellation, Work, HandleSuccess, HandleFailure, SetStatus;
    if i in s.cancels {
      HandleCancellationKeeps(s, i, def.steps, s.cancels[i]);
    } else {
      var s1 := SetStatus(s, id, StepStatus.Running);
      StartsRunning(s, i, id);
      var work := Work(s1, i, def.steps, id, row.name, c);
      WorkKeeps(s1, i, def.steps, id, row.name, c);
      KeptIsIssued(s1, work.0, i);
      StillInPlay(s1, i, def.steps, id, row.name, c);
      var s2 := ExecuteStep(s, i, def, id, row, c);
      if c.late.Some? && Cancellable(s.instances[i].status) {
        HandleCancellationKeeps(work.0, i, def.steps, c.late.value);
      } else if !work.1 {
        HandleFailureKeeps(work.0, i, def, id, row, c);
      } else {
        HandleSuccessKeeps(work.0, i, def.steps, id, row.name, c.order,
                           def.steps[row.name].kind == Condition ==> c.takesNext);
      }
      TransitiveOrFroze(s1, work.0, s2, i);
      RunAndStop(s, s1, s2, i, id);
    }
  }

  lemma StartsRunning(s: State, i: nat, id: nat)
    requires Issued(s) && i in s.instances && InPlay(s, i, id)
    ensures var s1 := SetStatus(s, id, StepStatus.Running);
            && Issued(s1) && Advances(s, s1, i) && OthersQueued(s, s1, i) && InPlay(s1, i, id) && i in s1.instances
            && s1.instances == s.instances && s1.rows[id].status == StepStatus.Running
  {
    SetStatusKeeps(s, i, id, StepStatus.Running);
  }

  lemma {:induction false} RowsUnchanged(s: State, i: nat, steps: Steps, names: seq<string>, id: nat)
    requires Issued(s) && i in s.instances && id in s.rows
    ensures var s' := CreateBranches(s, i, steps, names).0; id in s'.rows && s'.rows[id] == s.rows[id]
    decreases names
  {
    if names != [] && names[0] in steps {
      var d := steps[names[0]];
      var row := Row(i, names[0], d.kind, Pending, 0, d.maxRetries, 0);
      CreateAndEnqueueKeeps(s, i, row);
      RowsUnchanged(Enqueue(CreateRow(s, row), i, s.nextRow), i, steps, names[1..], id);
    }
  }

  lemma {:induction false} CreateJoinsRows(s: State, i: nat, steps: Steps, d: StepDef, names: seq<string>)
    ensures CreateJoins(s, i, steps, d, names).rows == s.rows
    ensures CreateJoins(s, i, steps, d, names).instances == s.instances
    decreases names
  {
    if names != [] {
      if names[0] in steps && steps[names[0]].kind == Join {
        var join := steps[names[0]];
        var waitFor := if join.waitFor == [] then d.parallel else join.waitFor;
        CreateJoinsRows(NewJoin(s, i, names[0], waitFor, join.strategy), i, steps, d, names[1..]);
      } else {
        CreateJoinsRows(s, i, steps, d, names[1..]);
      }
    }
  }

  /** The work of a step leaves its own row as it is. */
  lemma StillInPlay(s: State, i: nat, steps: Steps, id: nat, name: string, c: Choice)
    requires Issued(s) && i in s.instances && InPlay(s, i, id) && name in steps
    ensures InPlay(Work(s, i, steps, id, name, c).0, i, id)
    ensures Work(s, i, steps, id, name, c).0.rows[id] == s.rows[id]
  {
    hide Issued, CreateBranches, CreateJoins;
    var d := steps[name];
    RowsUnchanged(s, i, steps, d.parallel, id);
    CreateJoinsRows(CreateBranches(s, i, steps, d.parallel).0, i, steps, d, d.next);
  }

  lemma RunAndStop(s: State, s1: State, s2: State, i: nat, id: nat)
    requires Advances(s, s1, i) && OthersQueued(s, s1, i) && KeepsOrFroze(s1, s2, i)
    requires s1 == SetStatus(s, id, StepStatus.Running)
    requires id in s2.rows && s2.rows[id].status != StepStatus.Running
    ensures KeepsOrFroze(s, s2, i)
  {
    hide Keeps;
    if Keeps(s1, s2, i) {
      RunAndStopKept(s, s1, s2, i, id);
    } else {
      var s' :| Keeps(s1, s', i) && NoItems(s', i) && s2 == SetInstance(s', i, Dlq);
      RunAndStopKept(s, s1, s', i, id);
    }
  }

  lemma RunAndStopKept(s: State, s1: State, s2: State, i: nat, id: nat)
    requires Advances(s, s1, i) && OthersQueued(s, s1, i) && Keeps(s1, s2, i)
    requires s1 == SetStatus(s, id, StepStatus.Running)
    requires id in s2.rows && s2.rows[id].status != StepStatus.Running
    ensures Keeps(s, s2, i)
  {
    hide Advances, Issued;
    AdvanceTransitive(s, s1, s2, i);
  }

  lemma ExecuteCompensationKeeps(s: State, i: nat, steps: Steps, id: nat, row: Row, c: Choice)
    requires Issued(s) && InPlay(s, i, id) && row.name in steps
    ensures var s' := ExecuteCompensation(s, i, steps, id, row, c);
            Keeps(s, s', i) && (Quiet(s, s') || Quiet(Note(s, Compensated(id)), s'))
  {
    hide Keeps, Quiet, Issued, Note, SetStatus, SetCompensation, Enqueue, SettleRollback;
    var s1 := Note(s, Compensated(id));
    SetStatusKept(s, i, id, RolledBack);
    NoteKeeps(s, i, Compensated(id));
    KeptIsIssued(s, s1, i);
    assert InPlay(s1, i, id) by { NoteInPlay(s, i, id, Compensated(id)); }
    var s' := ExecuteCompensation(s, i, steps, id, row, c);
    if steps[row.name].onFailure in steps {
      if c.succeeds {
        var s2 := SetStatus(s1, id, RolledBack);
        SetStatusKept(s1, i, id, RolledBack);
        SettleRollbackKeeps(s2, i);
        Both(s1, s2, SettleRollback(s2, i), i);
      } else {
        SetStatusKept(s1, i, id, StepStatus.Failed);
        CompensateKeeps(s1, i, id, row.comp + 1);
      }
      Transitive(s, s1, s', i);
    }
  }

  lemma SettleRollbackKeeps(s: State, i: nat)
    requires Issued(s)
    ensures Keeps(s, SettleRollback(s, i), i) && Quiet(s, SettleRollback(s, i))
  {
    hide Keeps, Quiet, SetInstance, Unfinished, HasStatus;
    Reflexive(s, i);
    SetInstanceKeeps(s, i, WorkflowStatus.Failed);
  }

  lemma NoteInPlay(s: State, i: nat, id: nat, e: Entry)
    requires InPlay(s, i, id)
    ensures InPlay(Note(s, e), i, id)
  {
  }

  lemma HandleKeeps(s: State, i: nat, def: Definition, id: nat, row: Row, c: Choice)
    requires Issued(s) && i in s.instances && InPlay(s, i, id) && row.name in def.steps
    ensures KeepsOrFroze(s, Handle(s, i, def, id, row, c), i)
  {
    hide Keeps, Issued, ExecuteStep, ExecuteCompensation;
    if row.status == Compensation {
      ExecuteCompensationKeeps(s, i, def.steps, id, row, c);
    } else {
      ExecuteStepKeeps(s, i, def, id, row, c);
    }
  }

  /** The instance an ExecuteNext works for. */
  function Worked(s: State, q: nat): nat {
    if q in s.queue then s.queue[q].instance else 0
  }

  /** The item is dropped, and with it the item that carries the row's number. */
  predicate Drops(s: State, q: nat) {
    Found(s, q) && Dropped(s.rows[s.queue[q].row].status)
  }

  /** One ExecuteNext touches its own instance only; the second item removed by a drop may be another's. */
  ghost predicate Performed(s: State, s': State, i: nat) {
    KeepsOrFroze(s, s', i) || exists s1, x :: Keeps(s, s1, i) && s' == RemoveItem(s1, x)
  }

  lemma ExecuteNextKeeps(s: State, q: nat, c: Choice)
    requires Issued(s)
    ensures Performed(s, ExecuteNext(s, q, c), Worked(s, q))
    ensures !Drops(s, q) ==> KeepsOrFroze(s, ExecuteNext(s, q, c), Worked(s, q))
  {
    hide Keeps, Issued, Handle;
    var i := Worked(s, q);
    Reflexive(s, i);
    if q in s.queue {
      var claimed, id := RemoveItem(s, q), s.queue[q].row;
      RemoveItemKeeps(s, i, q);
      KeptIsIssued(s, claimed, i);
      if Runnable(s, q) {
        HandleKeeps(claimed, i, DefOf(s, i), id, s.rows[id], c);
        TransitiveOrFroze(s, claimed, Handle(claimed, i, DefOf(s, i), id, s.rows[id], c), i);
      }
    }
  }
}
