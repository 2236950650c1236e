/**
 What requeueing a dead letter brings about: its row is worked on again only if a queue item
 still leads to it, because requeueing puts nothing into the queue.
 */
module EngineRequeue {
  import opened Definitions
  import opened Searches
  import opened Rollback
  import opened JoinStates
  import opened Validator
  import opened Engine
  import opened EngineFrame
  import opened EngineRuns

  /** The row waits to be worked on, or has been skipped, and no queue item leads to it. */
  ghost predicate Stranded(s: State, r: nat) {
    && r in s.rows && r < s.nextRow && s.rows[r].status in {Pending, Skipped}
    && forall q :: q in s.queue ==> s.queue[q].row != r
  }

  /** The row is stranded still, and nothing has happened to it in between. */
  ghost predicate Rests(s: State, s': State, r: nat) {
    && Stranded(s', r) && s.log <= s'.log
    && forall k :: |s.log| <= k < |s'.log| ==> s'.log[k].row != r
  }

  lemma RestsTwice(s: State, s1: State, s2: State, r: nat)
    requires Rests(s, s1, r) && Rests(s1, s2, r)
    ensures Rests(s, s2, r)
  {
    forall k | |s.log| <= k < |s2.log|
      ensures s2.log[k].row != r
    {
      if k < |s1.log| {
        assert s2.log[k] == s1.log[k];
      }
    }
  }

  lemma StillStranded(s: State, s': State, r: nat)
    requires Rests(s, s', r)
    ensures Stranded(s', r)
  {
  }

  // ---- The primitive changes ----

  lemma OtherStatusRests(s: State, id: nat, status: StepStatus, comp: nat, r: nat)
    requires Stranded(s, r) && id != r
    ensures Rests(s, SetStatus(s, id, status), r) && Rests(s, SetCompensation(s, id, comp), r)
  {
  }

  lemma QueueRests(s: State, i: nat, row: nat, q: nat, r: nat)
    requires Stranded(s, r)
    ensures row != r ==> Rests(s, Enqueue(s, i, row), r)
    ensures Rests(s, RemoveItem(s, q), r)
  {
  }

  lemma NewRowRests(s: State, row: Row, i: nat, r: nat)
    requires Stranded(s, r)
    ensures Rests(s, CreateRow(s, row), r) && Rests(s, Enqueue(CreateRow(s, row), i, s.nextRow), r)
  {
  }

  lemma SweepRests(s: State, i: nat, skipped: set<nat>, r: nat)
    requires Stranded(s, r)
    ensures Rests(s, SkipRows(s, skipped), r) && Rests(s, Freeze(s, i), r)
  {
  }

  // ---- Rollback and compensation ----

  lemma RollbackRowRests(s: State, i: nat, steps: Steps, id: nat, row: Row, r: nat)
    requires Stranded(s, r) && id != r && row.name in steps
    ensures Rests(s, RollbackRow(s, i, steps, id, row), r)
  {
    hide Rests, SetStatus, SetCompensation, Bury, Enqueue, Stranded;
    OtherStatusRests(s, id, RolledBack, row.comp + 1, r);
    OtherStatusRests(s, id, StepStatus.Failed, row.comp + 1, r);
    var failed, back := SetStatus(s, id, StepStatus.Failed), SetCompensation(s, id, row.comp + 1);
    StillStranded(s, failed, r);
    StillStranded(s, back, r);
    BuryRests(failed, i, id, r);
    QueueRests(back, i, id, 0, r);
    RestsTwice(s, failed, Bury(failed, i, id), r);
    RestsTwice(s, back, Enqueue(back, i, id), r);
  }

  lemma BuryRests(s: State, i: nat, id: nat, r: nat)
    requires Stranded(s, r)
    ensures Rests(s, Bury(s, i, id), r)
  {
  }

  lemma {:induction false} RollbackRowsRests(s: State, i: nat, steps: Steps, before: State, calls: seq<string>, r: nat)
    requires Stranded(s, r)
    requires forall c :: c in calls && c in StepMap(before, i, before.nextRow) ==>
             StepMap(before, i, before.nextRow)[c] != r
    ensures Rests(s, RollbackRows(s, i, steps, before, calls), r)
    decreases calls
  {
    hide Rests, Stranded, RollbackRow;
    ItselfRests(s, r);
    if calls != [] {
      var rows := StepMap(before, i, before.nextRow);
      if calls[0] in rows && calls[0] in steps {
        var s1 := RollbackRow(s, i, steps, rows[calls[0]], before.rows[rows[calls[0]]]);
        RollbackRowRests(s, i, steps, rows[calls[0]], before.rows[rows[calls[0]]], r);
        StillStranded(s, s1, r);
        RollbackRowsRests(s1, i, steps, before, calls[1..], r);
        RestsTwice(s, s1, RollbackRows(s1, i, steps, before, calls[1..]), r);
      } else {
        RollbackRowsRests(s, i, steps, before, calls[1..], r);
      }
    }
  }

  lemma ItselfRests(s: State, r: nat)
    requires Stranded(s, r)
    ensures Rests(s, s, r)
  {
  }

  /** The traversal passes only completed and failed rows to rollbackStep. */
  lemma RollbackFromRests(s: State, i: nat, steps: Steps, name: string, target: string, r: nat)
    requires Stranded(s, r)
    ensures Rests(s, RollbackFrom(s, i, steps, name, target).0, r)
  {
    hide Rests;
    var scene := Scene(steps, Statuses(s, i), target);
    EachStepAtMostOnce(scene, name, false, {});
    var rows := StepMap(s, i, s.nextRow);
    forall c | c in scene.Chain(name, false, {}).calls && c in rows
      ensures rows[c] != r
    {
      assert scene.Eligible(c);
    }
    RollbackRowsRests(s, i, steps, s, scene.Chain(name, false, {}).calls, r);
  }

  lemma {:induction false} CompensateCompletedRests(s: State, i: nat, steps: Steps, after: Option<nat>, bound: nat,
        r: nat)
    requires Stranded(s, r)
    ensures Rests(s, CompensateCompleted(s, i, steps, after, bound), r)
    decreases bound
  {
    hide Rests, SetStatus, SetCompensation, Enqueue;
    ItselfRests(s, r);
    if bound > 0 {
      var id := bound - 1;
      var s1 := if !LateCompletion(s, i, after, id) then s
                else if s.rows[id].name in steps && steps[s.rows[id].name].onFailure != "" then
                  Enqueue(SetCompensation(s, id, 0), i, id)
                else SetStatus(s, id, RolledBack);
      if LateCompletion(s, i, after, id) {
        OtherStatusRests(s, id, RolledBack, 0, r);
        var s0 := SetCompensation(s, id, 0);
        StillStranded(s, s0, r);
        QueueRests(s0, i, id, 0, r);
        RestsTwice(s, s0, Enqueue(s0, i, id), r);
      }
      StillStranded(s, s1, r);
      CompensateCompletedRests(s1, i, steps, after, id, r);
      RestsTwice(s, s1, CompensateCompleted(s1, i, steps, after, id), r);
    }
  }

  lemma SetInstanceRests(s: State, s1: State, i: nat, status: WorkflowStatus, r: nat)
    requires Rests(s, s1, r)
    ensures Rests(s, SetInstance(s1, i, status), r)
  {
  }

  lemma CompleteWorkflowRests(s: State, i: nat, steps: Steps, r: nat)
    requires Stranded(s, r)
    ensures Rests(s, CompleteWorkflow(s, i, steps), r)
  {
    hide Rests, Stranded, SetInstance, CompensateCompleted;
    var after := LastSavePoint(s, i, s.nextRow);
    ItselfRests(s, r);
    SetInstanceRests(s, s, i, WorkflowStatus.Completed, r);
    CompensateCompletedRests(s, i, steps, after, s.nextRow, r);
    SetInstanceRests(s, CompensateCompleted(s, i, steps, after, s.nextRow), i, WorkflowStatus.Failed, r);
  }

  // ---- Joins ----

  lemma PutJoinRests(s: State, s1: State, i: nat, join: string, j: JoinState, r: nat)
    requires Rests(s, s1, r)
    ensures Rests(s, PutJoin(s1, i, join, j), r)
  {
  }

  lemma JoinRowRests(s: State, s1: State, i: nat, join: string, r: nat)
    requires Rests(s, s1, r)
    ensures Rests(s, CreateJoinRow(s1, i, join), r)
  {
    hide Rests, Enqueue, CreateRow, Stranded;
    StillStranded(s, s1, r);
    NewRowRests(s1, Row(i, join, Join, Paused, 0, 0, 0), i, r);
    NewRowRests(s1, Row(i, join, Join, Pending, 0, 0, 0), i, r);
    RestsTwice(s, s1, CreateJoinRow(s1, i, join), r);
  }

  lemma NotifyOneRests(s: State, i: nat, steps: Steps, order: seq<string>, join: string, name: string, success: bool,
        r: nat)
    requires Stranded(s, r) && join in steps
    ensures Rests(s, NotifyOne(s, i, steps, order, join, name, success).0, r)
  {
    hide Rests, Stranded, PutJoin, CreateJoinRow, BranchesPending, Update, HasRow;
    ItselfRests(s, r);
    if (i, join) in s.joins {
      var updated := Update(s.joins[(i, join)], name, success);
      var s1 := PutJoin(s, i, join, updated);
      PutJoinRests(s, s, i, join, updated, r);
      PutJoinRests(s, s1, i, join, Update(updated, name, success), r);
      JoinRowRests(s, s1, i, join, r);
    }
  }

  lemma {:induction false} NotifyRests(s: State, i: nat, steps: Steps, order: seq<string>, rest: seq<string>,
        name: string, success: bool, r: nat)
    requires Stranded(s, r)
    ensures Rests(s, Notify(s, i, steps, order, rest, name, success).0, r)
    decreases rest
  {
    hide Rests, Stranded, NotifyOne;
    ItselfRests(s, r);
    if rest != [] {
      if Waits(s, i, steps, rest[0], name) {
        var one := NotifyOne(s, i, steps, order, rest[0], name, success);
        NotifyOneRests(s, i, steps, order, rest[0], name, success, r);
        StillStranded(s, one.0, r);
        NotifyRests(one.0, i, steps, order, rest[1..], name, success, r);
        RestsTwice(s, one.0, Notify(one.0, i, steps, order, rest[1..], name, success).0, r);
      } else {
        NotifyRests(s, i, steps, order, rest[1..], name, success, r);
      }
    }
  }

  lemma TakePlaceholderRests(s: State, i: nat, steps: Steps, order: seq<string>, condition: string, name: string,
        success: bool, r: nat)
    requires Stranded(s, r)
    ensures Rests(s, TakePlaceholder(s, i, steps, order, condition, name, success), r)
  {
    hide Rests, Stranded, PutJoin, NotifyOne, JoinFor, ReplaceWait, FirstStatus;
    var join := JoinFor(steps, order, name);
    ItselfRests(s, r);
    if join != "" {
      var j := if (i, join) !in s.joins then Fresh([name], All)
               else ReplaceWait(s.joins[(i, join)], VirtualName(condition), name, FirstStatus(s, i, name, s.nextRow));
      var s1 := PutJoin(s, i, join, j);
      PutJoinRests(s, s, i, join, j, r);
      StillStranded(s, s1, r);
      NotifyOneRests(s1, i, steps, order, join, name, success, r);
      RestsTwice(s, s1, NotifyOne(s1, i, steps, order, join, name, success).0, r);
    }
  }

  lemma AddTerminalRests(s: State, i: nat, steps: Steps, order: seq<string>, name: string, r: nat)
    requires Stranded(s, r)
    ensures Rests(s, AddTerminal(s, i, steps, order, name), r)
  {
    hide Rests, Stranded, PutJoin, JoinFor, AddWait;
    var join := JoinFor(steps, order, name);
    ItselfRests(s, r);
    if join != "" {
      PutJoinRests(s, s, i, join, Fresh([name], steps[join].strategy), r);
      if (i, join) in s.joins {
        PutJoinRests(s, s, i, join, AddWait(s.joins[(i, join)], name), r);
      }
    }
  }

  lemma TellRests(s: State, i: nat, steps: Steps, order: seq<string>, name: string, success: bool, r: nat)
    requires Stranded(s, r) && name in steps
    ensures Rests(s, Tell(s, i, steps, order, name, success).0, r)
  {
    hide Rests, Stranded, TakePlaceholder, AddTerminal, Notify, TerminalInFork, ConditionAbove;
    var s1 := PrepareJoins(s, i, steps, order, name, success);
    ItselfRests(s, r);
    TakePlaceholderRests(s, i, steps, order, ConditionAbove(steps, steps[name]), name, success, r);
    AddTerminalRests(s, i, steps, order, name, r);
    StillStranded(s, s1, r);
    NotifyRests(s1, i, steps, order, order, name, success, r);
    RestsTwice(s, s1, Notify(s1, i, steps, order, order, name, success).0, r);
  }

  // ---- One step ----

  lemma {:induction false} EnqueueNextRests(s: State, i: nat, steps: Steps, names: seq<string>, skipJoins: bool, r: nat)
    requires Stranded(s, r)
    ensures Rests(s, EnqueueNext(s, i, steps, names, skipJoins).0, r)
    decreases names
  {
    hide Rests, Stranded, Enqueue, CreateRow;
    ItselfRests(s, r);
    if names != [] && names[0] in steps {
      EnqueueNextRests(s, i, steps, names[1..], skipJoins, r);
      var row := Row(i, names[0], steps[names[0]].kind, Pending, 0, steps[names[0]].maxRetries, 0);
      var s1 := Enqueue(CreateRow(s, row), i, s.nextRow);
      NewRowRests(s, row, i, r);
      StillStranded(s, s1, r);
      EnqueueNextRests(s1, i, steps, names[1..], skipJoins, r);
      RestsTwice(s, s1, EnqueueNext(s1, i, steps, names[1..], skipJoins).0, r);
    }
  }

  lemma {:induction false} CreateBranchesRests(s: State, i: nat, steps: Steps, names: seq<string>, r: nat)
    requires Stranded(s, r)
    ensures Rests(s, CreateBranches(s, i, steps, names).0, r)
    decreases names
  {
    hide Rests, Stranded, Enqueue, CreateRow;
    ItselfRests(s, r);
    if names != [] && names[0] in steps {
      var row := Row(i, names[0], steps[names[0]].kind, Pending, 0, steps[names[0]].maxRetries, 0);
      var s1 := Enqueue(CreateRow(s, row), i, s.nextRow);
      NewRowRests(s, row, i, r);
      StillStranded(s, s1, r);
      CreateBranchesRests(s1, i, steps, names[1..], r);
      RestsTwice(s, s1, CreateBranches(s1, i, steps, names[1..]).0, r);
    }
  }

  lemma {:induction false} CreateJoinsRests(s: State, s1: State, i: nat, steps: Steps, d: StepDef, names: seq<string>,
        r: nat)
    requires Rests(s, s1, r)
    ensures Rests(s, CreateJoins(s1, i, steps, d, names), r)
    decreases names
  {
    hide Rests, Stranded, PutJoin;
    if names != [] {
      if names[0] in steps && steps[names[0]].kind == Join {
        var join := steps[names[0]];
        var waitFor := if join.waitFor == [] then d.parallel else join.waitFor;
        PutJoinRests(s, s1, i, names[0], Fresh(waitFor, join.strategy), r);
        CreateJoinsRests(s, NewJoin(s1, i, names[0], waitFor, join.strategy), i, steps, d, names[1..], r);
      } else {
        CreateJoinsRests(s, s1, i, steps, d, names[1..], r);
      }
    }
  }

  lemma NoteRests(s: State, e: Entry, r: nat)
    requires Stranded(s, r) && e.row != r
    ensures Rests(s, Note(s, e), r)
  {
  }

  lemma WorkRests(s: State, i: nat, steps: Steps, id: nat, name: string, c: Choice, r: nat)
    requires Stranded(s, r) && id != r && name in steps
    ensures Rests(s, Work(s, i, steps, id, name, c).0, r)
  {
    hide Rests, Stranded, Note, CreateBranches, CreateJoins, JoinSucceeds;
    var d := steps[name];
    ItselfRests(s, r);
    NoteRests(s, Ran(id), r);
    CreateBranchesRests(s, i, steps, d.parallel, r);
    CreateJoinsRests(s, CreateBranches(s, i, steps, d.parallel).0, i, steps, d, d.next, r);
  }

  lemma DecideRests(s: State, id: nat, status: StepStatus, success: bool, r: nat)
    requires Stranded(s, r) && id != r
    ensures Rests(s, Note(SetStatus(s, id, status), Ended(id, success)), r)
  {
    hide Rests, Stranded, Note, SetStatus;
    var s1 := SetStatus(s, id, status);
    OtherStatusRests(s, id, status, 0, r);
    StillStranded(s, s1, r);
    NoteRests(s1, Ended(id, success), r);
    RestsTwice(s, s1, Note(s1, Ended(id, success)), r);
  }

  lemma HandleSuccessRests(s: State, i: nat, steps: Steps, id: nat, name: string, order: seq<string>, next: bool,
        r: nat)
    requires Stranded(s, r) && id != r && name in steps
    ensures Rests(s, HandleSuccess(s, i, steps, id, name, order, next), r)
  {
    hide Rests, Stranded, Note, SetStatus, Tell, CompleteWorkflow, EnqueueNext, Unfinished;
    var s1 := Note(SetStatus(s, id, StepStatus.Completed), Ended(id, true));
    var s2 := Tell(s1, i, steps, order, name, true).0;
    DecideRests(s, id, StepStatus.Completed, true, r);
    StillStranded(s, s1, r);
    TellRests(s1, i, steps, order, name, true, r);
    RestsTwice(s, s1, s2, r);
    StillStranded(s1, s2, r);
    CompleteWorkflowRests(s2, i, steps, r);
    EnqueueNextRests(s2, i, steps, steps[name].next, true, r);
    EnqueueNextRests(s2, i, steps, [steps[name].els], false, r);
    var s3 := HandleSuccess(s, i, steps, id, name, order, next);
    if s3 != s2 {
      RestsTwice(s, s2, s3, r);
    }
  }

  lemma UnwindRests(s: State, i: nat, steps: Steps, name: string, c: Choice, r: nat)
    requires Stranded(s, r)
    ensures Rests(s, SetInstance(Unwind(s, i, steps, name, c), i, WorkflowStatus.Failed), r)
  {
    hide Rests, Stranded, SkipRows, RollbackFrom, Siblings, SetInstance;
    var s1 := SkipRows(s, Siblings(s, i, steps, c.order, name));
    var target := NearestSavePoint(steps, name, c.strays);
    SweepRests(s, i, Siblings(s, i, steps, c.order, name), r);
    StillStranded(s, s1, r);
    RollbackFromRests(s1, i, steps, name, target, r);
    RestsTwice(s, s1, RollbackFrom(s1, i, steps, name, target).0, r);
    SetInstanceRests(s, Unwind(s, i, steps, name, c), i, WorkflowStatus.Failed, r);
  }

  lemma FailStepRests(s: State, i: nat, steps: Steps, id: nat, name: string, c: Choice, r: nat)
    requires Stranded(s, r) && id != r && name in steps
    ensures Rests(s, FailStep(s, i, steps, id, name, c), r)
  {
    hide Rests, Stranded, Note, SetStatus, Tell, Unwind, SetInstance;
    var s1 := Note(SetStatus(s, id, StepStatus.Failed), Ended(id, false));
    var s2 := Tell(s1, i, steps, c.order, name, false).0;
    DecideRests(s, id, StepStatus.Failed, false, r);
    StillStranded(s, s1, r);
    TellRests(s1, i, steps, c.order, name, false, r);
    RestsTwice(s, s1, s2, r);
    StillStranded(s1, s2, r);
    UnwindRests(s2, i, steps, name, c, r);
    RestsTwice(s, s2, SetInstance(Unwind(s2, i, steps, name, c), i, WorkflowStatus.Failed), r);
  }

  lemma BuryStepRests(s: State, i: nat, steps: Steps, id: nat, name: string, c: Choice, r: nat)
    requires Stranded(s, r) && id != r
    ensures Rests(s, BuryStep(s, i, steps, id, name, c), r)
  {
    hide Rests, Stranded, Note, SetStatus, Notify, Bury, Freeze, SetInstance;
    var s1 := Note(SetStatus(s, id, Paused), Ended(id, false));
    var s2 := Notify(s1, i, steps, c.order, c.order, name, false).0;
    DecideRests(s, id, Paused, false, r);
    StillStranded(s, s1, r);
    NotifyRests(s1, i, steps, c.order, c.order, name, false, r);
    RestsTwice(s, s1, s2, r);
    StillStranded(s1, s2, r);
    BuryRests(s2, i, id, r);
    StillStranded(s2, Bury(s2, i, id), r);
    SweepRests(Bury(s2, i, id), i, {}, r);
    RestsTwice(s2, Bury(s2, i, id), Freeze(Bury(s2, i, id), i), r);
    RestsTwice(s, s2, Freeze(Bury(s2, i, id), i), r);
    SetInstanceRests(s, Freeze(Bury(s2, i, id), i), i, Dlq, r);
  }

  lemma HandleFailureRests(s: State, i: nat, def: Definition, id: nat, row: Row, c: Choice, r: nat)
    requires Stranded(s, r) && id != r && row.name in def.steps
    ensures Rests(s, HandleFailure(s, i, def, id, row, c), r)
  {
    hide Rests, Stranded, SetStatus, Enqueue, FailStep, BuryStep, Retries;
    var s1 := SetStatus(s, id, StepStatus.Failed);
    OtherStatusRests(s, id, StepStatus.Failed, 0, r);
    StillStranded(s, s1, r);
    QueueRests(s1, i, id, 0, r);
    RestsTwice(s, s1, Enqueue(s1, i, id), r);
    FailStepRests(s, i, def.steps, id, row.name, c, r);
    BuryStepRests(s, i, def.steps, id, row.name, c, r);
  }

  lemma UndoAllRests(s: State, i: nat, steps: Steps, r: nat)
    requires Stranded(s, r)
    ensures Rests(s, UndoAll(s, i, steps), r)
  {
    hide Rests, Stranded, SetInstance, RollbackFrom;
    var last := LastCompleted(s, i, s.nextRow);
    ItselfRests(s, r);
    SetInstanceRests(s, s, i, Cancelled, r);
    SetInstanceRests(s, s, i, Cancelling, r);
    var s1 := SetInstance(s, i, Cancelling);
    StillStranded(s, s1, r);
    if last.Some? {
      var back := RollbackFrom(s1, i, steps, s.rows[last.value].name, ROOT);
      RollbackFromRests(s1, i, steps, s.rows[last.value].name, ROOT, r);
      RestsTwice(s, s1, back.0, r);
      SetInstanceRests(s, back.0, i, if back.1 then Cancelled else WorkflowStatus.Failed, r);
    }
  }

  lemma DropRequestRests(s: State, s1: State, i: nat, r: nat)
    requires Rests(s, s1, r)
    ensures Rests(s, DropRequest(s1, i), r)
  {
  }

  lemma HandleCancellationRests(s: State, i: nat, steps: Steps, kind: CancelKind, r: nat)
    requires Stranded(s, r)
    ensures Rests(s, HandleCancellation(s, i, steps, kind), r)
  {
    hide Rests, Stranded, SkipRows, ActiveRows, SetInstance, UndoAll, DropRequest;
    var s1 := SkipRows(s, ActiveRows(s, i));
    SweepRests(s, i, ActiveRows(s, i), r);
    StillStranded(s, s1, r);
    SetInstanceRests(s, s1, i, Aborted, r);
    UndoAllRests(s1, i, steps, r);
    RestsTwice(s, s1, UndoAll(s1, i, steps), r);
    DropRequestRests(s, if kind == Abort then SetInstance(s1, i, Aborted) else UndoAll(s1, i, steps), i, r);
  }

  lemma ExecuteStepRests(s: State, i: nat, def: Definition, id: nat, row: Row, c: Choice, r: nat)
    requires Stranded(s, r) && id != r && i in s.instances && row.name in def.steps
    ensures Rests(s, ExecuteStep(s, i, def, id, row, c), r)
  {
    hide Rests, Stranded, SetStatus, Work, HandleCancellation, HandleFailure, HandleSuccess;
    if i in s.cancels {
      HandleCancellationRests(s, i, def.steps, s.cancels[i], r);
    } else {
      var s1 := SetStatus(s, id, StepStatus.Running);
      var s2 := Work(s1, i, def.steps, id, row.name, c).0;
      OtherStatusRests(s, id, StepStatus.Running, 0, r);
      StillStranded(s, s1, r);
      WorkRests(s1, i, def.steps, id, row.name, c, r);
      RestsTwice(s, s1, s2, r);
      StillStranded(s1, s2, r);
      if c.late.Some? { HandleCancellationRests(s2, i, def.steps, c.late.value, r); }
      HandleFailureRests(s2, i, def, id, row, c, r);
      HandleSuccessRests(s2, i, def.steps, id, row.name, c.order,
                         def.steps[row.name].kind == Condition ==> c.takesNext, r);
      RestsTwice(s, s2, ExecuteStep(s, i, def, id, row, c), r);
    }
  }

  lemma ExecuteCompensationRests(s: State, i: nat, steps: Steps, id: nat, row: Row, c: Choice, r: nat)
    requires Stranded(s, r) && id != r && row.name in steps
    ensures Rests(s, ExecuteCompensation(s, i, steps, id, row, c), r)
  {
    hide Rests, Stranded, Note, SetStatus, SetCompensation, Enqueue, SetInstance, Unfinished, HasStatus;
    OtherStatusRests(s, id, RolledBack, 0, r);
    NoteRests(s, Compensated(id), r);
    var s1 := Note(s, Compensated(id));
    StillStranded(s, s1, r);
    OtherStatusRests(s1, id, RolledBack, row.comp + 1, r);
    OtherStatusRests(s1, id, StepStatus.Failed, row.comp + 1, r);
    RestsTwice(s, s1, SetStatus(s1, id, RolledBack), r);
    RestsTwice(s, s1, SetStatus(s1, id, StepStatus.Failed), r);
    SetInstanceRests(s, SetStatus(s1, id, RolledBack), i, WorkflowStatus.Failed, r);
    var s2 := SetCompensation(s1, id, row.comp + 1);
    StillStranded(s1, s2, r);
    QueueRests(s2, i, id, 0, r);
    RestsTwice(s, s1, s2, r);
    RestsTwice(s, s2, Enqueue(s2, i, id), r);
  }

  lemma ExecuteNextRests(s: State, q: nat, c: Choice, r: nat)
    requires Stranded(s, r)
    ensures Rests(s, ExecuteNext(s, q, c), r)
  {
    hide Rests, RemoveItem, ExecuteCompensation, ExecuteStep;
    ItselfRests(s, r);
    if q in s.queue {
      var claimed, i, id := RemoveItem(s, q), s.queue[q].instance, s.queue[q].row;
      QueueRests(s, i, id, q, r);
      StillStranded(s, claimed, r);
      QueueRests(claimed, i, id, id, r);
      RestsTwice(s, claimed, RemoveItem(claimed, id), r);
      if Runnable(s, q) && !LacksHandler(DefOf(s, i).steps, s.rows[id], c) {
        var def, row := DefOf(s, i), s.rows[id];
        if row.status == Compensation {
          ExecuteCompensationRests(claimed, i, def.steps, id, row, c, r);
          RestsTwice(s, claimed, ExecuteCompensation(claimed, i, def.steps, id, row, c), r);
        } else {
          RemovedItem(s, q);
          ExecuteStepRests(claimed, i, def, id, row, c, r);
          RestsTwice(s, claimed, ExecuteStep(claimed, i, def, id, row, c), r);
        }
      }
    }
  }

  lemma RemovedItem(s: State, q: nat)
    ensures RemoveItem(s, q).instances == s.instances
  {
  }

  // ---- Runs ----

  lemma StartRests(s: State, workflow: string, r: nat)
    requires Stranded(s, r)
    ensures Rests(s, StartWorkflow(s, workflow), r)
  {
    hide Rests, EnqueueNext, WellFormed;
    ItselfRests(s, r);
    if workflow in s.defs && s.defs[workflow].start in s.defs[workflow].steps && WellFormed(s.defs[workflow]) {
      var i, def, s1 := s.nextInstance, s.defs[workflow], NewInstance(s, workflow);
      NewInstanceRests(s, workflow, r);
      StillStranded(s, s1, r);
      EnqueueNextRests(s1, i, def.steps, [def.start], false, r);
      RestsTwice(s, s1, StartWorkflow(s, workflow), r);
    }
  }

  lemma NewInstanceRests(s: State, workflow: string, r: nat)
    requires Stranded(s, r) && workflow in s.defs
    ensures Rests(s, NewInstance(s, workflow), r)
  {
  }

  lemma RequestRests(s: State, i: nat, kind: CancelKind, r: nat)
    requires Stranded(s, r)
    ensures Rests(s, RequestCancel(s, i, kind), r)
  {
  }

  lemma RequeueRests(s: State, dead: nat, r: nat)
    requires Stranded(s, r)
    ensures Rests(s, Requeue(s, dead), r)
  {
    RequeueRest(s, dead);
    RequeuedStatus(s, dead, r);
    hide Requeue;
  }

  /** The letter's row becomes pending, other rows keep their status or, if paused, become pending. */
  lemma RequeuedStatus(s: State, dead: nat, r: nat)
    requires r in s.rows
    ensures var s1 := Requeue(s, dead);
            && r in s1.rows && s1.rows[r].status in {s.rows[r].status, Pending}
            && (dead in s.dead && s.dead[dead].row == r ==> s1.rows[r].status == Pending)
  {
  }

  lemma {:induction false} StrandedStays(s: State, events: seq<Event>, r: nat)
    requires Stranded(s, r)
    ensures Rests(s, After(s, events), r)
    decreases events
  {
    hide Rests, Stranded, ExecuteNext, StartWorkflow, Requeue, RequestCancel;
    ItselfRests(s, r);
    if events != [] {
      var e := events[0];
      match e {
        case Start(workflow) => StartRests(s, workflow, r);
        case Execute(q, c) => ExecuteNextRests(s, q, c, r);
        case RequestStop(i, kind) => RequestRests(s, i, kind, r);
        case RequeueLetter(dead) => RequeueRests(s, dead, r);
      }
      StillStranded(s, Step(s, e), r);
      StrandedStays(Step(s, e), events[1..], r);
      RestsTwice(s, Step(s, e), After(s, events), r);
    }
  }

  // ---- What a requeue resumes ----

  predicate HasItem(s: State, r: nat) {
    exists q :: q in s.queue && s.queue[q].row == r
  }

  /** Since then, the row's handler or compensation has run, or its execution has been decided. */
  ghost predicate WorkedOn(s: State, s': State, r: nat) {
    exists k :: |s.log| <= k < |s'.log| && s'.log[k].row == r
  }

  /** A letter of any instance whose row no queue item leads to: the row is never worked on again. */
  lemma {:induction false} RequeuedRowRests(s: State, dead: nat, events: seq<Event>)
    requires Issued(s) && dead in s.dead && !HasItem(s, s.dead[dead].row)
    ensures Rests(Requeue(s, dead), After(Requeue(s, dead), events), s.dead[dead].row)
  {
    hide Rests, After, Requeue;
    var r := s.dead[dead].row;
    assert r in s.rows;
    RequeueRest(s, dead);
    RequeuedStatus(s, dead, r);
    forall q | q in Requeue(s, dead).queue
      ensures Requeue(s, dead).queue[q].row != r
    {
      assert !HasItem(s, r);
    }
    StrandedStays(Requeue(s, dead), events, r);
  }

  /** The requeued row is ready to be handed out by the item. */
  lemma RequeuedIsRunnable(s: State, dead: nat, q: nat)
    requires Orderly(s) && dead in s.dead && q in s.queue && s.queue[q].row == s.dead[dead].row
    requires var i, r := s.dead[dead].instance, s.dead[dead].row;
             && DefinedFor(s, i) && s.rows[r].name in DefOf(s, i).steps && i !in s.cancels
    ensures var i, r, s1 := s.dead[dead].instance, s.dead[dead].row, Requeue(s, dead);
            && Issued(s1) && q in s1.queue && s1.queue[q] == Item(i, r) && Runnable(s1, q)
            && s1.rows[r].status == Pending && s1.rows[r].name == s.rows[r].name
            && DefOf(s1, i) == DefOf(s, i) && i !in s1.cancels
  {
    hide Requeue, Issued, Orderly;
    var i, r, s1 := s.dead[dead].instance, s.dead[dead].row, Requeue(s, dead);
    OrderlyIsIssued(s);
    LetterIsOfRow(s, dead, q);
    RequeueOrderly(s, dead);
    OrderlyIsIssued(s1);
    RequeueRest(s, dead);
    RequeueFacts(s, dead);
    RequeuedStatus(s, dead, r);
    RequeuedInstance(s, dead);
  }

  lemma LetterIsOfRow(s: State, dead: nat, q: nat)
    requires Issued(s) && dead in s.dead && q in s.queue && s.queue[q].row == s.dead[dead].row
    ensures IsRowOf(s, s.dead[dead].instance, s.dead[dead].row)
    ensures s.queue[q] == Item(s.dead[dead].instance, s.dead[dead].row)
  {
  }

  lemma RequeuedInstance(s: State, dead: nat)
    requires dead in s.dead && DefinedFor(s, s.dead[dead].instance) && s.dead[dead].row in s.rows
    ensures var i, s1 := s.dead[dead].instance, Requeue(s, dead);
            DefinedFor(s1, i) && DefOf(s1, i) == DefOf(s, i) && !InDlq(s1, i) && s1.cancels == s.cancels
  {
  }

  const Succeeding: Choice := Choice(true, true, true, [], map[], None)

  /** A task that is handed out and succeeds has run. */
  lemma HandedOutRuns(s: State, q: nat)
    requires Issued(s) && q in s.queue && Runnable(s, q)
    requires var i, r := s.queue[q].instance, s.queue[q].row;
             && s.rows[r].status == Pending && DefOf(s, i).steps[s.rows[r].name].kind == Task && i !in s.cancels
    ensures WorkedOn(s, ExecuteNext(s, q, Succeeding), s.queue[q].row)
  {
    hide Issued, Keeps, HandleSuccess, SetStatus, RemoveItem;
    var i, r, claimed := s.queue[q].instance, s.queue[q].row, RemoveItem(s, q);
    var steps, name := DefOf(s, i).steps, s.rows[r].name;
    RemoveItemKeeps(s, i, q);
    KeptIsIssued(s, claimed, i);
    RemovedIs(s, q);
    var s1 := SetStatus(claimed, r, StepStatus.Running);
    StartsRunning(claimed, i, r);
    RunningIs(claimed, r);
    var s2 := Note(s1, Ran(r));
    WorkKeeps(s1, i, steps, r, name, Succeeding);
    StillInPlay(s1, i, steps, r, name, Succeeding);
    KeptIsIssued(s1, s2, i);
    HandleSuccessKeeps(s2, i, steps, r, name, [], true);
    var s3 := HandleSuccess(s2, i, steps, r, name, [], true);
    assert ExecuteNext(s, q, Succeeding) == s3;
    KeepsLog(s2, s3, i);
    assert s3.log[|s.log|] == Ran(r);
  }

  lemma RemovedIs(s: State, q: nat)
    ensures var s1 := RemoveItem(s, q); s1.rows == s.rows && s1.instances == s.instances && s1.log == s.log
    ensures RemoveItem(s, q).cancels == s.cancels
  {
  }

  lemma RunningIs(s: State, r: nat)
    ensures SetStatus(s, r, StepStatus.Running).log == s.log
  {
  }

  lemma KeepsLog(s: State, s': State, i: nat)
    requires Keeps(s, s', i)
    ensures s.log <= s'.log
  {
  }

  /**
   Requeueing a dead letter of a task lets the task be worked on again exactly if a queue item
   leads to its row at that moment: one succeeding execution then runs it, and otherwise no
   run of the engine ever touches it.
   */
  lemma RequeueResumesIff(s: State, dead: nat)
    requires Orderly(s) && dead in s.dead
    requires var i, name := s.dead[dead].instance, s.rows[s.dead[dead].row].name;
             && DefinedFor(s, i) && name in DefOf(s, i).steps && DefOf(s, i).steps[name].kind == Task && i !in s.cancels
    ensures var s1, r := Requeue(s, dead), s.dead[dead].row;
            (exists events :: WorkedOn(s1, After(s1, events), r)) <==> HasItem(s, r)
  {
    hide Issued, Requeue, ExecuteNext, Rests, After, WorkedOn, HasItem, Runnable;
    var s1, r := Requeue(s, dead), s.dead[dead].row;
    if HasItem(s, r) {
      var q := ItemOf(s, r);
      RequeuedIsRunnable(s, dead, q);
      HandedOutRuns(s1, q);
      OneEvent(s1, Execute(q, Succeeding));
      assert WorkedOn(s1, After(s1, [Execute(q, Succeeding)]), r);
    } else {
      forall events
        ensures !WorkedOn(s1, After(s1, events), r)
      {
        RequeuedRowRests(s, dead, events);
        RestingIsNotWorkedOn(s1, After(s1, events), r);
      }
    }
  }

  lemma ItemOf(s: State, r: nat) returns (q: nat)
    requires HasItem(s, r)
    ensures q in s.queue && s.queue[q].row == r
  {
    q :| q in s.queue && s.queue[q].row == r;
  }

  lemma RestingIsNotWorkedOn(s: State, s': State, r: nat)
    requires Rests(s, s', r)
    ensures !WorkedOn(s, s', r)
  {
  }
}
