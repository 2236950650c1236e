/**
 Linear sagas over whole runs, any number of them at once: each either runs to its end, or is
 undone down to its nearest save point; and each step is run only so many times.
 */
module EngineSagas {
  import opened Definitions
  import opened Validator
  import opened Searches
  import opened Rollback
  import opened JoinStates
  import opened Engine
  import opened EngineFrame
  import opened EngineRuns
  import opened EngineLinear

  // ---- Counting log entries ----

  function Count(log: seq<Entry>, e: Entry): nat {
    if log == [] then 0 else Count(log[..|log| - 1], e) + if log[|log| - 1] == e then 1 else 0
  }

  lemma {:induction false} CountNote(log: seq<Entry>, x: Entry, e: Entry)
    ensures Count(log + [x], e) == Count(log, e) + if x == e then 1 else 0
  {
    assert (log + [x])[..|log|] == log;
  }

  lemma {:induction false} CountAbsent(log: seq<Entry>, e: Entry)
    requires e !in log
    ensures Count(log, e) == 0
  {
    if log != [] {
      CountAbsent(log[..|log| - 1], e);
    }
  }

  lemma {:induction false} CountKept(a: seq<Entry>, b: seq<Entry>, e: Entry)
    requires a <= b && forall k :: |a| <= k < |b| ==> b[k] != e
    ensures Count(b, e) == Count(a, e)
  {
    if |b| == |a| {
      assert a == b;
    } else {
      CountKept(a, b[..|b| - 1], e);
    }
  }

  // ---- How often a step may run ----

  /** The bound on the runs of a step's handler; a step that is not idempotent is retried once. */
  function RunLimit(d: StepDef): nat {
    if d.maxRetries <= 0 then 1 else if d.noIdempotent then 2 else d.maxRetries + 1
  }

  function CompLimit(steps: Steps, d: StepDef): nat {
    if d.onFailure in steps && steps[d.onFailure].maxRetries > 0 then steps[d.onFailure].maxRetries else 0
  }

  lemma RetriesBelowLimit(d: StepDef, row: Row)
    requires row.maxRetries == d.maxRetries
    ensures Retries(d, row) <==> row.retry + 1 < RunLimit(d)
  {
  }

  // ---- The shape of an instance ----

  /** The instance's rows are `ids`, one for each of the first steps of the line. */
  ghost predicate Along(s: State, i: nat, steps: Steps, main: seq<string>, ids: seq<nat>) {
    && 0 < |ids| <= |main| && NoDuplicates(ids)
    && (forall k :: 0 <= k < |ids| ==> main[k] in steps && RowFor(s, i, ids[k], main[k], steps[main[k]]))
    && (forall id: nat :: IsRowOf(s, i, id) ==> id in ids)
  }

  predicate RowFor(s: State, i: nat, id: nat, name: string, d: StepDef) {
    IsRowOf(s, i, id) && s.rows[id].name == name && s.rows[id].kind == d.kind && s.rows[id].maxRetries == d.maxRetries
  }

  /** A row that is to be run: new, or failed and to be retried. */
  predicate Waiting(row: Row, d: StepDef) {
    row.comp == 0 &&
    ((row.status == Pending && row.retry == 0) || (row.status == StepStatus.Failed && 0 < row.retry < RunLimit(d)))
  }

  predicate Done(row: Row) {
    row.status == StepStatus.Completed && row.comp == 0
  }

  /** A row that is rolled back, is being compensated, or has used up its compensation retries. */
  predicate Undone(steps: Steps, row: Row, d: StepDef) {
    row.status == RolledBack || Compensating(steps, row, d) || Exhausted(steps, row, d)
  }

  predicate Compensating(steps: Steps, row: Row, d: StepDef) {
    row.status == Compensation && d.onFailure in steps && 1 <= row.comp <= steps[d.onFailure].maxRetries
  }

  predicate Exhausted(steps: Steps, row: Row, d: StepDef) {
    row.status == StepStatus.Failed && d.onFailure in steps && row.comp >= steps[d.onFailure].maxRetries
  }

  /** Compensations that have run; one under way has run once less than it has been counted. */
  predicate CompensatedOk(s: State, steps: Steps, id: nat, d: StepDef)
    requires id in s.rows
  {
    Count(s.log, Compensated(id)) <=
      if s.rows[id].status == Compensation then s.rows[id].comp - 1
      else if s.rows[id].status in {RolledBack, StepStatus.Failed} && s.rows[id].comp > 0 then CompLimit(steps, d)
      else 0
  }

  /** The instance's queue items: exactly one for each of the rows. */
  ghost predicate Queued(s: State, i: nat, pending: set<nat>) {
    && (forall q :: q in s.queue && s.queue[q].instance == i ==> s.queue[q].row in pending)
    && (forall id :: id in pending ==> HasItem(s, i, id))
    && (forall p, q :: p in s.queue && q in s.queue && s.queue[p] == s.queue[q] && s.queue[p].instance == i ==> p == q)
  }

  ghost predicate HasItem(s: State, i: nat, id: nat) {
    exists q :: q in s.queue && s.queue[q] == Item(i, id)
  }

  /** How often the handlers of the instance's rows have run so far. */
  ghost predicate RunsOk(s: State, steps: Steps, main: seq<string>, ids: seq<nat>)
    requires |ids| <= |main|
  {
    forall k :: 0 <= k < |ids| ==>
      && main[k] in steps && ids[k] in s.rows
      && CompensatedOk(s, steps, ids[k], steps[main[k]])
      && Count(s.log, Ran(ids[k])) <= RunLimit(steps[main[k]])
  }

  ghost predicate DoneBelow(s: State, ids: seq<nat>, n: int) {
    forall k :: 0 <= k < |ids| && k < n ==> ids[k] in s.rows && Done(s.rows[ids[k]])
  }

  predicate InStatus(s: State, i: nat, status: WorkflowStatus) {
    i in s.instances && s.instances[i].status == status
  }

  /** The rows under compensation. */
  function Pend(s: State, ids: seq<nat>): set<nat> {
    set id | id in ids && id in s.rows && s.rows[id].status == Compensation
  }

  /** Every step but the last is completed; the last one waits in the queue. */
  ghost predicate Forward(s: State, i: nat, steps: Steps, main: seq<string>, ids: seq<nat>) {
    && Along(s, i, steps, main, ids) && RunsOk(s, steps, main, ids) && InStatus(s, i, WorkflowStatus.Running)
    && DoneBelow(s, ids, |ids| - 1)
    && Waiting(s.rows[ids[|ids| - 1]], steps[main[|ids| - 1]])
    && Count(s.log, Ran(ids[|ids| - 1])) <= s.rows[ids[|ids| - 1]].retry
    && Queued(s, i, {ids[|ids| - 1]})
  }

  ghost predicate Finished(s: State, i: nat, steps: Steps, main: seq<string>, ids: seq<nat>) {
    && Along(s, i, steps, main, ids) && RunsOk(s, steps, main, ids) && InStatus(s, i, WorkflowStatus.Completed)
    && |ids| == |main| && DoneBelow(s, ids, |ids|) && Queued(s, i, {})
  }

  ghost predicate UndoneAbove(s: State, steps: Steps, main: seq<string>, ids: seq<nat>, sp: int)
    requires |ids| <= |main|
  {
    forall k :: 0 <= k < |ids| && sp < k ==>
        main[k] in steps && ids[k] in s.rows && Undone(steps, s.rows[ids[k]], steps[main[k]])
  }

  /** The last step has failed for good; down to the save point `sp` everything is being undone. */
  ghost predicate Backward(s: State, i: nat, def: Definition, main: seq<string>, ids: seq<nat>, sp: int) {
    && Along(s, i, def.steps, main, ids) && RunsOk(s, def.steps, main, ids) && InStatus(s, i, WorkflowStatus.Failed)
    && Nearest(def, main, |ids| - 1, sp)
    && DoneBelow(s, ids, sp + 1) && UndoneAbove(s, def.steps, main, ids, sp)
    && Queued(s, i, Pend(s, ids))
  }

  ghost predicate Saga(s: State, i: nat, def: Definition, main: seq<string>, ids: seq<nat>) {
    || Forward(s, i, def.steps, main, ids)
    || Finished(s, i, def.steps, main, ids)
    || exists sp :: Backward(s, i, def, main, ids, sp)
  }

  // ---- Small changes ----

  lemma QueuedRemove(s: State, i: nat, pending: set<nat>, q: nat)
    requires Queued(s, i, pending) && q in s.queue && s.queue[q].instance == i
    ensures Queued(RemoveItem(s, q), i, pending - {s.queue[q].row})
  {
    var s' := RemoveItem(s, q);
    forall id | id in pending && id != s.queue[q].row
      ensures HasItem(s', i, id)
    {
      var p :| p in s.queue && s.queue[p] == Item(i, id);
      assert p in s'.queue && s'.queue[p] == Item(i, id);
    }
  }

  lemma QueuedAdd(s: State, i: nat, pending: set<nat>, id: nat)
    requires Queued(s, i, pending) && id !in pending && s.nextItem !in s.queue
    ensures Queued(Enqueue(s, i, id), i, pending + {id})
  {
    var s' := Enqueue(s, i, id);
    forall k | k in pending + {id}
      ensures HasItem(s', i, k)
    {
      if k == id {
        assert s'.queue[s.nextItem] == Item(i, id);
      } else {
        var p :| p in s.queue && s.queue[p] == Item(i, k);
        assert p in s'.queue && s'.queue[p] == Item(i, k);
      }
    }
  }

  /** Only the queue matters. */
  lemma QueuedSame(s: State, s': State, i: nat, pending: set<nat>)
    requires Queued(s, i, pending) && s'.queue == s.queue
    ensures Queued(s', i, pending)
  {
    forall id | id in pending
      ensures HasItem(s', i, id)
    {
      assert HasItem(s, i, id);
    }
  }

  /** The rows keep their identity and none is added. */
  lemma AlongSame(s: State, s': State, i: nat, steps: Steps, main: seq<string>, ids: seq<nat>)
    requires Along(s, i, steps, main, ids)
    requires s'.rows.Keys == s.rows.Keys && forall id :: id in s.rows ==> SameIdentity(s.rows[id], s'.rows[id])
    ensures Along(s', i, steps, main, ids)
  {
    forall k | 0 <= k < |ids|
      ensures RowFor(s', i, ids[k], main[k], steps[main[k]])
    {
      assert RowFor(s, i, ids[k], main[k], steps[main[k]]);
    }
    forall id: nat | IsRowOf(s', i, id)
      ensures id in ids
    {
      assert IsRowOf(s, i, id);
    }
  }

  lemma AlongMore(s: State, s': State, i: nat, steps: Steps, main: seq<string>, ids: seq<nat>, row: Row)
    requires Along(s, i, steps, main, ids) && |ids| < |main| && main[|ids|] in steps
    requires s.nextRow !in s.rows && s'.rows == s.rows[s.nextRow := row]
    requires row.instance == i && row.name == main[|ids|]
    requires row.kind == steps[main[|ids|]].kind && row.maxRetries == steps[main[|ids|]].maxRetries
    ensures Along(s', i, steps, main, ids + [s.nextRow])
  {
    var ids' := ids + [s.nextRow];
    forall k | 0 <= k < |ids'|
      ensures main[k] in steps && RowFor(s', i, ids'[k], main[k], steps[main[k]])
    {
      if k < |ids| {
        assert RowFor(s, i, ids[k], main[k], steps[main[k]]);
      }
    }
    forall id: nat | IsRowOf(s', i, id)
      ensures id in ids'
    {
      if id != s.nextRow {
        assert IsRowOf(s, i, id) && id in ids;
      }
    }
    forall j, k | 0 <= j < k < |ids'|
      ensures ids'[j] != ids'[k]
    {
      assert RowFor(s, i, ids[j], main[j], steps[main[j]]);
    }
  }

  lemma RowsOnLine(s: State, i: nat, steps: Steps, main: seq<string>, ids: seq<nat>, k: nat)
    requires Along(s, i, steps, main, ids) && k < |ids|
    ensures k < |main| && main[k] in steps && RowFor(s, i, ids[k], main[k], steps[main[k]])
    ensures forall j :: 0 <= j < |ids| && j != k ==> ids[j] != ids[k]
  {
  }
}
