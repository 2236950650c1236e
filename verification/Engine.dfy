/**
 The saga engine on values: a store of instances, step rows, queue items and join states, and
 one function per engine operation. One ExecuteNext is one step, as it is one transaction.
 The queue's order is left open here: an ExecuteNext may pick any item.
 */
module Engine {
  import opened Definitions
  import opened Graphs
  import opened Links
  import opened Validator
  import opened Searches
  import opened Rollback
  import opened JoinStates

  datatype WorkflowStatus = Running | Completed | Failed | Cancelling | Cancelled | Aborted | Dlq

  datatype CancelKind = Cancel | Abort

  datatype Instance = Instance(workflow: string, status: WorkflowStatus)

  datatype Row = Row(
    instance: nat,
    name: string,
    kind: StepType,
    status: StepStatus,
    retry: nat,
    maxRetries: int,
    comp: nat)

  datatype Item = Item(instance: nat, row: nat)

  datatype DeadLetter = DeadLetter(instance: nat, row: nat)

  /** What happened to a row: its handler ran, its compensation ran, its execution was decided. */
  datatype Entry = Ran(row: nat) | Compensated(row: nat) | Ended(row: nat, success: bool)

  datatype State = State(
    defs: map<string, Definition>,
    instances: map<nat, Instance>,
    rows: map<nat, Row>,
    queue: map<nat, Item>,
    joins: map<Key, JoinState>,
    cancels: map<nat, CancelKind>,
    dead: map<nat, DeadLetter>,
    nextInstance: nat,
    nextRow: nat,
    nextItem: nat,
    nextDead: nat,
    log: seq<Entry>)

  /** What one ExecuteNext does not decide itself. */
  datatype Choice = Choice(
    hasHandler: bool,           // the worker knows the handler it needs
    succeeds: bool,             // the handler, or the evaluation of a condition, returns no error
    takesNext: bool,            // the value of a condition
    order: seq<string>,         // the order in which the definition's map is iterated over
    strays: Strays,             // see NearestSavePoint
    late: Option<CancelKind>)   // a cancel request that reaches the step while it runs

  // ---- The store ----

  function Initial(defs: map<string, Definition>): State {
    State(defs, map[], map[], map[], map[], map[], map[], 1, 1, 1, 1, [])
  }

  /** UpdateStep: a failure is counted as a retry. */
  function SetStatus(s: State, id: nat, status: StepStatus): State {
    if id !in s.rows then s
    else
      var row := s.rows[id];
      var retry := if status == StepStatus.Failed then row.retry + 1 else row.retry;
      s.(rows := s.rows[id := row.(status := status, retry := retry)])
  }

  /** UpdateStepCompensationRetry */
  function SetCompensation(s: State, id: nat, comp: nat): State {
    if id !in s.rows then s else s.(rows := s.rows[id := s.rows[id].(status := Compensation, comp := comp)])
  }

  function CreateRow(s: State, row: Row): State {
    s.(rows := s.rows[s.nextRow := row], nextRow := s.nextRow + 1)
  }

  function Enqueue(s: State, i: nat, row: nat): State {
    s.(queue := s.queue[s.nextItem := Item(i, row)], nextItem := s.nextItem + 1)
  }

  function RemoveItem(s: State, id: nat): State {
    s.(queue := s.queue - {id})
  }

  function SetInstance(s: State, i: nat, status: WorkflowStatus): State {
    if i !in s.instances then s else s.(instances := s.instances[i := s.instances[i].(status := status)])
  }

  function PutJoin(s: State, i: nat, join: string, j: JoinState): State {
    s.(joins := s.joins[(i, join) := j])
  }

  /** CreateJoinState keeps a state that exists. */
  function NewJoin(s: State, i: nat, join: string, waitFor: seq<string>, strategy: JoinStrategy): State {
    if (i, join) in s.joins then s else PutJoin(s, i, join, Fresh(waitFor, strategy))
  }

  function Bury(s: State, i: nat, row: nat): State {
    s.(dead := s.dead[s.nextDead := DeadLetter(i, row)], nextDead := s.nextDead + 1)
  }

  function Note(s: State, e: Entry): State {
    s.(log := s.log + [e])
  }

  predicate IsRowOf(s: State, i: nat, id: nat) {
    id in s.rows && s.rows[id].instance == i
  }

  predicate InDlq(s: State, i: nat) {
    i in s.instances && s.instances[i].status == Dlq
  }

  predicate HasRow(s: State, i: nat, name: string) {
    exists id :: id in s.rows && s.rows[id].instance == i && s.rows[id].name == name
  }

  predicate HasStatus(s: State, i: nat, wanted: set<StepStatus>) {
    exists id :: id in s.rows && s.rows[id].instance == i && s.rows[id].status in wanted
  }

  predicate Unfinished(s: State, i: nat) {
    HasStatus(s, i, {Pending, StepStatus.Running, Paused})
  }

  predicate Active(status: StepStatus) {
    status == Pending || status == StepStatus.Running
  }

  /** The instance's latest row for each step name, as the engine collects them. */
  function StepMap(s: State, i: nat, bound: nat): (r: map<string, nat>)
    ensures forall n :: n in r ==> IsRowOf(s, i, r[n]) && s.rows[r[n]].name == n && r[n] < bound
    ensures forall id: nat :: IsRowOf(s, i, id) && id < bound ==> s.rows[id].name in r && id <= r[s.rows[id].name]
  {
    if bound == 0 then map[]
    else
      var m := StepMap(s, i, bound - 1);
      if IsRowOf(s, i, bound - 1) then m[s.rows[bound - 1].name := bound - 1] else m
  }

  function Statuses(s: State, i: nat): map<string, StepStatus> {
    var m := StepMap(s, i, s.nextRow);
    map n | n in m :: s.rows[m[n]].status
  }

  /** The last row below `bound` that passes the test. */
  function LastCompleted(s: State, i: nat, bound: nat): (r: Option<nat>)
    ensures r.Some? ==> IsRowOf(s, i, r.value) && s.rows[r.value].status == StepStatus.Completed && r.value < bound
  {
    if bound == 0 then None
    else if IsRowOf(s, i, bound - 1) && s.rows[bound - 1].status == StepStatus.Completed then Some(bound - 1)
    else LastCompleted(s, i, bound - 1)
  }

  function LastSavePoint(s: State, i: nat, bound: nat): (r: Option<nat>)
    ensures r.Some? ==> IsRowOf(s, i, r.value) && s.rows[r.value].kind == SavePoint && r.value < bound
  {
    if bound == 0 then None
    else if IsRowOf(s, i, bound - 1) && s.rows[bound - 1].kind == SavePoint then Some(bound - 1)
    else LastSavePoint(s, i, bound - 1)
  }

  /** The status of the first row with that name. */
  function FirstStatus(s: State, i: nat, name: string, bound: nat): Option<StepStatus> {
    if bound == 0 then None
    else
      var earlier := FirstStatus(s, i, name, bound - 1);
      if earlier.Some? then earlier
      else if IsRowOf(s, i, bound - 1) && s.rows[bound - 1].name == name then Some(s.rows[bound - 1].status)
      else None
  }

  // ---- Looking things up in a definition ----

  /** findForkStepForParallelStep: the first fork, in iteration order, with a branch that starts at `name`. */
  function ForkOf(steps: Steps, order: seq<string>, name: string): (r: string)
    ensures r != "" ==> r in steps && steps[r].kind == Fork && name in steps[r].parallel
  {
    if order == [] then ""
    else if order[0] in steps && steps[order[0]].kind == Fork && name in steps[order[0]].parallel then order[0]
    else ForkOf(steps, order[1..], name)
  }

  /** The steps met on the way up along Prev, not further than the root. */
  function Climb(steps: Steps, name: string, visited: set<string> := {}): (r: seq<string>)
    ensures forall n :: n in r ==> n in steps
    decreases steps.Keys - visited
  {
    if name == "" || name == ROOT || name in visited || name !in steps then []
    else [name] + Climb(steps, steps[name].prev, visited + {name})
  }

  function FirstOfKind(steps: Steps, names: seq<string>, kind: StepType): (r: string)
    ensures r != "" ==> r in names && r in steps && steps[r].kind == kind
  {
    if names == [] then ""
    else if names[0] in steps && steps[names[0]].kind == kind then names[0]
    else FirstOfKind(steps, names[1..], kind)
  }

  /** findConditionStepInBranch */
  function ConditionAbove(steps: Steps, d: StepDef): string {
    FirstOfKind(steps, Climb(steps, d.prev), Condition)
  }

  /** The nearest fork at or above one of the names. */
  function ForkAbove(steps: Steps, order: seq<string>, names: seq<string>): (r: string)
    ensures r != "" ==> r in steps && steps[r].kind == Fork
  {
    if names == [] then ""
    else if names[0] in steps && steps[names[0]].kind == Fork then names[0]
    else if ForkOf(steps, order, names[0]) != "" then ForkOf(steps, order, names[0])
    else ForkAbove(steps, order, names[1..])
  }

  function ForkAround(steps: Steps, order: seq<string>, name: string): (r: string)
    ensures r != "" ==> r in steps && steps[r].kind == Fork
  {
    if ForkOf(steps, order, name) != "" then ForkOf(steps, order, name)
    else if name !in steps then ""
    else ForkAbove(steps, order, Climb(steps, steps[name].prev))
  }

  /** isTerminalStepInForkBranch */
  predicate TerminalInFork(steps: Steps, order: seq<string>, name: string) {
    name in steps && steps[name].kind != Join && steps[name].next == [] && ForkAround(steps, order, name) != ""
  }

  /** findJoinStepForForkBranch */
  function JoinFor(steps: Steps, order: seq<string>, name: string): (r: string)
    ensures r != "" ==> r in steps && steps[r].kind == Join
  {
    var fork := ForkAround(steps, order, name);
    if fork == "" then "" else FirstOfKind(steps, steps[fork].next, Join)
  }

  /** isStepInParallelBranch */
  ghost predicate InBranch(steps: Steps, name: string, fork: string)
    requires fork in steps
  {
    exists p :: p in steps[fork].parallel &&
      (name == p || (name != "" && p in steps && Reaches(Back(steps), name, p)))
  }

  function ForkAwaited(s: State, i: nat, steps: Steps, order: seq<string>, waitFor: seq<string>): (r: string)
    ensures r != "" ==> r in steps && steps[r].kind == Fork
  {
    if waitFor == [] then ""
    else if HasRow(s, i, waitFor[0]) && ForkOf(steps, order, waitFor[0]) != "" then ForkOf(steps, order, waitFor[0])
    else ForkAwaited(s, i, steps, order, waitFor[1..])
  }

  /** hasPendingStepsInParallelBranches */
  ghost predicate BranchesPending(s: State, i: nat, steps: Steps, order: seq<string>, waitFor: seq<string>) {
    var fork := ForkAwaited(s, i, steps, order, waitFor);
    fork != "" && exists id :: IsRowOf(s, i, id) && Active(s.rows[id].status)
                               && s.rows[id].name !in waitFor && InBranch(steps, s.rows[id].name, fork)
  }

  // ---- Joins ----

  function CreateJoinRow(s: State, i: nat, join: string): State {
    if InDlq(s, i) then CreateRow(s, Row(i, join, Join, Paused, 0, 0, 0))
    else Enqueue(CreateRow(s, Row(i, join, Join, Pending, 0, 0, 0)), i, s.nextRow)
  }

  /** Report a step to one join, and create the join's row when that makes it ready. */
  ghost function NotifyOne(s: State, i: nat, steps: Steps, order: seq<string>, join: string, name: string,
        success: bool): (State, bool)
    requires join in steps
  {
    if (i, join) !in s.joins then (s, false)
    else
      var updated := Update(s.joins[(i, join)], name, success);
      var s1 := PutJoin(s, i, join, updated);
      if !updated.ready then (s1, true)
      else if BranchesPending(s1, i, steps, order, steps[join].waitFor) then
        (PutJoin(s1, i, join, Update(updated, name, success)), true)
      else if HasRow(s1, i, join) then (s1, true)
      else (CreateJoinRow(s1, i, join), true)
  }

  predicate Waits(s: State, i: nat, steps: Steps, join: string, name: string) {
    && join in steps && steps[join].kind == Join
    && (((i, join) in s.joins && name in s.joins[(i, join)].waitingFor) || name in steps[join].waitFor)
  }

  /** notifyJoinSteps, over the names that are left of an iteration; false is an error. */
  ghost function Notify(s: State, i: nat, steps: Steps, order: seq<string>, rest: seq<string>, name: string,
        success: bool): (State, bool)
    decreases rest
  {
    if rest == [] then (s, true)
    else if !Waits(s, i, steps, rest[0], name) then Notify(s, i, steps, order, rest[1..], name, success)
    else
      var one := NotifyOne(s, i, steps, order, rest[0], name, success);
      if !one.1 then one else Notify(one.0, i, steps, order, rest[1..], name, success)
  }

  /** A step below a condition takes the place of the condition's placeholder in the wait list. */
  ghost function TakePlaceholder(s: State, i: nat, steps: Steps, order: seq<string>, condition: string,
        name: string, success: bool): State {
    var join := JoinFor(steps, order, name);
    if join == "" then s
    else
      var s1 := if (i, join) !in s.joins then NewJoin(s, i, join, [name], All)
                else PutJoin(s, i, join, ReplaceWait(s.joins[(i, join)], VirtualName(condition), name,
                                                     FirstStatus(s, i, name, s.nextRow)));
      NotifyOne(s1, i, steps, order, join, name, success).0
  }

  /** A step that turns out to end a branch is added to the wait list. */
  function AddTerminal(s: State, i: nat, steps: Steps, order: seq<string>, name: string): State {
    var join := JoinFor(steps, order, name);
    if join == "" then s
    else if (i, join) !in s.joins then NewJoin(s, i, join, [name], steps[join].strategy)
    else
      var j := s.joins[(i, join)];
      if name in j.waitingFor || exists w :: w in j.waitingFor && IsVirtual(w) then s
      else PutJoin(s, i, join, AddWait(j, name))
  }

  // ---- Rolling back ----

  /** rollbackStep, on the row as it was read before the traversal. */
  function RollbackRow(s: State, i: nat, steps: Steps, id: nat, row: Row): State
    requires row.name in steps
  {
    var onFailure := steps[row.name].onFailure;
    if onFailure !in steps then SetStatus(s, id, RolledBack)
    else if row.comp >= steps[onFailure].maxRetries then Bury(SetStatus(s, id, StepStatus.Failed), i, id)
    else Enqueue(SetCompensation(s, id, row.comp + 1), i, id)
  }

  /** The rollbackStep calls of a traversal, on the rows collected `before` it. */
  function RollbackRows(s: State, i: nat, steps: Steps, before: State, calls: seq<string>): State
    decreases calls
  {
    if calls == [] then s
    else
      var rows := StepMap(before, i, before.nextRow);
      var s1 := if calls[0] in rows && calls[0] in steps
                then RollbackRow(s, i, steps, rows[calls[0]], before.rows[rows[calls[0]]]) else s;
      RollbackRows(s1, i, steps, before, calls[1..])
  }

  /** Roll back from a step to a target; false when the traversal met an unknown step. */
  function RollbackFrom(s: State, i: nat, steps: Steps, name: string, target: string): (State, bool) {
    var walk := Scene(steps, Statuses(s, i), target).Chain(name, false, {});
    (RollbackRows(s, i, steps, s, walk.calls), walk.ok)
  }

  // ---- Success ----

  /** Create and enqueue the steps that follow; stops at an unknown step. */
  function EnqueueNext(s: State, i: nat, steps: Steps, names: seq<string>, skipJoins: bool): (State, bool)
    decreases names
  {
    if names == [] then (s, true)
    else if names[0] !in steps then (s, false)
    else if skipJoins && steps[names[0]].kind == Join then EnqueueNext(s, i, steps, names[1..], skipJoins)
    else if InDlq(s, i) then EnqueueNext(s, i, steps, names[1..], skipJoins)
    else
      var d := steps[names[0]];
      var s1 := Enqueue(CreateRow(s, Row(i, names[0], d.kind, Pending, 0, d.maxRetries, 0)), i, s.nextRow);
      EnqueueNext(s1, i, steps, names[1..], skipJoins)
  }

  /** Whether completeWorkflow compensates the row: completed, and created after the last save point. */
  predicate LateCompletion(s: State, i: nat, after: Option<nat>, id: nat) {
    IsRowOf(s, i, id) && s.rows[id].status == StepStatus.Completed && (after.None? || after.value < id)
  }

  /** enqueueCompletedStepsForRollback, the latest row first. */
  function CompensateCompleted(s: State, i: nat, steps: Steps, after: Option<nat>, bound: nat): State
    decreases bound
  {
    if bound == 0 then s
    else
      var id := bound - 1;
      var s1 := if !LateCompletion(s, i, after, id) then s
                else if s.rows[id].name in steps && steps[s.rows[id].name].onFailure != "" then
                  Enqueue(SetCompensation(s, id, 0), i, id)
                else SetStatus(s, id, RolledBack);
      CompensateCompleted(s1, i, steps, after, id)
  }

  function CompleteWorkflow(s: State, i: nat, steps: Steps): State {
    if HasStatus(s, i, {StepStatus.Failed, RolledBack}) then
      var s1 := CompensateCompleted(s, i, steps, LastSavePoint(s, i, s.nextRow), s.nextRow);
      if HasStatus(s1, i, {Compensation}) then s1 else SetInstance(s1, i, WorkflowStatus.Failed)
    else SetInstance(s, i, WorkflowStatus.Completed)
  }

  /** What the join around a step hears of it before the general notification. */
  ghost function PrepareJoins(s: State, i: nat, steps: Steps, order: seq<string>, name: string, success: bool): State
    requires name in steps
  {
    var condition := ConditionAbove(steps, steps[name]);
    if condition != "" then TakePlaceholder(s, i, steps, order, condition, name, success)
    else if success && TerminalInFork(steps, order, name) then AddTerminal(s, i, steps, order, name)
    else s
  }

  /** Everything the joins hear of a step that has ended; false is an error. */
  ghost function Tell(s: State, i: nat, steps: Steps, order: seq<string>, name: string, success: bool): (State, bool)
    requires name in steps
  {
    Notify(PrepareJoins(s, i, steps, order, name, success), i, steps, order, order, name, success)
  }

  /** handleStepSuccess */
  ghost function HandleSuccess(s: State, i: nat, steps: Steps, id: nat, name: string, order: seq<string>,
        next: bool): State
    requires name in steps
  {
    var d := steps[name];
    var told := Tell(Note(SetStatus(s, id, StepStatus.Completed), Ended(id, true)), i, steps, order, name, true);
    if !told.1 then told.0
    else if (next && d.next == []) || (!next && d.els == "") then
      if Unfinished(told.0, i) then told.0 else CompleteWorkflow(told.0, i, steps)
    else if next then EnqueueNext(told.0, i, steps, d.next, true).0
    else EnqueueNext(told.0, i, steps, [d.els], false).0
  }

  // ---- Failure ----

  predicate Retries(d: StepDef, row: Row) {
    (row.retry == 0 && d.maxRetries > 0) || (row.retry > 0 && row.retry < row.maxRetries && !d.noIdempotent)
  }

  /** PauseActiveStepsAndClearQueue */
  function Freeze(s: State, i: nat): State {
    s.(rows := map id | id in s.rows ::
                 if s.rows[id].instance == i && s.rows[id].status == StepStatus.Running
                 then s.rows[id].(status := Paused) else s.rows[id],
       queue := map q | q in s.queue && s.queue[q].instance != i :: s.queue[q])
  }

  function SkipRows(s: State, skipped: set<nat>): State {
    s.(rows := map id | id in s.rows :: if id in skipped then s.rows[id].(status := Skipped) else s.rows[id])
  }

  /** stopParallelBranchesInFork: active steps in the branches of the fork whose branch starts at `name`. */
  ghost function Siblings(s: State, i: nat, steps: Steps, order: seq<string>, name: string): set<nat> {
    var fork := ForkOf(steps, order, name);
    if fork == "" then {}
    else set id | id in s.rows && s.rows[id].instance == i && s.rows[id].name != name
                  && Active(s.rows[id].status) && InBranch(steps, s.rows[id].name, fork)
  }

  /** Stop the parallel branches, then roll back to the nearest save point. */
  ghost function Unwind(s: State, i: nat, steps: Steps, name: string, c: Choice): State {
    RollbackFrom(SkipRows(s, Siblings(s, i, steps, c.order, name)), i, steps, name,
                 NearestSavePoint(steps, name, c.strays)).0
  }

  /** The final failure of a step when dead letters are off. */
  ghost function FailStep(s: State, i: nat, steps: Steps, id: nat, name: string, c: Choice): State
    requires name in steps
  {
    var told := Tell(Note(SetStatus(s, id, StepStatus.Failed), Ended(id, false)), i, steps, c.order, name, false);
    if !told.1 then told.0
    else SetInstance(Unwind(told.0, i, steps, name, c), i, WorkflowStatus.Failed)
  }

  /** The final failure of a step when dead letters are on: the instance is frozen. */
  ghost function BuryStep(s: State, i: nat, steps: Steps, id: nat, name: string, c: Choice): State {
    var s1 := Note(SetStatus(s, id, Paused), Ended(id, false));
    var told := Notify(s1, i, steps, c.order, c.order, name, false);
    if !told.1 then told.0 else SetInstance(Freeze(Bury(told.0, i, id), i), i, Dlq)
  }

  /** handleStepFailure, with the row as it was when the step was picked. */
  ghost function HandleFailure(s: State, i: nat, def: Definition, id: nat, row: Row, c: Choice): State
    requires row.name in def.steps
  {
    if Retries(def.steps[row.name], row) then Enqueue(SetStatus(s, id, StepStatus.Failed), i, id)
    else if def.dlqEnabled then BuryStep(s, i, def.steps, id, row.name, c)
    else FailStep(s, i, def.steps, id, row.name, c)
  }

  // ---- Cancellation ----

  function ActiveRows(s: State, i: nat): set<nat> {
    set id | id in s.rows && s.rows[id].instance == i && Active(s.rows[id].status)
  }

  /** Back to the start from the last completed row. */
  function UndoAll(s: State, i: nat, steps: Steps): State {
    var last := LastCompleted(s, i, s.nextRow);
    if last.None? then SetInstance(s, i, Cancelled)
    else
      var back := RollbackFrom(SetInstance(s, i, Cancelling), i, steps, s.rows[last.value].name, ROOT);
      SetInstance(back.0, i, if back.1 then Cancelled else WorkflowStatus.Failed)
  }

  function DropRequest(s: State, i: nat): State {
    s.(cancels := s.cancels - {i})
  }

  /** handleCancellation */
  function HandleCancellation(s: State, i: nat, steps: Steps, kind: CancelKind): State {
    var s1 := SkipRows(s, ActiveRows(s, i));
    DropRequest(if kind == Abort then SetInstance(s1, i, Aborted) else UndoAll(s1, i, steps), i)
  }

  // ---- One step ----

  function CreateBranches(s: State, i: nat, steps: Steps, names: seq<string>): (State, bool)
    decreases names
  {
    if names == [] then (s, true)
    else if names[0] !in steps then (s, false)
    else
      var d := steps[names[0]];
      var s1 := Enqueue(CreateRow(s, Row(i, names[0], d.kind, Pending, 0, d.maxRetries, 0)), i, s.nextRow);
      CreateBranches(s1, i, steps, names[1..])
  }

  function CreateJoins(s: State, i: nat, steps: Steps, d: StepDef, names: seq<string>): State
    decreases names
  {
    if names == [] then s
    else if names[0] in steps && steps[names[0]].kind == Join then
      var join := steps[names[0]];
      CreateJoins(NewJoin(s, i, names[0], if join.waitFor == [] then d.parallel else join.waitFor, join.strategy),
                  i, steps, d, names[1..])
    else CreateJoins(s, i, steps, d, names[1..])
  }

  function ExecuteFork(s: State, i: nat, steps: Steps, d: StepDef): (State, bool) {
    var branches := CreateBranches(s, i, steps, d.parallel);
    if !branches.1 then branches else (CreateJoins(branches.0, i, steps, d, d.next), true)
  }

  predicate JoinSucceeds(s: State, i: nat, join: string) {
    && (i, join) in s.joins
    && var j := s.joins[(i, join)];
    && j.ready
    && !(j.failed != [] && j.strategy == All)
  }

  /** The work of a step by its type: the new state and whether there was no error. */
  function Work(s: State, i: nat, steps: Steps, id: nat, name: string, c: Choice): (State, bool)
    requires name in steps
  {
    var d := steps[name];
    match d.kind
    case Task => (Note(s, Ran(id)), c.succeeds)
    case Fork => ExecuteFork(s, i, steps, d)
    case Parallel => ExecuteFork(s, i, steps, d)
    case Join => (s, JoinSucceeds(s, i, name))
    case SavePoint => (s, true)
    case Condition => (s, c.succeeds)
    case Human => (s, false)
  }

  /** Not yet in a status that CancelWorkflow refuses. */
  predicate Cancellable(status: WorkflowStatus) {
    status == WorkflowStatus.Running || status == Cancelling || status == Dlq
  }

  /** executeStep */
  ghost function ExecuteStep(s: State, i: nat, def: Definition, id: nat, row: Row, c: Choice): State
    requires i in s.instances && row.name in def.steps
  {
    if i in s.cancels then HandleCancellation(s, i, def.steps, s.cancels[i])
    else
      var work := Work(SetStatus(s, id, StepStatus.Running), i, def.steps, id, row.name, c);
      if c.late.Some? && Cancellable(s.instances[i].status) then HandleCancellation(work.0, i, def.steps, c.late.value)
      else if !work.1 then HandleFailure(work.0, i, def, id, row, c)
      else HandleSuccess(work.0, i, def.steps, id, row.name, c.order,
                         def.steps[row.name].kind == Condition ==> c.takesNext)
  }

  /** After the last compensation, the instance has failed. */
  function SettleRollback(s: State, i: nat): State {
    if !Unfinished(s, i) && !HasStatus(s, i, {Compensation}) && HasStatus(s, i, {StepStatus.Failed, RolledBack})
    then SetInstance(s, i, WorkflowStatus.Failed) else s
  }

  /** executeCompensationStep with a handler, when the step has a compensation. */
  function ExecuteCompensation(s: State, i: nat, steps: Steps, id: nat, row: Row, c: Choice): State
    requires row.name in steps
  {
    var onFailure := steps[row.name].onFailure;
    if onFailure !in steps then SetStatus(s, id, RolledBack)
    else
      var s1 := Note(s, Compensated(id));
      if c.succeeds then SettleRollback(SetStatus(s1, id, RolledBack), i)
      else if row.comp < steps[onFailure].maxRetries then Enqueue(SetCompensation(s1, id, row.comp + 1), i, id)
      else SetStatus(s1, id, StepStatus.Failed)
  }

  predicate DefinedFor(s: State, i: nat) {
    i in s.instances && s.instances[i].workflow in s.defs
  }

  function DefOf(s: State, i: nat): Definition
    requires DefinedFor(s, i)
  {
    s.defs[s.instances[i].workflow]
  }

  /** Statuses whose queue items are dropped. */
  predicate Dropped(status: StepStatus) {
    status == Skipped || status == Paused || status == RolledBack
  }

  /** The handler that a row needs is not registered with this worker, so the item is given back. */
  predicate LacksHandler(steps: Steps, row: Row, c: Choice)
    requires row.name in steps
  {
    !c.hasHandler && if row.status == Compensation then steps[row.name].onFailure in steps else row.kind == Task
  }

  /** What an ExecuteNext does with the row of the item it has picked and claimed. */
  ghost function Handle(s: State, i: nat, def: Definition, id: nat, row: Row, c: Choice): State
    requires i in s.instances && row.name in def.steps
  {
    if row.status == Compensation then ExecuteCompensation(s, i, def.steps, id, row, c)
    else ExecuteStep(s, i, def, id, row, c)
  }

  /** The picked item belongs to a row of an instance that is not in the dead-letter state. */
  predicate Found(s: State, q: nat) {
    && q in s.queue
    && s.queue[q].instance in s.instances && !InDlq(s, s.queue[q].instance)
    && IsRowOf(s, s.queue[q].instance, s.queue[q].row)
  }

  /** The picked item leads to a step of a known definition that is not to be dropped. */
  predicate Runnable(s: State, q: nat) {
    && Found(s, q)
    && !Dropped(s.rows[s.queue[q].row].status)
    && DefinedFor(s, s.queue[q].instance)
    && s.rows[s.queue[q].row].name in DefOf(s, s.queue[q].instance).steps
  }

  /**
   ExecuteNext when the queue hands out item `q`. The item is claimed meanwhile, so it is
   removed first; it stays only when the worker lacks the handler. The drop of a skipped,
   paused or rolled-back step removes the queue item that carries the row's number.
   */
  ghost function ExecuteNext(s: State, q: nat, c: Choice): State {
    if q !in s.queue then s
    else
      var claimed := RemoveItem(s, q);
      var i, id := s.queue[q].instance, s.queue[q].row;
      if !Found(s, q) then claimed
      else if Dropped(s.rows[id].status) then RemoveItem(claimed, id)
      else if !Runnable(s, q) then claimed
      else if LacksHandler(DefOf(s, i).steps, s.rows[id], c) then s
      else Handle(claimed, i, DefOf(s, i), id, s.rows[id], c)
  }

  // ---- The other operations ----

  /** Start; an invalid definition is refused. */
  ghost function StartWorkflow(s: State, workflow: string): State {
    if workflow !in s.defs || s.defs[workflow].start !in s.defs[workflow].steps || !WellFormed(s.defs[workflow]) then s
    else
      var i := s.nextInstance;
      var s1 := s.(instances := s.instances[i := Instance(workflow, WorkflowStatus.Running)], nextInstance := i + 1);
      EnqueueNext(s1, i, s.defs[workflow].steps, [s.defs[workflow].start], false).0
  }

  /** CancelWorkflow and AbortWorkflow; the first request stays. */
  function RequestCancel(s: State, i: nat, kind: CancelKind): State {
    if i !in s.instances || !Cancellable(s.instances[i].status) || i in s.cancels then s
    else s.(cancels := s.cancels[i := kind])
  }

  function Awakened(rows: map<nat, Row>, i: nat): map<nat, Row> {
    map id | id in rows ::
      if rows[id].instance == i && rows[id].kind == Join && rows[id].status == Paused
      then rows[id].(status := Pending) else rows[id]
  }

  /** RequeueDeadLetter: the row and the paused joins become pending again, nothing is enqueued. */
  function Requeue(s: State, dead: nat): State {
    if dead !in s.dead || s.dead[dead].row !in s.rows then s
    else
      var letter := s.dead[dead];
      var rows := s.rows[letter.row := s.rows[letter.row].(status := Pending, retry := 0, comp := 0)];
      var s1 := s.(rows := Awakened(rows, letter.instance), dead := s.dead - {dead});
      if letter.instance in s.instances && s.instances[letter.instance].status in {WorkflowStatus.Failed, Dlq}
      then SetInstance(s1, letter.instance, WorkflowStatus.Running) else s1
  }

  // ---- Runs ----

  datatype Event =
    | Start(workflow: string)
    | Execute(item: nat, choice: Choice)
    | RequestStop(instance: nat, kind: CancelKind)
    | RequeueLetter(dead: nat)

  ghost function Step(s: State, e: Event): State {
    match e
    case Start(workflow) => StartWorkflow(s, workflow)
    case Execute(q, c) => ExecuteNext(s, q, c)
    case RequestStop(i, kind) => RequestCancel(s, i, kind)
    case RequeueLetter(dead) => Requeue(s, dead)
  }

  ghost function After(s: State, events: seq<Event>): State
    decreases events
  {
    if events == [] then s else After(Step(s, events[0]), events[1..])
  }
}
