/**
 What a rollback does to the rows of an instance: exactly the steps it concerns are rolled
 back, sent to their compensation or given up on, each of them once and no step before one
 below it, and nothing else is touched.
 */
module EngineUndo {
  import opened Definitions
  import opened Graphs
  import opened Links
  import opened Searches
  import opened Rollback
  import opened JoinStates
  import opened Validator
  import opened Engine
  import opened EngineFrame
  import opened EngineEffects
  import RollbackExact

  /** The instance's last row of its name. */
  ghost predicate LatestRow(s: State, i: nat, k: nat) {
    IsRowOf(s, i, k) && forall m: nat :: IsRowOf(s, i, m) && s.rows[m].name == s.rows[k].name ==> m <= k
  }

  /** The status of each name is that of its last row. */
  ghost predicate LatestStatuses(s: State, i: nat, status: map<string, StepStatus>) {
    && (forall k: nat :: LatestRow(s, i, k) ==> s.rows[k].name in status && status[s.rows[k].name] == s.rows[k].status)
    && (forall n :: n in status ==> HasRow(s, i, n))
  }

  /** A row rolled back: there is no compensation, its retries are used up, or it is sent there. */
  predicate Undone(s: State, v: State, i: nat, steps: Steps, k: nat)
    requires k in s.rows && k in v.rows && s.rows[k].name in steps
  {
    var row, undo := s.rows[k], steps[s.rows[k].name].onFailure;
    if undo !in steps then
      v.rows[k] == row.(status := RolledBack) && NewItems(s, v, k) == {} && NewLetters(s, v, k) == {}
    else if row.comp >= steps[undo].maxRetries then
      v.rows[k] == row.(status := StepStatus.Failed, retry := row.retry + 1) && NewItems(s, v, k) == {}
      && |NewLetters(s, v, k)| == 1
    else
      v.rows[k] == row.(status := Compensation, comp := row.comp + 1) && |NewItems(s, v, k)| == 1
      && NewLetters(s, v, k) == {}
  }

  /** Of two rows with new items, the first one is not of a step above the other. */
  ghost predicate BelowFirst(s: State, v: State, steps: Steps) {
    forall q, r :: q in v.queue && r in v.queue && q !in s.queue && r !in s.queue && q < r ==>
      && v.queue[q].row in s.rows && v.queue[r].row in s.rows
      && !Reaches(Flow(steps), s.rows[v.queue[q].row].name, s.rows[v.queue[r].row].name)
  }

  /** A row that a rollback from `name` to `target` is about. */
  ghost predicate IsUndone(s: State, i: nat, scene: Scene, name: string, k: nat) {
    && LatestRow(s, i, k) && s.rows[k].name in scene.steps
    && (s.rows[k].status == StepStatus.Completed || s.rows[k].status == StepStatus.Failed)
    && RollbackExact.Concerned(scene, name, s.rows[k].name)
  }

  ghost predicate RollsBackIn(s: State, v: State, i: nat, scene: Scene, name: string) {
    && Reworked(s, v, i) && BelowFirst(s, v, scene.steps)
    && forall k :: k in s.rows ==>
         if IsUndone(s, i, scene, name, k) then Undone(s, v, i, scene.steps, k) else LeftAlone(s, v, k)
  }

  /** The rollback from `name` to `target`, over all rows of the store. */
  ghost predicate RollsBack(s: State, v: State, i: nat, steps: Steps, name: string, target: string) {
    exists status :: LatestStatuses(s, i, status) && RollsBackIn(s, v, i, Scene(steps, status, target), name)
  }

  // ---- One row ----

  lemma UndoneIs(s: State, i: nat, steps: Steps, id: nat)
    requires Counted(s) && id in s.rows && s.rows[id].name in steps
    ensures var s1 := RollbackRow(s, i, steps, id, s.rows[id]);
            OneReworked(s, s1, i, id) && Undone(s, s1, i, steps, id) && Counted(s1)
  {
    hide OneReworked, Enqueue, Bury, NewItems, NewLetters;
    var row := s.rows[id];
    RowChanged(s, i, id, row.(status := RolledBack));
    RowBuried(s, i, id, row.(status := StepStatus.Failed, retry := row.retry + 1));
    RowRequeued(s, i, id, row.(status := Compensation, comp := row.comp + 1));
    assert Counted(RollbackRow(s, i, steps, id, row)) by {
      OneIsCounted(s, RollbackRow(s, i, steps, id, row), i, id);
    }
  }

  // ---- The rows of a traversal ----

  ghost predicate CalledFor(rows: map<string, nat>, calls: seq<string>, k: nat) {
    exists c :: c in calls && c in rows && rows[c] == k
  }

  ghost predicate CallsUndone(s: State, v: State, i: nat, steps: Steps, rows: map<string, nat>, calls: seq<string>) {
    && Reworked(s, v, i) && NumberedOn(s, v) && BelowFirst(s, v, steps)
    && (forall q :: q in v.queue && q !in s.queue ==> v.queue[q].row in s.rows && s.rows[v.queue[q].row].name in calls)
    && forall k :: k in s.rows ==>
         if CalledFor(rows, calls, k) then s.rows[k].name in steps && Undone(s, v, i, steps, k) else LeftAlone(s, v, k)
  }

  lemma {:induction false} RollbackRowsIs(s: State, i: nat, scene: Scene, before: State, calls: seq<string>)
    requires Counted(s) && Untouched(s, i, scene.steps, before, calls) && RollbackExact.DescendantsFirst(scene, calls)
    ensures CallsUndone(s, RollbackRows(s, i, scene.steps, before, calls), i, scene.steps,
                        StepMap(before, i, before.nextRow), calls)
    decreases calls
  {
    hide RollbackRow, Undone, LeftAlone, Reworked, NumberedOn, BelowFirst, Counted, OneReworked;
    hide RollbackExact.DescendantsFirst, CallsUndone, StepMap;
    var rows := StepMap(before, i, before.nextRow);
    if calls == [] {
      NothingCalled(s, i, scene.steps, rows);
    } else {
      var id := rows[calls[0]];
      assert calls[0] in calls;
      var s1 := RollbackRow(s, i, scene.steps, id, before.rows[id]);
      RowNamed(before, i, calls[0]);
      UndoneIs(s, i, scene.steps, id);
      OthersStay(s, s1, i, id);
      UntouchedNext(s, s1, i, scene.steps, before, calls);
      RestDescendantsFirst(scene, calls);
      RollbackRowsIs(s1, i, scene, before, calls[1..]);
      FirstThenRest(s, s1, RollbackRows(s1, i, scene.steps, before, calls[1..]), i, scene, before, calls);
    }
  }

  lemma {:induction false} RowNamed(before: State, i: nat, c: string)
    requires c in StepMap(before, i, before.nextRow)
    ensures var k := StepMap(before, i, before.nextRow)[c]; k in before.rows && before.rows[k].name == c
  {
  }

  lemma NothingCalled(s: State, i: nat, steps: Steps, rows: map<string, nat>)
    requires Counted(s)
    ensures CallsUndone(s, s, i, steps, rows, [])
  {
  }

  lemma OthersStay(s: State, s1: State, i: nat, id: nat)
    requires OneReworked(s, s1, i, id)
    ensures s1.rows.Keys == s.rows.Keys && Extends(s, s1)
    ensures forall k :: k in s.rows && k != id ==> k in s1.rows && s1.rows[k] == s.rows[k]
  {
  }

  lemma RestDescendantsFirst(scene: Scene, calls: seq<string>)
    requires RollbackExact.DescendantsFirst(scene, calls) && calls != []
    ensures RollbackExact.DescendantsFirst(scene, calls[1..])
    ensures forall c :: c in calls[1..] ==> !Reaches(Flow(scene.steps), calls[0], c)
  {
    hide Reaches;
    var rest := calls[1..];
    assert forall j :: 0 <= j < |rest| ==> rest[j] == calls[j + 1];
    forall c | c in rest
      ensures !Reaches(Flow(scene.steps), calls[0], c)
    {
      var j :| 0 <= j < |rest| && rest[j] == c;
      assert !RollbackExact.Above(scene, calls[0], calls[j + 1]);
    }
    forall a, b | 0 <= a < b < |rest|
      ensures !RollbackExact.Above(scene, rest[a], rest[b])
    {
      assert !RollbackExact.Above(scene, calls[a + 1], calls[b + 1]);
    }
  }

  lemma {:induction false} FirstThenRest(s: State, s1: State, v: State, i: nat, scene: Scene, before: State,
        calls: seq<string>)
    requires calls != [] && Untouched(s, i, scene.steps, before, calls)
    requires var rows := StepMap(before, i, before.nextRow);
             && OneReworked(s, s1, i, rows[calls[0]]) && Undone(s, s1, i, scene.steps, rows[calls[0]])
             && CallsUndone(s1, v, i, scene.steps, rows, calls[1..])
    requires forall c :: c in calls[1..] ==> !Reaches(Flow(scene.steps), calls[0], c)
    ensures CallsUndone(s, v, i, scene.steps, StepMap(before, i, before.nextRow), calls)
  {
    hide Undone, LeftAlone, Reworked, NumberedOn, BelowFirst, StepMap, Flow, Reaches, Untouched, CalledFor;
    var rows := StepMap(before, i, before.nextRow);
    FirstCall(s, i, scene.steps, before, calls);
    var id := rows[calls[0]];
    ReworkedTwice(s, s1, v, i);
    ReworkedExtends(s, s1, i);
    ReworkedExtends(s1, v, i);
    OthersStay(s, s1, i, id);
    UndoneName(s, s1, i, scene.steps, id);
    OrderTwice(s, s1, v, scene.steps, id, calls[1..]);
    forall k | k in s.rows
      ensures k in v.rows
      ensures if CalledFor(rows, calls, k) then s.rows[k].name in scene.steps && Undone(s, v, i, scene.steps, k)
              else LeftAlone(s, v, k)
    {
      if k == id {
        UndoneOnce(s, s1, v, i, scene.steps, k);
      } else {
        AloneFirst(s, s1, v, i, scene.steps, k);
      }
    }
    NamesCalled(s, s1, v, calls, id);
  }

  lemma NamesCalled(s: State, s1: State, v: State, calls: seq<string>, id: nat)
    requires calls != [] && SameNames(s, s1) && s1.rows.Keys == s.rows.Keys && Extends(s, s1) && id in s.rows
    requires s.rows[id].name == calls[0]
    requires forall q :: q in s1.queue && q !in s.queue ==> s1.queue[q].row == id
    requires Extends(s1, v)
    requires forall q :: q in v.queue && q !in s1.queue ==>
               v.queue[q].row in s1.rows && s1.rows[v.queue[q].row].name in calls[1..]
    ensures forall q :: q in v.queue && q !in s.queue ==>
            v.queue[q].row in s.rows && s.rows[v.queue[q].row].name in calls
  {
    assert calls == [calls[0]] + calls[1..];
  }

  /** The first call is about its row, and the others are not. */
  lemma {:induction false} FirstCall(s: State, i: nat, steps: Steps, before: State, calls: seq<string>)
    requires calls != [] && Untouched(s, i, steps, before, calls)
    ensures var rows := StepMap(before, i, before.nextRow);
            && calls[0] in rows && rows[calls[0]] in s.rows && calls[0] in steps
            && s.rows[rows[calls[0]]].name == calls[0]
            && (forall k :: CalledFor(rows, calls, k) <==> k == rows[calls[0]] || CalledFor(rows, calls[1..], k))
            && !CalledFor(rows, calls[1..], rows[calls[0]])
  {
    var rows := StepMap(before, i, before.nextRow);
    assert calls[0] in calls;
    RowNamed(before, i, calls[0]);
    NotCalledAgain(s, i, steps, before, calls);
    assert calls == [calls[0]] + calls[1..];
  }

  ghost predicate SameNames(s: State, s1: State) {
    forall k :: k in s.rows ==> k in s1.rows && s1.rows[k].name == s.rows[k].name
  }

  lemma UndoneName(s: State, s1: State, i: nat, steps: Steps, id: nat)
    requires OneReworked(s, s1, i, id) && s.rows[id].name in steps && Undone(s, s1, i, steps, id)
    ensures SameNames(s, s1)
  {
    OthersStay(s, s1, i, id);
  }

  lemma {:induction false} NotCalledAgain(s: State, i: nat, steps: Steps, before: State, calls: seq<string>)
    requires calls != [] && Untouched(s, i, steps, before, calls)
    ensures var rows := StepMap(before, i, before.nextRow);
            CalledFor(rows, calls, rows[calls[0]]) && !CalledFor(rows, calls[1..], rows[calls[0]])
  {
    var rows := StepMap(before, i, before.nextRow);
    assert calls[0] in calls;
    forall c | c in calls[1..] && c in rows
      ensures rows[c] != rows[calls[0]]
    {
      RowNamed(before, i, c);
      RowNamed(before, i, calls[0]);
    }
  }

  lemma UndoneOnce(s: State, s1: State, v: State, i: nat, steps: Steps, k: nat)
    requires k in s.rows && k in s1.rows && k in v.rows && s.rows[k].name in steps
    requires Undone(s, s1, i, steps, k) && LeftAlone(s1, v, k) && Extends(s, s1) && Extends(s1, v)
    ensures Undone(s, v, i, steps, k)
  {
    hide NewItems, NewLetters;
    NewTwice(s, s1, v, k);
    assert NewItems(s, s1, k) + {} == NewItems(s, s1, k);
    assert NewLetters(s, s1, k) + {} == NewLetters(s, s1, k);
  }

  lemma AloneFirst(s: State, s1: State, v: State, i: nat, steps: Steps, k: nat)
    requires k in s.rows && k in s1.rows && k in v.rows && LeftAlone(s, s1, k)
    requires Extends(s, s1) && Extends(s1, v)
    ensures s.rows[k].name in steps && Undone(s1, v, i, steps, k) ==> Undone(s, v, i, steps, k)
    ensures LeftAlone(s1, v, k) ==> LeftAlone(s, v, k)
  {
    hide NewItems, NewLetters;
    NewTwice(s, s1, v, k);
    assert {} + NewItems(s1, v, k) == NewItems(s1, v, k);
    assert {} + NewLetters(s1, v, k) == NewLetters(s1, v, k);
  }

  lemma OrderTwice(s: State, s1: State, v: State, steps: Steps, id: nat, rest: seq<string>)
    requires NumberedOn(s, s1) && NumberedOn(s1, v) && BelowFirst(s1, v, steps) && Extends(s, s1) && Extends(s1, v)
    requires id in s.rows && SameNames(s, s1) && s1.rows.Keys == s.rows.Keys
    requires forall q :: q in s1.queue && q !in s.queue ==> q == s.nextItem && s1.queue[q].row == id
    requires forall q :: q in v.queue && q !in s1.queue ==>
             v.queue[q].row in s1.rows && s1.rows[v.queue[q].row].name in rest
    requires forall c :: c in rest ==> !Reaches(Flow(steps), s.rows[id].name, c)
    ensures NumberedOn(s, v) && BelowFirst(s, v, steps)
  {
    hide Reaches, Flow;
  }

  // ---- A whole rollback ----

  lemma {:induction false} StatusesAreLatest(s: State, i: nat)
    requires forall id :: id in s.rows ==> id < s.nextRow
    ensures LatestStatuses(s, i, Statuses(s, i))
    ensures var rows := StepMap(s, i, s.nextRow);
            && (forall n :: n in rows ==> LatestRow(s, i, rows[n]) && s.rows[rows[n]].name == n)
            && (forall k: nat :: LatestRow(s, i, k) ==> s.rows[k].name in rows && rows[s.rows[k].name] == k)
  {
    var rows := StepMap(s, i, s.nextRow);
    forall k: nat | LatestRow(s, i, k)
      ensures s.rows[k].name in rows && rows[s.rows[k].name] == k
    {
      assert k <= rows[s.rows[k].name];
    }
  }

  /** The traversal runs to its end and undoes exactly the rows it concerns. */
  lemma RollbackFromIs(s: State, i: nat, steps: Steps, depth: map<string, nat>, name: string, target: string)
    requires Issued(s) && Linked(steps, depth) && name in steps && name != target
    requires target == ROOT
             || (target in steps && steps[target].kind == SavePoint && Reaches(Flow(steps), target, name))
    ensures RollsBack(s, RollbackFrom(s, i, steps, name, target).0, i, steps, name, target)
    ensures RollbackFrom(s, i, steps, name, target).1
  {
    hide Linked, Undone, LeftAlone, Reworked, BelowFirst, RollbackRows, Reaches, LatestRow, LatestStatuses;
    hide RollbackExact.Concerned, RollbackExact.DescendantsFirst, Scene.Chain, StepMap, Statuses;
    var scene := Scene(steps, Statuses(s, i), target);
    var calls := scene.Chain(name, false, {}).calls;
    RollbackExact.RollbackIsExact(scene, depth, name);
    EachStepAtMostOnce(scene, name, false, {});
    StatusesAreLatest(s, i);
    CallsAreUntouched(s, i, scene, name);
    RollbackRowsIs(s, i, scene, s, calls);
    var v := RollbackFrom(s, i, steps, name, target).0;
    ReworkedExtends(s, v, i);
    forall k | k in s.rows
      ensures k in v.rows
      ensures if IsUndone(s, i, scene, name, k) then Undone(s, v, i, steps, k) else LeftAlone(s, v, k)
    {
      CalledIffUndone(s, i, scene, name, k);
    }
    assert RollsBackIn(s, v, i, scene, name);
  }

  lemma {:induction false} CallsAreUntouched(s: State, i: nat, scene: Scene, name: string)
    requires scene.status == Statuses(s, i) && Issued(s)
    ensures Untouched(s, i, scene.steps, s, scene.Chain(name, false, {}).calls) && Counted(s)
  {
    hide Scene.Chain;
    EachStepAtMostOnce(scene, name, false, {});
  }

  lemma {:induction false} LatestOf(s: State, i: nat, c: string)
    requires Issued(s) && c in StepMap(s, i, s.nextRow)
    ensures var k := StepMap(s, i, s.nextRow)[c]; LatestRow(s, i, k) && s.rows[k].name == c
  {
    hide LatestRow;
    StatusesAreLatest(s, i);
  }

  lemma {:induction false} CalledIffUndone(s: State, i: nat, scene: Scene, name: string, k: nat)
    requires scene.status == Statuses(s, i) && Issued(s) && k in s.rows
    requires forall c :: c in scene.Chain(name, false, {}).calls <==>
               RollbackExact.Concerned(scene, name, c) && RollbackExact.Settled(scene, c)
    ensures CalledFor(StepMap(s, i, s.nextRow), scene.Chain(name, false, {}).calls, k) <==>
            IsUndone(s, i, scene, name, k)
  {
    hide Scene.Chain, LatestRow;
    var rows, calls := StepMap(s, i, s.nextRow), scene.Chain(name, false, {}).calls;
    StatusesAreLatest(s, i);
    assert forall c :: RollbackExact.Concerned(scene, name, c) ==> c in scene.steps;
    if CalledFor(rows, calls, k) {
      var c :| c in calls && c in rows && rows[c] == k;
      LatestOf(s, i, c);
      assert LatestRow(s, i, k) && s.rows[k].name == c;
      assert RollbackExact.Settled(scene, c);
    }
    if IsUndone(s, i, scene, name, k) {
      assert rows[s.rows[k].name] == k;
      assert RollbackExact.Settled(scene, s.rows[k].name);
    }
  }
}
