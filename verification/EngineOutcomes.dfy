/**
 How one execution of a step that succeeds ends, for every kind of step and any definition:
 the instance goes on with exactly the rows the step calls for, or it is completed, or its
 late completions are sent back.
 */
module EngineOutcomes {
  import opened Definitions
  import opened Searches
  import opened Rollback
  import opened JoinStates
  import opened Validator
  import opened Engine
  import opened EngineFrame
  import opened EngineEffects
  import EngineJoins

  /** A step that passes tells the joins, and then goes on or comes to an end. */
  lemma {:induction false} SuccessIs(s: State, q: nat, i: nat, id: nat, name: string, c: Choice)
    requires Picks(s, q, i, id, name) && Undisturbed(s, i, c)
    requires var steps := DefOf(s, i).steps;
             && LeadsToSteps(steps, steps[name]) && JoinsThere(s, i, steps, name) && Passes(s, i, steps[name], name, c)
    ensures var steps := DefOf(s, i).steps;
            var d, t := steps[name], Told(s, q, i, id, name, c);
            var follows := Follows(d, c.takesNext);
            ExecuteNext(s, q, c) ==
            if follows == [] then (if Unfinished(t, i) then t else CompleteWorkflow(t, i, steps))
            else EnqueueNext(t, i, steps, follows, !(d.kind == Condition && !c.takesNext)).0
  {
    hide Issued, Work, Tell, SetStatus, EnqueueNext, CompleteWorkflow, Unfinished, Keeps, Started, JoinsThere, Passes;
    hide Grown, NewOfSteps, NewNamed;
    var steps := DefOf(s, i).steps;
    var s1 := Started(s, q, id);
    ExecutionIs(s, q, i, id, name, c);
    StartedFacts(s, q, i, id, name);
    WorkAdds(s1, i, steps, id, name, c);
    SamePasses(s, s1, i, steps[name], name, c);
    var w := Work(s1, i, steps, id, name, c).0;
    var s3 := Note(SetStatus(w, id, StepStatus.Completed), Ended(id, true));
    StillThere(s, q, i, id, name, c);
    TellSucceeds(s3, i, steps, c.order, name, true);
  }

  lemma SamePasses(s: State, s1: State, i: nat, d: StepDef, name: string, c: Choice)
    requires s1.joins == s.joins
    ensures Passes(s1, i, d, name, c) == Passes(s, i, d, name, c)
  {
  }

  /** The joins that have been set up stay so while the step works. */
  lemma StillThere(s: State, q: nat, i: nat, id: nat, name: string, c: Choice)
    requires Picks(s, q, i, id, name) && JoinsThere(s, i, DefOf(s, i).steps, name)
    ensures var w := Work(Started(s, q, id), i, DefOf(s, i).steps, id, name, c).0;
            JoinsThere(Note(SetStatus(w, id, StepStatus.Completed), Ended(id, true)), i, DefOf(s, i).steps, name)
  {
    hide Issued, Work, Started;
    var steps := DefOf(s, i).steps;
    StartedFacts(s, q, i, id, name);
    WorkKeeps(Started(s, q, id), i, steps, id, name, c);
    KeepsJoins(Started(s, q, id), Work(Started(s, q, id), i, steps, id, name, c).0, i);
  }

  lemma KeepsJoins(s: State, s': State, i: nat)
    requires Keeps(s, s', i)
    ensures forall key: Key :: key in s.joins ==> key in s'.joins
  {
  }

  // ---- Coming to an end ----

  /** Rows that are still worked on, or paused. */
  ghost predicate Busy(s: State, i: nat) {
    exists k :: IsRowOf(s, i, k) && s.rows[k].status in {Pending, StepStatus.Running, Paused}
  }

  ghost predicate HasFailures(s: State, i: nat) {
    exists k :: IsRowOf(s, i, k) && s.rows[k].status in {StepStatus.Failed, RolledBack}
  }

  ghost predicate InCompensation(s: State, i: nat) {
    exists k :: IsRowOf(s, i, k) && s.rows[k].status == Compensation
  }

  /** A completed row that was created after all save points of its instance. */
  ghost predicate CompletedLate(s: State, i: nat, k: nat) {
    && IsRowOf(s, i, k) && s.rows[k].status == StepStatus.Completed
    && forall p: nat :: IsRowOf(s, i, p) && s.rows[p].kind == SavePoint ==> p < k
  }

  predicate HasCompensation(steps: Steps, name: string) {
    name in steps && steps[name].onFailure != ""
  }

  /** A row sent back: into compensation with one new item, or rolled back where there is none. */
  predicate SentBack(s: State, s': State, i: nat, steps: Steps, k: nat)
    requires k in s.rows && k in s'.rows
  {
    if HasCompensation(steps, s.rows[k].name)
    then s'.rows[k] == s.rows[k].(status := Compensation, comp := 0) && |NewItems(s, s', k)| == 1
         && NewLetters(s, s', k) == {}
    else s'.rows[k] == s.rows[k].(status := RolledBack) && NewItems(s, s', k) == {} && NewLetters(s, s', k) == {}
  }

  /** Of two new items, the first one leads to the later row. */
  ghost predicate LatestFirst(s: State, s': State) {
    forall q, r :: q in s'.queue && r in s'.queue && q !in s.queue && r !in s.queue && q < r ==>
      s'.queue[q].row > s'.queue[r].row
  }

  /** Exactly the late completions are sent back, the latest first. */
  ghost predicate LateSentBack(s: State, s': State, i: nat, steps: Steps) {
    && Reworked(s, s', i) && LatestFirst(s, s')
    && forall k :: k in s.rows ==> if CompletedLate(s, i, k) then SentBack(s, s', i, steps, k) else LeftAlone(s, s', k)
  }

  /** The same for the rows below a bound, with `after` for the last save point. */
  ghost predicate SentBackBelow(s: State, s': State, i: nat, steps: Steps, after: Option<nat>, bound: nat) {
    && Reworked(s, s', i) && LatestFirst(s, s') && NumberedOn(s, s')
    && (forall q :: q in s'.queue && q !in s.queue ==> s'.queue[q].row < bound)
    && forall k :: k in s.rows ==>
         if k < bound && LateCompletion(s, i, after, k) then SentBack(s, s', i, steps, k) else LeftAlone(s, s', k)
  }

  /** One row is sent back. */
  function SendBack(s: State, i: nat, steps: Steps, id: nat): State
    requires id in s.rows
  {
    if s.rows[id].name in steps && steps[s.rows[id].name].onFailure != "" then Enqueue(SetCompensation(s, id, 0), i, id)
    else SetStatus(s, id, RolledBack)
  }

  lemma SendBackIs(s: State, i: nat, steps: Steps, id: nat)
    requires id in s.rows && s.rows[id].status == StepStatus.Completed && Counted(s)
    ensures var s1 := SendBack(s, i, steps, id);
            OneReworked(s, s1, i, id) && SentBack(s, s1, i, steps, id) && Counted(s1)
  {
    hide OneReworked, Enqueue, NewItems, NewLetters;
    var row := s.rows[id];
    RowRequeued(s, i, id, row.(status := Compensation, comp := 0));
    RowChanged(s, i, id, row.(status := RolledBack));
    assert Counted(SendBack(s, i, steps, id)) by { OneIsCounted(s, SendBack(s, i, steps, id), i, id); }
  }

  lemma SendBackThenRest(s: State, s1: State, s2: State, i: nat, steps: Steps, after: Option<nat>, id: nat)
    requires OneReworked(s, s1, i, id) && LateCompletion(s, i, after, id) && SentBack(s, s1, i, steps, id)
    requires SentBackBelow(s1, s2, i, steps, after, id)
    ensures SentBackBelow(s, s2, i, steps, after, id + 1)
  {
    hide SentBack, LeftAlone, Reworked, LatestFirst, NumberedOn, LateCompletion;
    ReworkedTwice(s, s1, s2, i);
    ReworkedExtends(s, s1, i);
    ReworkedExtends(s1, s2, i);
    OrderTwice(s, s1, s2, id);
    forall k | k in s.rows
      ensures k in s2.rows
      ensures if k < id + 1 && LateCompletion(s, i, after, k) then SentBack(s, s2, i, steps, k) else LeftAlone(s, s2, k)
    {
      if k == id {
        SentBackOnce(s, s1, s2, i, steps, k);
      } else {
        AloneFirst(s, s1, s2, i, steps, after, k);
      }
    }
  }

  lemma OrderTwice(s: State, s1: State, s2: State, id: nat)
    requires NumberedOn(s, s1) && NumberedOn(s1, s2) && LatestFirst(s1, s2) && Extends(s1, s2)
    requires forall q :: q in s1.queue && q !in s.queue ==> q == s.nextItem && s1.queue[q].row == id
    requires forall q :: q in s2.queue && q !in s1.queue ==> s2.queue[q].row < id
    ensures NumberedOn(s, s2) && LatestFirst(s, s2)
    ensures forall q :: q in s2.queue && q !in s.queue ==> s2.queue[q].row < id + 1
  {
  }

  lemma SentBackOnce(s: State, s1: State, s2: State, i: nat, steps: Steps, k: nat)
    requires k in s.rows && k in s1.rows && k in s2.rows && SentBack(s, s1, i, steps, k) && LeftAlone(s1, s2, k)
    requires Extends(s, s1) && Extends(s1, s2)
    ensures SentBack(s, s2, i, steps, k)
  {
    hide NewItems;
    NewTwice(s, s1, s2, k);
    assert NewItems(s, s1, k) + {} == NewItems(s, s1, k);
    hide NewLetters;
  }

  lemma AloneFirst(s: State, s1: State, s2: State, i: nat, steps: Steps, after: Option<nat>, k: nat)
    requires k in s.rows && k in s1.rows && k in s2.rows && LeftAlone(s, s1, k)
    requires Extends(s, s1) && Extends(s1, s2)
    ensures LateCompletion(s1, i, after, k) == LateCompletion(s, i, after, k)
    ensures SentBack(s1, s2, i, steps, k) ==> SentBack(s, s2, i, steps, k)
    ensures LeftAlone(s1, s2, k) ==> LeftAlone(s, s2, k)
  {
    hide NewItems, NewLetters;
    NewTwice(s, s1, s2, k);
    assert {} + NewItems(s1, s2, k) == NewItems(s1, s2, k);
  }

  lemma {:induction false} CompensateCompletedIs(s: State, i: nat, steps: Steps, after: Option<nat>, bound: nat)
    requires Counted(s)
    ensures SentBackBelow(s, CompensateCompleted(s, i, steps, after, bound), i, steps, after, bound)
    decreases bound
  {
    hide SetStatus, SetCompensation, Enqueue, SentBack, LeftAlone, Reworked, LatestFirst;
    if bound == 0 {
      NobodySentBack(s, i, steps, after, 0);
    } else {
      var id := bound - 1;
      if LateCompletion(s, i, after, id) {
        var s1 := SendBack(s, i, steps, id);
        SendBackIs(s, i, steps, id);
        CompensateCompletedIs(s1, i, steps, after, id);
        SendBackThenRest(s, s1, CompensateCompleted(s1, i, steps, after, id), i, steps, after, id);
      } else {
        CompensateCompletedIs(s, i, steps, after, id);
        NotThisOne(s, CompensateCompleted(s, i, steps, after, id), i, steps, after, id);
      }
    }
  }

  lemma NobodySentBack(s: State, i: nat, steps: Steps, after: Option<nat>, bound: nat)
    requires bound == 0
    ensures SentBackBelow(s, s, i, steps, after, bound)
  {
  }

  lemma NotThisOne(s: State, s': State, i: nat, steps: Steps, after: Option<nat>, id: nat)
    requires SentBackBelow(s, s', i, steps, after, id) && !LateCompletion(s, i, after, id)
    ensures SentBackBelow(s, s', i, steps, after, id + 1)
  {
    hide SentBack, LeftAlone, Reworked, LatestFirst;
  }

  /** The last save point is the one that no other is created after. */
  lemma {:induction false} LastSavePointIs(s: State, i: nat, bound: nat)
    ensures forall p: nat :: IsRowOf(s, i, p) && s.rows[p].kind == SavePoint && p < bound ==>
              LastSavePoint(s, i, bound).Some? && p <= LastSavePoint(s, i, bound).value
    decreases bound
  {
    if bound > 0 {
      LastSavePointIs(s, i, bound - 1);
    }
  }

  lemma {:induction false} LateIsLate(s: State, i: nat)
    requires forall k :: k in s.rows ==> k < s.nextRow
    ensures forall k :: LateCompletion(s, i, LastSavePoint(s, i, s.nextRow), k) <==> CompletedLate(s, i, k)
  {
    LastSavePointIs(s, i, s.nextRow);
  }

  /**
   Completing an instance: it is completed if no row of it has failed or been rolled back; else
   its late completions are sent back, and it has failed if no row of it is in compensation.
   */
  ghost predicate Completes(b: State, s': State, i: nat, steps: Steps) {
    if !HasFailures(b, i)
    then SameStore(s', WithStatus(b, i, WorkflowStatus.Completed))
    else exists mid ::
           && LateSentBack(b, mid, i, steps)
           && SameStore(s', if InCompensation(mid, i) then mid else WithStatus(mid, i, WorkflowStatus.Failed))
  }

  lemma CompleteWorkflowIs(s: State, i: nat, steps: Steps)
    requires Issued(s) && i in s.instances
    ensures Completes(s, CompleteWorkflow(s, i, steps), i, steps)
  {
    hide CompensateCompleted, LateSentBack, SetInstance, WithStatus;
    var mid := CompensateCompleted(s, i, steps, LastSavePoint(s, i, s.nextRow), s.nextRow);
    AllSentBack(s, i, steps);
    WithStatusIs(s, i, WorkflowStatus.Completed);
    WithStatusIs(mid, i, WorkflowStatus.Failed);
    if HasFailures(s, i) {
      assert LateSentBack(s, mid, i, steps);
    }
  }

  lemma {:induction false} AllSentBack(s: State, i: nat, steps: Steps)
    requires Issued(s) && i in s.instances
    ensures var mid := CompensateCompleted(s, i, steps, LastSavePoint(s, i, s.nextRow), s.nextRow);
            LateSentBack(s, mid, i, steps) && mid.instances == s.instances
  {
    hide CompensateCompleted, SentBack, LeftAlone, LatestFirst, LastSavePoint, CompletedLate, LateCompletion;
    var after := LastSavePoint(s, i, s.nextRow);
    CompensateCompletedIs(s, i, steps, after, s.nextRow);
    LateIsLate(s, i);
    assert forall k :: k in s.rows ==> k < s.nextRow;
  }

  // ---- The outcome ----

  /**
   A step that passes: its row is completed, and
   - if something follows it, or rows come, or rows of the instance are still worked on, then of
     all that is no join exactly the rows come that follow it, the branches of a fork included;
     a condition goes on over Next or over Else; each row that comes is pending with one item;
   - otherwise the instance is completed.
   */
  lemma SuccessOutcome(s: State, q: nat, i: nat, id: nat, name: string, c: Choice)
    requires Picks(s, q, i, id, name) && Undisturbed(s, i, c)
    requires var steps := DefOf(s, i).steps;
             && LeadsToSteps(steps, steps[name]) && JoinsThere(s, i, steps, name) && Passes(s, i, steps[name], name, c)
    ensures var steps, s' := DefOf(s, i).steps, ExecuteNext(s, q, c);
            var d := steps[name];
            var base := Settled(s, q, id, StepStatus.Completed, Entries(d, id, true));
            if Follows(d, c.takesNext) != [] || s'.rows.Keys != s.rows.Keys || Busy(base, i)
            then BringsCalled(base, s', i, steps, d, c.takesNext)
            else Completes(base, s', i, steps)
  {
    hide Issued, Told, EnqueueNext, CompleteWorkflow, Passes, JoinsThere, Settled, Entries, Grown, ExecuteNext;
    hide NewOfSteps, Mentions, NewNamed, OnlyJoins, Completes, Busy, Unfinished, BringsCalled, Follows;
    var steps, s' := DefOf(s, i).steps, ExecuteNext(s, q, c);
    var d, t := steps[name], Told(s, q, i, id, name, c);
    var base := Settled(s, q, id, StepStatus.Completed, Entries(d, id, true));
    var follows, skip := Follows(d, c.takesNext), !(d.kind == Condition && !c.takesNext);
    SuccessIs(s, q, i, id, name, c);
    ToldAdds(s, q, i, id, name, c);
    SettledKeys(s, q, id, StepStatus.Completed, Entries(d, id, true));
    if follows != [] {
      FollowsKnown(steps, d, c.takesNext);
      EnqueueNextAdds(t, i, steps, follows, skip);
      CalledTwice(base, t, s', i, steps, d, c.takesNext, skip);
    } else {
      UnfinishedIs(base, t, i);
      if Unfinished(t, i) {
        NothingFollows(base, t, i, steps, d, c.takesNext);
      } else {
        CompleteWorkflowIs(t, i, steps);
        CompletesKeepsRows(t, s', i, steps);
        NothingCame(base, t, i);
        SameCompletion(base, t, s', i, steps);
      }
    }
  }

  lemma SettledKeys(s: State, q: nat, id: nat, status: StepStatus, entries: seq<Entry>)
    requires id in s.rows
    ensures Settled(s, q, id, status, entries).rows.Keys == s.rows.Keys
  {
  }

  lemma FollowsKnown(steps: Steps, d: StepDef, takesNext: bool)
    requires LeadsToSteps(steps, d)
    ensures forall n :: n in Follows(d, takesNext) ==> n in steps
  {
  }

  lemma UnfinishedIs(base: State, t: State, i: nat)
    requires Grown(base, t, i)
    ensures Unfinished(t, i) <==> Busy(base, i) || t.rows.Keys != base.rows.Keys
  {
    if Busy(base, i) {
      var k :| IsRowOf(base, i, k) && base.rows[k].status in {Pending, StepStatus.Running, Paused};
      assert IsRowOf(t, i, k) && t.rows[k] == base.rows[k];
    }
    if k :| k in t.rows && k !in base.rows {
      assert FreshRow(t, i, k);
    }
  }

  lemma NothingFollows(base: State, t: State, i: nat, steps: Steps, d: StepDef, takesNext: bool)
    requires Grown(base, t, i) && NewOfSteps(base, t, steps) && Follows(d, takesNext) == []
    requires forall n :: !(n in steps && steps[n].kind == Join) ==>
               |NewNamed(base, t, n)| == if d.Forks() then multiset(d.parallel)[n] else 0
    ensures BringsCalled(base, t, i, steps, d, takesNext)
  {
    hide Grown, NewOfSteps, NewNamed;
  }

  lemma CompletesKeepsRows(t: State, s': State, i: nat, steps: Steps)
    requires Completes(t, s', i, steps)
    ensures s'.rows.Keys == t.rows.Keys
  {
    hide SentBack, LeftAlone, LatestFirst, CompletedLate, InCompensation, HasFailures;
  }

  /** Where no rows have come, no items have. */
  lemma NothingCame(base: State, t: State, i: nat)
    requires Grown(base, t, i) && Issued(t) && t.rows.Keys == base.rows.Keys
    ensures SameStore(base, t)
  {
    SameMap(t.rows, base.rows);
    SameMap(t.queue, base.queue);
  }

  lemma SameCompletion(base: State, t: State, s': State, i: nat, steps: Steps)
    requires SameStore(base, t) && Completes(t, s', i, steps)
    ensures Completes(base, s', i, steps)
  {
    hide LateSentBack;
    if HasFailures(t, i) {
      var mid :| LateSentBack(t, mid, i, steps)
                 && SameStore(s', if InCompensation(mid, i) then mid else WithStatus(mid, i, WorkflowStatus.Failed));
      SameSentBack(base, t, mid, i, steps);
    }
  }

  lemma SameSentBack(base: State, t: State, mid: State, i: nat, steps: Steps)
    requires SameStore(base, t) && LateSentBack(t, mid, i, steps)
    ensures LateSentBack(base, mid, i, steps)
  {
    forall k | k in base.rows
      ensures NewItems(base, mid, k) == NewItems(t, mid, k)
    {
    }
    forall k | k in base.rows
      ensures NewLetters(base, mid, k) == NewLetters(t, mid, k)
    {
    }
    hide NewItems, NewLetters;
    forall k | k in base.rows
      ensures CompletedLate(base, i, k) == CompletedLate(t, i, k)
    {
    }
    hide CompletedLate;
    forall k | k in base.rows
      ensures if CompletedLate(base, i, k) then SentBack(base, mid, i, steps, k) else LeftAlone(base, mid, k)
    {
    }
  }

  lemma CalledTwice(base: State, t: State, s': State, i: nat, steps: Steps, d: StepDef, takesNext: bool, skip: bool)
    requires Grown(base, t, i) && NewOfSteps(base, t, steps) && Grown(t, s', i) && NewOfSteps(t, s', steps)
    requires forall n :: !(n in steps && steps[n].kind == Join) ==>
               |NewNamed(base, t, n)| == if d.Forks() then multiset(d.parallel)[n] else 0
    requires forall n :: |NewNamed(t, s', n)| == Mentions(steps, Follows(d, takesNext), skip, n)
    ensures BringsCalled(base, s', i, steps, d, takesNext)
  {
    hide FreshRow, NewNamed;
    GrownTwice(base, t, s', i);
    assert NewOfSteps(base, s', steps) by {
      forall id | id in s'.rows && id !in base.rows && id in t.rows
        ensures s'.rows[id] == t.rows[id]
      {
      }
    }
    hide Grown, NewOfSteps;
    forall n | !(n in steps && steps[n].kind == Join)
      ensures |NewNamed(base, s', n)| == Calls(d, takesNext, n)
    {
      NamedTwice(base, t, s', i, n);
    }
  }

  // ---- The two special cases ----

  /** The instance has come no further than to exactly one fresh row of the step. */
  predicate OneRow(s: State, s': State, name: string) {
    |NewNamed(s, s', name)| == 1
  }

  /**
   A condition that is false goes on with exactly one fresh row of its Else and none of its
   Next, one that is true with one for each Next that is no join and none of its Else.
   */
  lemma ConditionTakesItsSide(s: State, q: nat, i: nat, id: nat, name: string, c: Choice)
    requires Picks(s, q, i, id, name) && Undisturbed(s, i, c) && c.succeeds
    requires var steps := DefOf(s, i).steps;
             var d := steps[name];
             && LeadsToSteps(steps, d) && JoinsThere(s, i, steps, name) && d.kind == Condition
             && NoDuplicates(d.next) && (d.els !in d.next) && (if c.takesNext then d.next != [] else d.els != "")
    ensures var steps, s' := DefOf(s, i).steps, ExecuteNext(s, q, c);
            var d := steps[name];
            && Grown(Settled(s, q, id, StepStatus.Completed, [Ended(id, true)]), s', i)
            && (forall n :: n in d.next && steps[n].kind != Join ==>
                  |NewNamed(s, s', n)| == if c.takesNext then 1 else 0)
            && (d.els in steps && steps[d.els].kind != Join ==>
                  |NewNamed(s, s', d.els)| == if c.takesNext then 0 else 1)
            && (forall k :: k in s'.rows && k !in s.rows ==>
                  s'.rows[k].name in steps
                  && (steps[s'.rows[k].name].kind == Join
                      || if c.takesNext then s'.rows[k].name in d.next else s'.rows[k].name == d.els))
  {
    hide Issued, ExecuteNext, JoinsThere, Grown;
    var steps, s' := DefOf(s, i).steps, ExecuteNext(s, q, c);
    var d := steps[name];
    var base := Settled(s, q, id, StepStatus.Completed, Entries(d, id, true));
    SuccessOutcome(s, q, i, id, name, c);
    assert Entries(d, id, true) == [Ended(id, true)];
    assert base.rows.Keys == s.rows.Keys;
    assert forall n :: NewNamed(s, s', n) == NewNamed(base, s', n);
    forall n ensures multiset(d.next)[n] == if n in d.next then 1 else 0 {
      CountOnce(d.next, n);
    }
    OnlyCalledCome(base, s', i, steps, d, c.takesNext);
  }

  lemma {:induction false} CountOnce(list: seq<string>, n: string)
    requires NoDuplicates(list)
    ensures multiset(list)[n] == if n in list then 1 else 0
  {
    if list != [] {
      var init, last := list[..|list| - 1], list[|list| - 1];
      assert list == init + [last];
      assert forall k :: 0 <= k < |init| ==> init[k] == list[k];
      CountOnce(init, n);
      assert n in list <==> n in init || n == last;
    }
  }

  /** Every new row is of a join or is called for. */
  lemma OnlyCalledCome(base: State, s': State, i: nat, steps: Steps, d: StepDef, takesNext: bool)
    requires BringsCalled(base, s', i, steps, d, takesNext)
    ensures forall k :: k in s'.rows && k !in base.rows ==>
              && s'.rows[k].name in steps
              && (steps[s'.rows[k].name].kind == Join || Calls(d, takesNext, s'.rows[k].name) > 0)
  {
    hide Grown, Calls;
    forall k | k in s'.rows && k !in base.rows && !(s'.rows[k].name in steps && steps[s'.rows[k].name].kind == Join)
      ensures Calls(d, takesNext, s'.rows[k].name) > 0
    {
      assert k in NewNamed(base, s', s'.rows[k].name);
    }
  }

  /** A fork brings exactly one fresh row for each of its branches, whatever else follows. */
  lemma ForkRunsEveryBranch(s: State, q: nat, i: nat, id: nat, name: string, c: Choice)
    requires Picks(s, q, i, id, name) && Undisturbed(s, i, c)
    requires var steps := DefOf(s, i).steps;
             var d := steps[name];
             && LeadsToSteps(steps, d) && JoinsThere(s, i, steps, name) && (d.kind == Fork || d.kind == Parallel)
             && NoDuplicates(d.parallel) && d.parallel != [] && forall n :: n in d.parallel ==> steps[n].kind != Join
    ensures var steps, s' := DefOf(s, i).steps, ExecuteNext(s, q, c);
            var d := steps[name];
            && Grown(Settled(s, q, id, StepStatus.Completed, [Ended(id, true)]), s', i)
            && (forall n :: n in d.parallel && n !in d.next ==> |NewNamed(s, s', n)| == 1)
            && (forall j :: j in d.next && j in steps && steps[j].kind == Join ==> (i, j) in s'.joins)
  {
    hide Issued, ExecuteNext, JoinsThere, Grown;
    var steps, s' := DefOf(s, i).steps, ExecuteNext(s, q, c);
    var d := steps[name];
    var base := Settled(s, q, id, StepStatus.Completed, Entries(d, id, true));
    assert Entries(d, id, true) == [Ended(id, true)];
    SuccessOutcome(s, q, i, id, name, c);
    ForkGrows(s, q, i, id, name, c);
    assert base.rows.Keys == s.rows.Keys;
    assert forall n :: NewNamed(s, s', n) == NewNamed(base, s', n);
    forall n ensures multiset(d.parallel)[n] == if n in d.parallel then 1 else 0 {
      CountOnce(d.parallel, n);
    }
    ForkSetsUpJoins(s, q, i, id, name, c);
  }

  /** The rows of the branches have come, so the instance is not completed. */
  lemma ForkGrows(s: State, q: nat, i: nat, id: nat, name: string, c: Choice)
    requires Picks(s, q, i, id, name) && Undisturbed(s, i, c)
    requires var steps := DefOf(s, i).steps;
             var d := steps[name];
             && LeadsToSteps(steps, d) && JoinsThere(s, i, steps, name) && (d.kind == Fork || d.kind == Parallel)
             && d.parallel != [] && steps[d.parallel[0]].kind != Join
    ensures ExecuteNext(s, q, c).rows.Keys != s.rows.Keys
  {
    hide Issued, Told, EnqueueNext, CompleteWorkflow, JoinsThere, Settled, Entries, Grown, ExecuteNext;
    hide NewOfSteps, Mentions, OnlyJoins, Completes, Unfinished;
    var steps, s' := DefOf(s, i).steps, ExecuteNext(s, q, c);
    var d, t := steps[name], Told(s, q, i, id, name, c);
    var base := Settled(s, q, id, StepStatus.Completed, Entries(d, id, true));
    SuccessIs(s, q, i, id, name, c);
    ToldAdds(s, q, i, id, name, c);
    SettledKeys(s, q, id, StepStatus.Completed, Entries(d, id, true));
    assert d.parallel[0] in multiset(d.parallel);
    assert |NewNamed(base, t, d.parallel[0])| > 0;
    var k :| k in NewNamed(base, t, d.parallel[0]);
    FollowsKnown(steps, d, c.takesNext);
    EnqueueNextAdds(t, i, steps, Follows(d, c.takesNext), true);
    CompleteWorkflowIs(t, i, steps);
    if s' == CompleteWorkflow(t, i, steps) {
      CompletesKeepsRows(t, s', i, steps);
    }
    if Grown(t, s', i) {
      GrownKeepsRow(t, s', i, k);
    }
    assert k in s'.rows;
  }

  lemma GrownKeepsRow(s: State, s': State, i: nat, k: nat)
    requires Grown(s, s', i) && k in s.rows
    ensures k in s'.rows
  {
  }

  lemma ForkSetsUpJoins(s: State, q: nat, i: nat, id: nat, name: string, c: Choice)
    requires Picks(s, q, i, id, name) && Undisturbed(s, i, c)
    requires var steps := DefOf(s, i).steps;
             var d := steps[name];
             LeadsToSteps(steps, d) && JoinsThere(s, i, steps, name) && (d.kind == Fork || d.kind == Parallel)
    ensures var steps, s' := DefOf(s, i).steps, ExecuteNext(s, q, c);
            forall j :: j in steps[name].next && j in steps && steps[j].kind == Join ==> (i, j) in s'.joins
  {
    hide Issued, EnqueueNext, CompleteWorkflow, JoinsThere, ExecuteNext, Keeps, Work, Tell, SetStatus, Started;
    hide Unfinished, Grown, NewOfSteps, NewNamed;
    var steps, s' := DefOf(s, i).steps, ExecuteNext(s, q, c);
    var s1, t := Started(s, q, id), Told(s, q, i, id, name, c);
    var w := Work(s1, i, steps, id, name, c).0;
    var s3 := Note(SetStatus(w, id, StepStatus.Completed), Ended(id, true));
    SuccessIs(s, q, i, id, name, c);
    StartedFacts(s, q, i, id, name);
    WorkAdds(s1, i, steps, id, name, c);
    WorkSetsUp(s1, i, steps, id, name, c);
    DecidedIsIssued(s1, i, steps, id, name, c);
    TellKeeps(s3, i, steps, c.order, name, true);
    KeepsJoins(s3, t, i);
    KeptIsIssued(s3, t, i);
    EnqueueNextKeeps(t, i, steps, Follows(steps[name], c.takesNext), true);
    CompleteWorkflowKeeps(t, i, steps);
    Reflexive(t, i);
    KeepsJoins(t, s', i);
  }

  lemma WorkSetsUp(s1: State, i: nat, steps: Steps, id: nat, name: string, c: Choice)
    requires name in steps && steps[name].Forks() && Work(s1, i, steps, id, name, c).1
    ensures var w := Work(s1, i, steps, id, name, c).0;
            && (forall j :: j in steps[name].next && j in steps && steps[j].kind == Join ==> (i, j) in w.joins)
            && (forall status, e :: Note(SetStatus(w, id, status), e).joins == w.joins)
  {
    hide CreateBranches, CreateJoins, EngineJoins.DeclaredWait;
    var d := steps[name];
    EngineJoins.CreateJoinsSetsUp(CreateBranches(s1, i, steps, d.parallel).0, i, steps, d, d.next);
  }
}
