/**
 What a step's report does to the join around it: the step takes the place of the condition above
 it in the wait list, or is added to the list where it ends a branch, and its outcome is on record.
 */
module EngineReports {
  import opened Definitions
  import opened Graphs
  import opened Links
  import opened Searches
  import opened Rollback
  import opened JoinStates
  import opened Validator
  import opened Engine
  import opened EngineFrame
  import opened EngineEffects
  import opened EngineFailures
  import opened EngineOutcomes
  import opened EngineFiring

  // ---- The nearest condition and the nearest fork ----

  /** The nearest step of a kind above a step. */
  ghost predicate NearestAbove(steps: Steps, name: string, kind: StepType, x: string) {
    && x in steps && steps[x].kind == kind && x != name && Reaches(Flow(steps), x, name)
    && forall y :: y in steps && steps[y].kind == kind && y != name && Reaches(Flow(steps), y, name) ==>
         Reaches(Flow(steps), y, x)
  }

  ghost predicate NoneAbove(steps: Steps, name: string, kind: StepType) {
    forall y :: y in steps && steps[y].kind == kind && y != name ==> !Reaches(Flow(steps), y, name)
  }

  /** Of the steps from `x` upwards, the first of its kind is the nearest. */
  lemma {:induction false} FirstOnClimb(steps: Steps, depth: map<string, nat>, x: string, visited: set<string>,
        kind: StepType)
    requires Linked(steps, depth) && forall v :: v in visited ==> v in steps && !Reaches(Flow(steps), v, x)
    ensures var r := FirstOfKind(steps, Climb(steps, x, visited), kind);
            if r == "" then forall y :: y in steps && steps[y].kind == kind ==> !Reaches(Flow(steps), y, x)
            else
              && r in steps && steps[r].kind == kind && Reaches(Flow(steps), r, x)
              && forall y :: y in steps && steps[y].kind == kind && Reaches(Flow(steps), y, x) ==>
                   Reaches(Flow(steps), y, r)
    decreases steps.Keys - visited
  {
    hide Reaches, Linked;
    NoEmptyName(steps, depth);
    if x !in steps {
      NothingReachesOutside(steps, depth, x);
    } else {
      ReachesSelf(Flow(steps), x);
      var up, rest := steps[x].prev, Climb(steps, steps[x].prev, visited + {x});
      assert ([x] + rest)[1..] == rest;
      forall y | y in steps
        ensures Reaches(Flow(steps), y, x) <==> y == x || Reaches(Flow(steps), y, up)
        ensures y in visited + {x} ==> !Reaches(Flow(steps), y, up)
      {
        OneLinkUp(steps, depth, x, y);
      }
      FirstOnClimb(steps, depth, up, visited + {x}, kind);
    }
  }

  lemma NothingReachesOutside(steps: Steps, depth: map<string, nat>, x: string)
    requires Linked(steps, depth) && x !in steps
    ensures forall y :: y in steps ==> !Reaches(Flow(steps), y, x)
  {
    forall y | y in steps && Reaches(Flow(steps), y, x)
      ensures false
    {
      var w := ReachesByLastEdge(Flow(steps), y, x);
    }
  }

  lemma OneLinkUp(steps: Steps, depth: map<string, nat>, x: string, y: string)
    requires Linked(steps, depth) && x in steps && y in steps
    ensures Reaches(Flow(steps), y, x) <==> y == x || Reaches(Flow(steps), y, steps[x].prev)
    ensures !Reaches(Flow(steps), x, steps[x].prev)
  {
    var g, up := Flow(steps), steps[x].prev;
    ReachesSelf(g, x);
    if up !in steps {
      NothingReachesOutside(steps, depth, up);
      if Reaches(g, y, x) && y != x {
        var w := ReachesByLastEdge(g, y, x);
        FlowIsBackReversed(steps, depth, w, x);
      }
    } else {
      assert Edge(g, up, x);
      EdgeReaches(g, up, x);
      if Reaches(g, y, x) && y != x {
        var w := ReachesByLastEdge(g, y, x);
        FlowIsBackReversed(steps, depth, w, x);
      }
      if Reaches(g, y, up) {
        ReachesTransitive(g, y, up, x);
      }
      if Reaches(g, x, up) {
        ParentIsNotSelf(steps, depth, x);
        ReachesDownwards(steps, depth, x, up);
        ReachesDownwards(steps, depth, up, x);
      }
    }
  }

  lemma ParentIsNotSelf(steps: Steps, depth: map<string, nat>, x: string)
    requires Linked(steps, depth) && x in steps && steps[x].prev in steps
    ensures steps[x].prev != x
  {
    assert Edge(Flow(steps), steps[x].prev, x);
  }

  /** The first of its kind on the way up is the nearest one above. */
  lemma {:induction false} FirstAboveIs(steps: Steps, depth: map<string, nat>, name: string, kind: StepType)
    requires Linked(steps, depth) && name in steps
    ensures var r := FirstOfKind(steps, Climb(steps, steps[name].prev), kind);
            if r == "" then NoneAbove(steps, name, kind) else NearestAbove(steps, name, kind, r)
  {
    hide Reaches, Linked;
    FirstOnClimb(steps, depth, steps[name].prev, {}, kind);
    forall y | y in steps
      ensures Reaches(Flow(steps), y, name) <==> y == name || Reaches(Flow(steps), y, steps[name].prev)
      ensures !Reaches(Flow(steps), name, steps[name].prev)
    {
      OneLinkUp(steps, depth, name, y);
    }
  }

  lemma OnlyOneNearest(steps: Steps, depth: map<string, nat>, name: string, kind: StepType, x: string, y: string)
    requires Linked(steps, depth) && NearestAbove(steps, name, kind, x) && NearestAbove(steps, name, kind, y)
    ensures x == y
  {
    if x != y {
      ReachesDownwards(steps, depth, x, y);
      ReachesDownwards(steps, depth, y, x);
    }
  }

  /** findConditionStepInBranch finds the nearest condition above. */
  lemma ConditionAboveIs(steps: Steps, depth: map<string, nat>, name: string)
    requires Linked(steps, depth) && name in steps
    ensures if ConditionAbove(steps, steps[name]) == "" then NoneAbove(steps, name, Condition)
            else NearestAbove(steps, name, Condition, ConditionAbove(steps, steps[name]))
  {
    FirstAboveIs(steps, depth, name, Condition);
  }

  /** On linked definitions, looking for a fork by its branches and on the way up is the same. */
  lemma {:induction false} ForkOnClimb(steps: Steps, depth: map<string, nat>, order: seq<string>, x: string,
        visited: set<string>)
    requires Linked(steps, depth) && (forall n :: n in steps ==> n in order)
    requires forall v :: v in visited ==> v in steps && !Reaches(Flow(steps), v, x)
    ensures ForkAbove(steps, order, Climb(steps, x, visited)) == FirstOfKind(steps, Climb(steps, x, visited), Fork)
    decreases steps.Keys - visited
  {
    hide Reaches, Linked, ForkOf;
    NoEmptyName(steps, depth);
    if x in steps {
      ReachesSelf(Flow(steps), x);
      var up, rest := steps[x].prev, Climb(steps, steps[x].prev, visited + {x});
      assert ([x] + rest)[1..] == rest;
      forall v | v in visited + {x}
        ensures v in steps && !Reaches(Flow(steps), v, up)
      {
        OneLinkUp(steps, depth, x, v);
      }
      var f := ForkOf(steps, order, x);
      if steps[x].kind != Fork {
        ForkOnClimb(steps, depth, order, up, visited + {x});
        if f != "" {
          BranchHasParent(steps, depth, f, x);
          ReachesSelf(Flow(steps), up);
          assert rest == [up] + Climb(steps, steps[up].prev, visited + {x} + {up});
        }
      }
    }
  }

  lemma BranchHasParent(steps: Steps, depth: map<string, nat>, f: string, x: string)
    requires Linked(steps, depth) && f in steps && x in steps[f].parallel
    ensures x in steps && steps[x].prev == f
  {
    assert x in Successors(steps[f]);
    assert Edge(Flow(steps), f, x);
  }

  /** The fork that the search for the join around a step finds is the nearest one above. */
  lemma ForkAroundIs(steps: Steps, depth: map<string, nat>, order: seq<string>, name: string)
    requires Linked(steps, depth) && name in steps && forall n :: n in steps ==> n in order
    ensures var f := ForkAround(steps, order, name);
            if f == "" then NoneAbove(steps, name, Fork) else NearestAbove(steps, name, Fork, f)
  {
    hide Linked, ForkOf, NoneAbove, NearestAbove;
    NoEmptyName(steps, depth);
    FirstAboveIs(steps, depth, name, Fork);
    ForkOnClimb(steps, depth, order, steps[name].prev, {});
    var f := ForkOf(steps, order, name);
    if f != "" {
      BranchHasParent(steps, depth, f, name);
      var rest := Climb(steps, steps[f].prev, {} + {f});
      assert Climb(steps, f, {}) == [f] + rest;
    }
  }

  // ---- The join around a step ----

  /** The first join in the list. */
  ghost predicate FirstJoin(steps: Steps, list: seq<string>, j: string) {
    exists n: nat :: n < |list| && list[n] == j && j in steps && steps[j].kind == Join
                     && forall m :: 0 <= m < n ==> !(list[m] in steps && steps[list[m]].kind == Join)
  }

  /** The join that follows the nearest fork above the step. */
  ghost predicate JoinAround(steps: Steps, name: string, j: string) {
    exists f :: f in steps && NearestAbove(steps, name, Fork, f) && FirstJoin(steps, steps[f].next, j)
  }

  lemma {:induction false} FirstJoinIs(steps: Steps, list: seq<string>, j: string)
    requires "" !in steps && FirstJoin(steps, list, j)
    ensures FirstOfKind(steps, list, Join) == j
  {
    var n: nat :| n < |list| && list[n] == j && j in steps && steps[j].kind == Join
                  && forall m :: 0 <= m < n ==> !(list[m] in steps && steps[list[m]].kind == Join);
    if n > 0 {
      assert !(list[0] in steps && steps[list[0]].kind == Join);
      var rest := list[1..];
      assert rest[n - 1] == j && forall m :: 0 <= m < n - 1 ==> rest[m] == list[m + 1];
      FirstJoinIs(steps, rest, j);
    }
  }

  lemma JoinForIs(steps: Steps, depth: map<string, nat>, order: seq<string>, name: string, j: string)
    requires Linked(steps, depth) && name in steps && (forall n :: n in steps ==> n in order)
    requires JoinAround(steps, name, j)
    ensures JoinFor(steps, order, name) == j && ForkAround(steps, order, name) != ""
  {
    hide Linked, NearestAbove, ForkAround;
    NoEmptyName(steps, depth);
    ForkAroundIs(steps, depth, order, name);
    var f :| f in steps && NearestAbove(steps, name, Fork, f) && FirstJoin(steps, steps[f].next, j);
    NearestExcludesNone(steps, name, Fork, f);
    OnlyOneNearest(steps, depth, name, Fork, f, ForkAround(steps, order, name));
    FirstJoinIs(steps, steps[f].next, j);
  }

  lemma NearestExcludesNone(steps: Steps, name: string, kind: StepType, f: string)
    requires NearestAbove(steps, name, kind, f)
    ensures !NoneAbove(steps, name, kind) && f in steps
  {
  }

  // ---- What a join has on record ----

  /** The outcome of `name` is on record, that of others as before. */
  ghost predicate Recorded(j: JoinState, j': JoinState, name: string, success: bool) {
    && j'.strategy == j.strategy && NoDuplicates(j'.completed) && NoDuplicates(j'.failed)
    && (forall w :: w in j'.completed <==> if w == name then success else w in j.completed)
    && (forall w :: w in j'.failed <==> if w == name then !success else w in j.failed)
  }

  /** The same with the wait list as it was. */
  ghost predicate OnRecord(j: JoinState, j': JoinState, name: string, success: bool) {
    Recorded(j, j', name, success) && j'.waitingFor == j.waitingFor
  }

  predicate Listed(j: JoinState) {
    NoDuplicates(j.completed) && NoDuplicates(j.failed)
  }

  lemma UpdateIsOnRecord(j: JoinState, name: string, success: bool)
    requires Listed(j)
    ensures OnRecord(j, Update(j, name, success), name, success) && Listed(Update(j, name, success))
  {
    InsertMembers(j.completed, name);
    InsertMembers(j.failed, name);
    DeleteMembers(j.completed, name);
    DeleteMembers(j.failed, name);
  }

  lemma OnRecordTwice(a: JoinState, b: JoinState, c: JoinState, name: string, success: bool)
    requires OnRecord(a, b, name, success) && OnRecord(b, c, name, success)
    ensures OnRecord(a, c, name, success)
  {
  }

  lemma OneJoinChanges(s: State, i: nat, steps: Steps, order: seq<string>, other: string, name: string, success: bool)
    requires other in steps && (i, other) in s.joins
    ensures var joins, u := NotifyOne(s, i, steps, order, other, name, success).0.joins,
                            Update(s.joins[(i, other)], name, success);
            && (i, other) in joins && joins[(i, other)] in {u, Update(u, name, success)}
            && forall key: Key :: key in s.joins && key != (i, other) ==> key in joins && joins[key] == s.joins[key]
  {
    hide BranchesPending, Update, HasRow, CreateJoinRow;
    var u := Update(s.joins[(i, other)], name, success);
    JoinRowJoins(PutJoin(s, i, other, u), i, other);
  }

  /** One report, to this join or to another. */
  lemma ReportIsOnRecord(s: State, i: nat, steps: Steps, order: seq<string>, other: string, name: string, success: bool,
        join: string)
    requires other in steps && (i, other) in s.joins && (i, join) in s.joins && Listed(s.joins[(i, join)])
    ensures var s' := NotifyOne(s, i, steps, order, other, name, success).0;
            && (i, join) in s'.joins
            && (if other == join then OnRecord(s.joins[(i, join)], s'.joins[(i, join)], name, success)
                else s'.joins[(i, join)] == s.joins[(i, join)])
  {
    hide NotifyOne, Update, OnRecord, Listed;
    OneJoinChanges(s, i, steps, order, other, name, success);
    if other == join {
      var j := s.joins[(i, join)];
      UpdateIsOnRecord(j, name, success);
      UpdateIsOnRecord(Update(j, name, success), name, success);
      OnRecordTwice(j, Update(j, name, success), Update(Update(j, name, success), name, success), name, success);
    }
  }

  /** After all reports, the outcome is on record with a join that waits for the step. */
  lemma {:induction false} ReportsAreOnRecord(s: State, i: nat, steps: Steps, order: seq<string>, rest: seq<string>,
        name: string, success: bool, join: string, told: bool)
    requires JoinsThere(s, i, steps, name) && join in steps && steps[join].kind == Join
    requires (i, join) in s.joins && Listed(s.joins[(i, join)]) && name in s.joins[(i, join)].waitingFor
    requires told ==> OnRecord(s.joins[(i, join)], s.joins[(i, join)], name, success)
    ensures var s' := Notify(s, i, steps, order, rest, name, success).0;
            && (i, join) in s'.joins
            && (told || join in rest ==> OnRecord(s.joins[(i, join)], s'.joins[(i, join)], name, success))
    decreases rest
  {
    hide NotifyOne, JoinsThere, OnRecord, Listed;
    if rest != [] {
      var j := s.joins[(i, join)];
      if Waits(s, i, steps, rest[0], name) {
        var one := NotifyOne(s, i, steps, order, rest[0], name, success).0;
        WaitedIsThere(s, i, steps, rest[0], name);
        ReportIsOnRecord(s, i, steps, order, rest[0], name, success, join);
        NotifyOneSucceeds(s, i, steps, order, rest[0], name, success);
        JoinsThereGrow(s, i, steps, order, rest[0], name, success);
        if rest[0] == join {
          RecordFacts(j, one.joins[(i, join)], name, success);
        }
        ReportsAreOnRecord(one, i, steps, order, rest[1..], name, success, join, told || rest[0] == join);
        if rest[0] == join {
          OnRecordTwice(j, one.joins[(i, join)],
                        Notify(one, i, steps, order, rest[1..], name, success).0.joins[(i, join)],
                        name, success);
        }
      } else {
        ReportsAreOnRecord(s, i, steps, order, rest[1..], name, success, join, told);
      }
    }
  }

  lemma RecordFacts(j: JoinState, j': JoinState, name: string, success: bool)
    requires OnRecord(j, j', name, success)
    ensures Listed(j') && j'.waitingFor == j.waitingFor && OnRecord(j', j', name, success)
  {
  }

  /** Whether enough has been heard does not depend on how the lists are ordered. */
  lemma SameHeard(j: JoinState, a: JoinState, b: JoinState, name: string, success: bool)
    requires OnRecord(j, a, name, success) && OnRecord(j, b, name, success)
    ensures EnoughHeard(a) <==> EnoughHeard(b)
  {
    NoDuplicatesCardinality(a.completed);
    NoDuplicatesCardinality(b.completed);
    NoDuplicatesCardinality(a.failed);
    NoDuplicatesCardinality(b.failed);
    assert Elements(a.completed) == Elements(b.completed) && Elements(a.failed) == Elements(b.failed);
  }

  // ---- A step below a condition ----

  /** The name stands in the list where the placeholder stood, or at the end if there was none. */
  ghost predicate TookPlace(list: seq<string>, list': seq<string>, placeholder: string, name: string) {
    if placeholder in list then
      exists n: nat :: n < |list| && list[n] == placeholder && placeholder !in list[..n] && list' == list[n := name]
    else list' == list + [name]
  }

  lemma {:induction false} ReplacedIs(list: seq<string>, x: string, y: string)
    ensures TookPlace(list, Replaced(list, x, y), x, y) && y in Replaced(list, x, y)
    decreases list
  {
    if list != [] {
      var rest := list[1..];
      assert list == [list[0]] + rest;
      if list[0] == x {
        assert list[0 := y] == [y] + rest;
        assert x !in list[..0];
      } else {
        ReplacedIs(rest, x, y);
        TookPlaceLater(list, Replaced(rest, x, y), x, y);
      }
    }
  }

  lemma TookPlaceLater(list: seq<string>, after: seq<string>, x: string, y: string)
    requires list != [] && list[0] != x && TookPlace(list[1..], after, x, y)
    ensures TookPlace(list, [list[0]] + after, x, y)
  {
    var rest := list[1..];
    assert list == [list[0]] + rest;
    if x in list {
      assert x in rest;
      var n: nat :| n < |rest| && rest[n] == x && x !in rest[..n] && after == rest[n := y];
      assert list[n + 1] == x && list[n + 1 := y] == [list[0]] + rest[n := y];
      assert list[..n + 1] == [list[0]] + rest[..n];
    }
  }

  lemma ReplaceWaitIs(j: JoinState, placeholder: string, name: string, status: Option<StepStatus>, success: bool)
    requires Listed(j)
    ensures var w := ReplaceWait(j, placeholder, name, status);
            && Listed(w) && TookPlace(j.waitingFor, w.waitingFor, placeholder, name) && name in w.waitingFor
            && (forall a :: OnRecord(w, a, name, success) ==> Recorded(j, a, name, success))
  {
    ReplacedIs(j.waitingFor, placeholder, name);
    hide Replaced, TookPlace;
    var w := ReplaceWait(j, placeholder, name, status);
    assert w.strategy == j.strategy;
    assert forall x :: x != name ==> (x in w.completed <==> x in j.completed) && (x in w.failed <==> x in j.failed);
  }

  /**
   A report from below a condition: the step takes the place of the condition's placeholder with
   the join around it, its outcome is on record there, and the join gets its one row exactly if
   it has heard enough and was not held both before the reports and when its turn came.
   */
  ghost predicate TakesPlace(p: State, t: State, i: nat, steps: Steps, name: string, success: bool, x: string,
        join: string)
    requires join in steps && (i, join) in p.joins
  {
    && (i, join) in t.joins
    && TookPlace(p.joins[(i, join)].waitingFor, t.joins[(i, join)].waitingFor, VirtualName(x), name)
    && Recorded(p.joins[(i, join)], t.joins[(i, join)], name, success)
    && exists m ::
         && Joined(p, m, i, steps) && NewNamed(p, m, join) == {}
         && |NewNamed(p, t, join)| ==
            if EnoughHeard(t.joins[(i, join)]) && !HasRow(p, i, join)
               && !(Held(p, i, steps, steps[join].waitFor) && Held(m, i, steps, steps[join].waitFor)) then 1 else 0
  }

  lemma PlaceholderTaken(p: State, i: nat, steps: Steps, depth: map<string, nat>, order: seq<string>, name: string,
        success: bool, x: string, join: string)
    requires WellLinked(p, i, steps, depth, order) && JoinsThere(p, i, steps, name) && NoDuplicates(order)
    requires name in steps && NearestAbove(steps, name, Condition, x) && JoinAround(steps, name, join)
    requires join in steps && steps[join].kind == Join && (i, join) in p.joins && Listed(p.joins[(i, join)])
    ensures TakesPlace(p, Tell(p, i, steps, order, name, success).0, i, steps, name, success, x, join)
  {
    hide WellLinked, JoinsThere, NearestAbove, JoinAround, Notify, NotifyOne, ReplaceWait, Listed, OnRecord, Recorded;
    hide TookPlace, Joined, NotToldYet, Due, HasRow, NewNamed, Held, EnoughHeard, PrepareJoins;
    var key, j := (i, join), p.joins[(i, join)];
    var rw := ReplaceWait(j, VirtualName(x), name, FirstStatus(p, i, name, p.nextRow));
    var s1 := PutJoin(p, i, join, rw);
    var s2, t := NotifyOne(s1, i, steps, order, join, name, success).0, Tell(p, i, steps, order, name, success).0;
    PlaceholderPrepared(p, i, steps, depth, order, name, success, x, join);
    assert PrepareJoins(p, i, steps, order, name, success) == s2;
    ReplaceWaitIs(j, VirtualName(x), name, FirstStatus(p, i, name, p.nextRow), success);
    OneIsIssued(p, i, steps, depth, order);
    PutJoinJoined(p, i, steps, join, rw);
    WellLinkedStays(p, s1, i, steps, depth, order);
    assert JoinsThere(s1, i, steps, name) by { PutKeepsThere(p, i, steps, name, join, rw); }
    ReportIsOnRecord(s1, i, steps, order, join, name, success, join);
    RecordFacts(rw, s2.joins[key], name, success);
    JoinsThereGrow(s1, i, steps, order, join, name, success);
    ReportFiresIff(s1, i, steps, depth, order, join, name, success);
    WellLinkedStays(s1, s2, i, steps, depth, order);
    OrderHas(p, i, steps, depth, order, join);
    ReportsAreOnRecord(s2, i, steps, order, order, name, success, join, true);
    OnRecordTwice(rw, s2.joins[key], t.joins[key], name, success);
    NotifyFiresIff(s2, i, steps, depth, order, order, name, success, join);
    OneIsIssued(s2, i, steps, depth, order);
    NotifyJoined(s2, i, steps, order, order, name, success);
    PlaceholderFires(p, s1, s2, t, i, steps, depth, order, name, success, join);
  }

  lemma PutKeepsThere(p: State, i: nat, steps: Steps, name: string, join: string, j: JoinState)
    requires JoinsThere(p, i, steps, name)
    ensures JoinsThere(PutJoin(p, i, join, j), i, steps, name)
  {
  }

  lemma {:induction false} PlaceholderPrepared(p: State, i: nat, steps: Steps, depth: map<string, nat>,
        order: seq<string>, name: string, success: bool, x: string, join: string)
    requires WellLinked(p, i, steps, depth, order) && name in steps && (i, join) in p.joins
    requires NearestAbove(steps, name, Condition, x) && JoinAround(steps, name, join) && join in steps
    ensures var rw := ReplaceWait(p.joins[(i, join)], VirtualName(x), name, FirstStatus(p, i, name, p.nextRow));
            PrepareJoins(p, i, steps, order, name, success)
            == NotifyOne(PutJoin(p, i, join, rw), i, steps, order, join, name, success).0
  {
    hide Linked, NearestAbove, JoinAround, NotifyOne, ReplaceWait, FirstStatus, JoinFor, ConditionAbove, Issued;
    hide PutJoin;
    NoEmptyName(steps, depth);
    JoinForIs(steps, depth, order, name, join);
    ConditionAboveIs(steps, depth, name);
    NearestExcludesNone(steps, name, Condition, x);
    OnlyOneNearest(steps, depth, name, Condition, x, ConditionAbove(steps, steps[name]));
  }

  lemma PlaceholderFires(p: State, s1: State, s2: State, t: State, i: nat, steps: Steps, depth: map<string, nat>,
        order: seq<string>, name: string, success: bool, join: string)
    requires WellLinked(p, i, steps, depth, order) && WellLinked(s2, i, steps, depth, order)
    requires join in steps && steps[join].kind == Join && (i, join) in p.joins
    requires (i, join) in s1.joins && s1 == PutJoin(p, i, join, s1.joins[(i, join)])
    requires s2 == NotifyOne(s1, i, steps, order, join, name, success).0 && (i, join) in s2.joins
    requires (i, join) in t.joins
    requires forall n :: |NewNamed(s1, s2, n)| ==
               if n == join && Due(s1, i, steps, join, name, success) && !HasRow(s1, i, join) then 1 else 0
    requires Joined(s1, s2, i, steps) && FiresIff(s2, t, i, steps, join, name, success) && Joined(s2, t, i, steps)
    requires Listed(s1.joins[(i, join)])
    requires OnRecord(s1.joins[(i, join)], s2.joins[(i, join)], name, success)
    requires OnRecord(s1.joins[(i, join)], t.joins[(i, join)], name, success)
    ensures exists m ::
         && Joined(p, m, i, steps) && NewNamed(p, m, join) == {}
         && |NewNamed(p, t, join)| ==
            if EnoughHeard(t.joins[(i, join)]) && !HasRow(p, i, join)
               && !(Held(p, i, steps, steps[join].waitFor) && Held(m, i, steps, steps[join].waitFor)) then 1 else 0
  {
    hide WellLinked, NotifyOne, NewNamed, HasRow, Held, EnoughHeard, NotToldYet, Joined, OnRecord, Listed, Update;
    var key := (i, join);
    OneIsIssued(p, i, steps, depth, order);
    PutJoinJoined(p, i, steps, join, s1.joins[key]);
    PutJoinNames(p, i, steps, join, s1.joins[key]);
    HeldLooksAtRows(p, s1, i, steps, steps[join].waitFor);
    HasRowLooksAtRows(p, s1, i, join);
    UpdateIsOnRecord(s1.joins[key], name, success);
    SameHeard(s1.joins[key], Update(s1.joins[key], name, success), t.joins[key], name, success);
    var m :| NotToldYet(s2, m, i, steps, join)
             && |NewNamed(s2, t, join)| ==
                  if Due(m, i, steps, join, name, success) && !HasRow(s2, i, join) then 1 else 0;
    NotToldState(s2, m, i, steps, join);
    RecordFacts(s1.joins[key], s2.joins[key], name, success);
    UpdateIsOnRecord(s2.joins[key], name, success);
    OnRecordTwice(s1.joins[key], s2.joins[key], Update(s2.joins[key], name, success), name, success);
    SameHeard(s1.joins[key], Update(s2.joins[key], name, success), t.joins[key], name, success);
    NotToldJoined(s2, m, i, steps, join);
    JoinedTwice(p, s1, s2, i, steps);
    JoinedTwice(p, s2, m, i, steps);
    JoinedItself(p, i, steps);
    Counts(p, s1, s2, i, steps, join);
    Counts(p, s2, t, i, steps, join);
    Counts(p, s2, m, i, steps, join);
    NoneOfItself(p, join);
    RowsFrom(p, s2, i, steps, join);
    NoneFromNotTold(s2, m, i, steps, join);
    if |NewNamed(p, s2, join)| == 0 {
      assert Joined(p, m, i, steps) && NewNamed(p, m, join) == {};
    } else {
      assert Joined(p, p, i, steps) && NewNamed(p, p, join) == {};
    }
  }

  lemma Counts(p: State, a: State, b: State, i: nat, steps: Steps, join: string)
    requires Joined(p, a, i, steps) && Joined(a, b, i, steps)
    ensures |NewNamed(p, b, join)| == |NewNamed(p, a, join)| + |NewNamed(a, b, join)|
  {
    JoinedGrown(p, a, i, steps);
    JoinedGrown(a, b, i, steps);
    hide Grown, Joined;
    NamedTwice(p, a, b, i, join);
  }

  lemma NoneOfItself(p: State, join: string)
    ensures NewNamed(p, p, join) == {}
  {
  }

  lemma NoneFromNotTold(s: State, m: State, i: nat, steps: Steps, join: string)
    requires NotToldYet(s, m, i, steps, join)
    ensures |NewNamed(s, m, join)| == 0
  {
  }

  lemma RowsFrom(p: State, a: State, i: nat, steps: Steps, join: string)
    requires Joined(p, a, i, steps)
    ensures HasRow(a, i, join) <==> HasRow(p, i, join) || NewNamed(p, a, join) != {}
  {
    hide Issued;
    if HasRow(a, i, join) {
      var k: nat :| k in a.rows && a.rows[k].instance == i && a.rows[k].name == join;
      if k in p.rows {
        assert a.rows[k] == p.rows[k];
      } else {
        assert k in NewNamed(p, a, join);
      }
    }
    if HasRow(p, i, join) {
      var k: nat :| k in p.rows && p.rows[k].instance == i && p.rows[k].name == join;
      assert k in a.rows && a.rows[k] == p.rows[k];
    }
    if NewNamed(p, a, join) != {} {
      var k :| k in NewNamed(p, a, join);
      assert FreshRow(a, i, k);
    }
  }

  // ---- The end of a branch ----

  /** A step that ends a branch joins the wait list, and the join fires as for any step it waits for. */
  ghost predicate IsAwaitedNow(p: State, t: State, i: nat, steps: Steps, name: string, join: string)
    requires join in steps && (i, join) in p.joins
  {
    && (i, join) in t.joins
    && t.joins[(i, join)].waitingFor == p.joins[(i, join)].waitingFor + [name]
    && Recorded(p.joins[(i, join)], t.joins[(i, join)], name, true)
    && exists m ::
         && Joined(p, m, i, steps) && NewNamed(p, m, join) == {}
         && |NewNamed(p, t, join)| ==
            if EnoughHeard(t.joins[(i, join)]) && !HasRow(p, i, join) && !Held(m, i, steps, steps[join].waitFor)
            then 1 else 0
  }

  lemma BranchEndIsAwaited(p: State, i: nat, steps: Steps, depth: map<string, nat>, order: seq<string>, name: string,
        join: string)
    requires WellLinked(p, i, steps, depth, order) && JoinsThere(p, i, steps, name) && NoDuplicates(order)
    requires name in steps && steps[name].kind != Join && steps[name].next == []
    requires NoConditionAbove(steps, name) && JoinAround(steps, name, join)
    requires join in steps && steps[join].kind == Join && (i, join) in p.joins && Listed(p.joins[(i, join)])
    requires name !in p.joins[(i, join)].waitingFor && forall w :: w in p.joins[(i, join)].waitingFor ==> !IsVirtual(w)
    ensures IsAwaitedNow(p, Tell(p, i, steps, order, name, true).0, i, steps, name, join)
  {
    hide WellLinked, JoinsThere, JoinAround, Notify, Listed, OnRecord, Recorded, NoConditionAbove;
    hide Joined, NotToldYet, Due, HasRow, NewNamed, Held, EnoughHeard, PrepareJoins, AddWait;
    var key, j := (i, join), p.joins[(i, join)];
    var s1, t := PutJoin(p, i, join, AddWait(j, name)), Tell(p, i, steps, order, name, true).0;
    TerminalPrepared(p, i, steps, depth, order, name, join);
    AddWaitIs(j, name);
    OneIsIssued(p, i, steps, depth, order);
    PutJoinJoined(p, i, steps, join, AddWait(j, name));
    PutJoinNames(p, i, steps, join, AddWait(j, name));
    WellLinkedStays(p, s1, i, steps, depth, order);
    assert JoinsThere(s1, i, steps, name) by { PutKeepsThere(p, i, steps, name, join, AddWait(j, name)); }
    OrderHas(p, i, steps, depth, order, join);
    ReportsAreOnRecord(s1, i, steps, order, order, name, true, join, false);
    NotifyFiresIff(s1, i, steps, depth, order, order, name, true, join);
    OneIsIssued(s1, i, steps, depth, order);
    NotifyJoined(s1, i, steps, order, order, name, true);
    var m :| NotToldYet(s1, m, i, steps, join)
             && |NewNamed(s1, t, join)| == if Due(m, i, steps, join, name, true) && !HasRow(s1, i, join) then 1 else 0;
    NotToldState(s1, m, i, steps, join);
    NotToldJoined(s1, m, i, steps, join);
    NoneFromNotTold(s1, m, i, steps, join);
    JoinedTwice(p, s1, m, i, steps);
    Counts(p, s1, t, i, steps, join);
    Counts(p, s1, m, i, steps, join);
    HasRowLooksAtRows(p, s1, i, join);
    UpdateIsOnRecord(s1.joins[key], name, true);
    SameHeard(s1.joins[key], Update(s1.joins[key], name, true), t.joins[key], name, true);
    WaitedRecord(j, s1.joins[key], t.joins[key], name);
    assert Joined(p, m, i, steps) && NewNamed(p, m, join) == {};
    assert Recorded(j, t.joins[key], name, true) && t.joins[key].waitingFor == j.waitingFor + [name];
    assert |NewNamed(p, t, join)| == |NewNamed(s1, t, join)|;
    assert EnoughHeard(Update(s1.joins[key], name, true)) == EnoughHeard(t.joins[key]);
    DueIs(m, i, steps, join, name, true);
  }

  lemma DueIs(m: State, i: nat, steps: Steps, join: string, name: string, success: bool)
    requires join in steps && (i, join) in m.joins
    ensures Due(m, i, steps, join, name, success) <==>
              EnoughHeard(Update(m.joins[(i, join)], name, success)) && !Held(m, i, steps, steps[join].waitFor)
  {
  }

  lemma AddWaitIs(j: JoinState, name: string)
    requires name !in j.waitingFor
    ensures var w := AddWait(j, name);
            && w.waitingFor == j.waitingFor + [name] && w.completed == j.completed && w.failed == j.failed
            && w.strategy == j.strategy && (Listed(j) ==> Listed(w))
  {
  }

  lemma WaitedRecord(j: JoinState, w: JoinState, j': JoinState, name: string)
    requires w.waitingFor == j.waitingFor + [name] && w.completed == j.completed && w.failed == j.failed
    requires w.strategy == j.strategy && OnRecord(w, j', name, true)
    ensures Recorded(j, j', name, true) && j'.waitingFor == j.waitingFor + [name]
  {
  }

  lemma TerminalPrepared(p: State, i: nat, steps: Steps, depth: map<string, nat>, order: seq<string>, name: string,
        join: string)
    requires WellLinked(p, i, steps, depth, order) && name in steps && (i, join) in p.joins
    requires steps[name].kind != Join && steps[name].next == []
    requires NoConditionAbove(steps, name) && JoinAround(steps, name, join)
    requires name !in p.joins[(i, join)].waitingFor && forall w :: w in p.joins[(i, join)].waitingFor ==> !IsVirtual(w)
    ensures PrepareJoins(p, i, steps, order, name, true) == PutJoin(p, i, join, AddWait(p.joins[(i, join)], name))
  {
    hide Linked, JoinAround, JoinFor, ConditionAbove, Issued, PutJoin, NoConditionAbove, AddWait, ForkAround;
    NoEmptyName(steps, depth);
    JoinForIs(steps, depth, order, name, join);
    NoPlaceholder(steps, depth, name);
    assert join != "" by { JoinForIsNoName(steps, order, name, join); }
  }

  lemma JoinForIsNoName(steps: Steps, order: seq<string>, name: string, join: string)
    requires "" !in steps && JoinFor(steps, order, name) == join && JoinAround(steps, name, join)
    ensures join != ""
  {
  }

  // ---- One execution ----

  /** What follows the reports leaves the states of joins alone, and brings no row of this one. */
  lemma {:induction false} EnqueueNextJoins(s: State, i: nat, steps: Steps, names: seq<string>, skipJoins: bool)
    ensures EnqueueNext(s, i, steps, names, skipJoins).0.joins == s.joins
    decreases names
  {
    hide Enqueue, CreateRow;
    if names != [] && names[0] in steps {
      var row := Row(i, names[0], steps[names[0]].kind, Pending, 0, steps[names[0]].maxRetries, 0);
      ComesWithoutJoins(s, row, i);
      EnqueueNextJoins(Enqueue(CreateRow(s, row), i, s.nextRow), i, steps, names[1..], skipJoins);
      EnqueueNextJoins(s, i, steps, names[1..], skipJoins);
    }
  }

  lemma ComesWithoutJoins(s: State, row: Row, i: nat)
    ensures Enqueue(CreateRow(s, row), i, s.nextRow).joins == s.joins
  {
  }

  lemma AfterTellingJoins(s: State, q: nat, i: nat, id: nat, name: string, c: Choice)
    requires Picks(s, q, i, id, name) && Undisturbed(s, i, c)
    requires var steps := DefOf(s, i).steps;
             && LeadsToSteps(steps, steps[name]) && JoinsThere(s, i, steps, name) && Passes(s, i, steps[name], name, c)
    ensures ExecuteNext(s, q, c).joins == Told(s, q, i, id, name, c).joins
  {
    hide Issued, Told, EnqueueNext, CompleteWorkflow, Unfinished, Passes, JoinsThere, ExecuteNext;
    hide Settled, Entries, Grown, OnlyJoins, NewOfSteps, NewNamed;
    var steps := DefOf(s, i).steps;
    var d, t := steps[name], Told(s, q, i, id, name, c);
    SuccessIs(s, q, i, id, name, c);
    ToldAdds(s, q, i, id, name, c);
    EnqueueNextJoins(t, i, steps, Follows(d, c.takesNext), !(d.kind == Condition && !c.takesNext));
    CompleteWorkflowKeeps(t, i, steps);
  }

  /** The joins around the step can be told and list each report once. */
  ghost predicate CanReport(s: State, i: nat, steps: Steps, depth: map<string, nat>, order: seq<string>, name: string,
        join: string)
  {
    && Linked(steps, depth) && (forall n :: n in steps ==> n in order) && NoDuplicates(order)
    && (forall k: nat :: IsRowOf(s, i, k) ==> s.rows[k].name in steps)
    && name in steps && LeadsToSteps(steps, steps[name]) && JoinsThere(s, i, steps, name)
    && JoinAround(steps, name, join) && join in steps && steps[join].kind == Join && steps[name].els != join
    && (i, join) in s.joins && Listed(s.joins[(i, join)])
  }

  lemma DecidedCanTell(s: State, q: nat, i: nat, id: nat, name: string, c: Choice, depth: map<string, nat>,
        join: string)
    requires Picks(s, q, i, id, name) && CanReport(s, i, DefOf(s, i).steps, depth, c.order, name, join)
    ensures var steps, p := DefOf(s, i).steps, Decided(s, q, i, id, name, c);
            && WellLinked(p, i, steps, depth, c.order) && JoinsThere(p, i, steps, name)
            && (i, join) in p.joins && p.joins[(i, join)] == s.joins[(i, join)]
            && BranchesCome(Settled(s, q, id, StepStatus.Completed, Entries(steps[name], id, true)), p, i, steps[name])
  {
    hide Issued, Linked, JoinAround, Grown, Decided, Settled, Entries, Listed;
    var steps := DefOf(s, i).steps;
    var base, p := Settled(s, q, id, StepStatus.Completed, Entries(steps[name], id, true)),
        Decided(s, q, i, id, name, c);
    DecidedAdds(s, q, i, id, name, c);
    SettledInstances(s, q, id, StepStatus.Completed, Entries(steps[name], id, true));
    forall k: nat | IsRowOf(p, i, k)
      ensures p.rows[k].name in steps
    {
      SettledIdentity(s, q, id, StepStatus.Completed, Entries(steps[name], id, true), k);
      if k in base.rows { OldRowStays(base, p, i, k); }
    }
  }

  /** A step below a condition succeeds: it takes the place of the condition's placeholder. */
  lemma SuccessTakesPlace(s: State, q: nat, i: nat, id: nat, name: string, c: Choice, depth: map<string, nat>,
        x: string, join: string)
    requires Picks(s, q, i, id, name) && Undisturbed(s, i, c)
    requires CanReport(s, i, DefOf(s, i).steps, depth, c.order, name, join)
    requires Passes(s, i, DefOf(s, i).steps[name], name, c) && NearestAbove(DefOf(s, i).steps, name, Condition, x)
    ensures var steps := DefOf(s, i).steps;
            exists p ::
              && BranchesCome(Settled(s, q, id, StepStatus.Completed, Entries(steps[name], id, true)), p, i,
                              steps[name])
              && (i, join) in p.joins && p.joins[(i, join)] == s.joins[(i, join)]
              && TakesPlace(p, ExecuteNext(s, q, c), i, steps, name, true, x, join)
  {
    hide Issued, Linked, JoinsThere, Settled, Entries, ExecuteNext, Tell, Decided, WellLinked, JoinAround, NearestAbove;
    hide Joined, HasRow, NewNamed, Passes, BranchesCome, NewOfSteps, Listed, Held, Recorded, TookPlace;
    var steps, p := DefOf(s, i).steps, Decided(s, q, i, id, name, c);
    DecidedCanTell(s, q, i, id, name, c, depth, join);
    PlaceholderTaken(p, i, steps, depth, c.order, name, true, x, join);
    OneIsIssued(p, i, steps, depth, c.order);
    TellJoined(p, i, steps, c.order, name, true);
    ToldIs(s, q, i, id, name, c);
    AfterTelling(s, q, i, id, name, c, join);
    AfterTellingJoins(s, q, i, id, name, c);
    SameTakesPlace(p, Told(s, q, i, id, name, c), ExecuteNext(s, q, c), i, steps, name, true, x, join);
  }

  lemma SameTakesPlace(p: State, t: State, s': State, i: nat, steps: Steps, name: string, success: bool, x: string,
        join: string)
    requires join in steps && (i, join) in p.joins && TakesPlace(p, t, i, steps, name, success, x, join)
    requires s'.joins == t.joins && |NewNamed(p, s', join)| == |NewNamed(p, t, join)|
    ensures TakesPlace(p, s', i, steps, name, success, x, join)
  {
    hide Joined, HasRow, NewNamed, Held, Recorded, TookPlace;
  }

  /** A step that ends a branch and succeeds: the join waits for it from now on, and has its report. */
  lemma SuccessIsAwaited(s: State, q: nat, i: nat, id: nat, name: string, c: Choice, depth: map<string, nat>,
        join: string)
    requires Picks(s, q, i, id, name) && Undisturbed(s, i, c)
    requires CanReport(s, i, DefOf(s, i).steps, depth, c.order, name, join)
    requires Passes(s, i, DefOf(s, i).steps[name], name, c) && NoConditionAbove(DefOf(s, i).steps, name)
    requires DefOf(s, i).steps[name].kind != Join && DefOf(s, i).steps[name].next == []
    requires var list := s.joins[(i, join)].waitingFor; name !in list && forall w :: w in list ==> !IsVirtual(w)
    ensures var steps := DefOf(s, i).steps;
            exists p ::
              && BranchesCome(Settled(s, q, id, StepStatus.Completed, Entries(steps[name], id, true)), p, i,
                              steps[name])
              && (i, join) in p.joins && p.joins[(i, join)] == s.joins[(i, join)]
              && IsAwaitedNow(p, ExecuteNext(s, q, c), i, steps, name, join)
  {
    hide Issued, Linked, JoinsThere, Settled, Entries, ExecuteNext, Tell, Decided, WellLinked, JoinAround;
    hide Joined, HasRow, NewNamed, Passes, BranchesCome, NewOfSteps, Listed, Held, Recorded, NoConditionAbove;
    var steps, p := DefOf(s, i).steps, Decided(s, q, i, id, name, c);
    DecidedCanTell(s, q, i, id, name, c, depth, join);
    BranchEndIsAwaited(p, i, steps, depth, c.order, name, join);
    OneIsIssued(p, i, steps, depth, c.order);
    TellJoined(p, i, steps, c.order, name, true);
    ToldIs(s, q, i, id, name, c);
    AfterTelling(s, q, i, id, name, c, join);
    AfterTellingJoins(s, q, i, id, name, c);
    SameAwaited(p, Told(s, q, i, id, name, c), ExecuteNext(s, q, c), i, steps, name, join);
  }

  lemma SameAwaited(p: State, t: State, s': State, i: nat, steps: Steps, name: string, join: string)
    requires join in steps && (i, join) in p.joins && IsAwaitedNow(p, t, i, steps, name, join)
    requires s'.joins == t.joins && |NewNamed(p, s', join)| == |NewNamed(p, t, join)|
    ensures IsAwaitedNow(p, s', i, steps, name, join)
  {
    hide Joined, HasRow, NewNamed, Held, Recorded;
  }

  /** The last failure of a step below a condition, where dead letters are off, reports in the same way. */
  lemma FailureTakesPlace(s: State, q: nat, i: nat, id: nat, name: string, c: Choice, depth: map<string, nat>,
        x: string, join: string)
    requires Picks(s, q, i, id, name) && Undisturbed(s, i, c)
    requires CanReport(s, i, DefOf(s, i).steps, depth, c.order, name, join) && !DefOf(s, i).dlqEnabled
    requires !Passes(s, i, DefOf(s, i).steps[name], name, c) && !TriesAgain(DefOf(s, i).steps[name], s.rows[id])
    requires NearestAbove(DefOf(s, i).steps, name, Condition, x)
    ensures var steps := DefOf(s, i).steps;
            var base := Settled(s, q, id, StepStatus.Failed, Entries(steps[name], id, false));
            && (i, join) in base.joins
            && TakesPlace(base, ExecuteNext(s, q, c), i, steps, name, false, x, join)
  {
    hide Issued, Linked, JoinsThere, NearestAbove, Settled, Entries, ExecuteNext, Tell, WellLinked, Ranned, Listed;
    hide Joined, HasRow, NewNamed, Passes, Unwind, Started, SetStatus, SetInstance, Keeps, Held, JoinAround;
    hide Recorded, TookPlace;
    var steps := DefOf(s, i).steps;
    var base, s' := Settled(s, q, id, StepStatus.Failed, Entries(steps[name], id, false)), ExecuteNext(s, q, c);
    FailureIs(s, q, i, id, name, c);
    SettledIs(s, q, id, steps[name], StepStatus.Failed, false);
    FailedCanTell(s, q, i, id, name, c, depth, join);
    OneIsIssued(base, i, steps, depth, c.order);
    var t := Tell(base, i, steps, c.order, name, false).0;
    PlaceholderTaken(base, i, steps, depth, c.order, name, false, x, join);
    TellSucceeds(base, i, steps, c.order, name, false);
    TellJoined(base, i, steps, c.order, name, false);
    StillRuns(base, t, i, steps);
    UnwindKeeps(t, i, steps, name, c);
    FailNames(base, t, Unwind(t, i, steps, name, c), i, join);
    FailJoins(t, Unwind(t, i, steps, name, c), i);
    SameTakesPlace(base, t, s', i, steps, name, false, x, join);
  }

  lemma FailJoins(t: State, v: State, i: nat)
    requires Quiet(t, v)
    ensures SetInstance(v, i, WorkflowStatus.Failed).joins == t.joins
  {
  }

  lemma FailedCanTell(s: State, q: nat, i: nat, id: nat, name: string, c: Choice, depth: map<string, nat>, join: string)
    requires Picks(s, q, i, id, name) && CanReport(s, i, DefOf(s, i).steps, depth, c.order, name, join)
    ensures var steps := DefOf(s, i).steps;
            var base := Settled(s, q, id, StepStatus.Failed, Entries(steps[name], id, false));
            && WellLinked(base, i, steps, depth, c.order) && JoinsThere(base, i, steps, name)
            && (i, join) in base.joins && base.joins[(i, join)] == s.joins[(i, join)]
  {
    hide Issued, Linked, JoinAround, Settled, Entries, Listed;
    var steps := DefOf(s, i).steps;
    SettledIssued(s, q, i, id, name, StepStatus.Failed, false);
    SettledInstances(s, q, id, StepStatus.Failed, Entries(steps[name], id, false));
    forall k: nat
      ensures IsRowOf(Settled(s, q, id, StepStatus.Failed, Entries(steps[name], id, false)), i, k) ==>
                Settled(s, q, id, StepStatus.Failed, Entries(steps[name], id, false)).rows[k].name in steps
    {
      SettledIdentity(s, q, id, StepStatus.Failed, Entries(steps[name], id, false), k);
    }
  }
}
