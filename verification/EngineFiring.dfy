/**
 When a join gets its row: exactly when a report makes up enough of them and no step that the
 join does not wait for is still active in the branches of the fork it closes.
 */
module EngineFiring {
  import opened Definitions
  import opened Graphs
  import opened Links
  import opened Searches
  import opened Rollback
  import opened JoinStates
  import opened Validator
  import opened Engine
  import opened EngineFrame
  import opened EngineEffects
  import opened EngineFailures
  import opened EngineOutcomes
  import EngineJoins

  /** `w` begins a branch of some fork. */
  ghost predicate BeginsBranch(steps: Steps, w: string) {
    exists f :: f in steps && steps[f].kind == Fork && w in steps[f].parallel
  }

  /** The first awaited name that has a row and begins a branch of a fork. */
  ghost predicate FirstBranch(s: State, i: nat, steps: Steps, waitFor: seq<string>, n: nat) {
    && n < |waitFor| && HasRow(s, i, waitFor[n]) && BeginsBranch(steps, waitFor[n])
    && forall m :: 0 <= m < n ==> !(HasRow(s, i, waitFor[m]) && BeginsBranch(steps, waitFor[m]))
  }

  /** An active row that is not awaited, in the branches of the fork that the awaited steps show. */
  ghost predicate Held(s: State, i: nat, steps: Steps, waitFor: seq<string>) {
    exists n: nat, f, k: nat ::
      && n < |waitFor| && FirstBranch(s, i, steps, waitFor, n)
      && f in steps && steps[f].kind == Fork && waitFor[n] in steps[f].parallel
      && IsActive(s, i, k) && s.rows[k].name !in waitFor && BelowFork(steps, f, s.rows[k].name)
  }

  lemma {:induction false} ForkAwaitedIs(s: State, i: nat, steps: Steps, order: seq<string>, waitFor: seq<string>)
    requires "" !in steps && forall n :: n in steps ==> n in order
    ensures var f := ForkAwaited(s, i, steps, order, waitFor);
            && (f == "" ==> forall m :: 0 <= m < |waitFor| ==>
                   !(HasRow(s, i, waitFor[m]) && BeginsBranch(steps, waitFor[m])))
            && (f != "" ==> exists n: nat ::
                   n < |waitFor| && FirstBranch(s, i, steps, waitFor, n) && waitFor[n] in steps[f].parallel)
    decreases waitFor
  {
    hide HasRow;
    if waitFor != [] {
      var w := waitFor[0];
      var f := ForkOf(steps, order, w);
      if BeginsBranch(steps, w) {
        var g :| g in steps && steps[g].kind == Fork && w in steps[g].parallel;
        ForkOfIs(steps, order, w, g);
      }
      if HasRow(s, i, w) && f != "" {
        assert BeginsBranch(steps, w);
        assert FirstBranch(s, i, steps, waitFor, 0);
      } else {
        ForkAwaitedIs(s, i, steps, order, waitFor[1..]);
        LaterBranch(s, i, steps, waitFor, ForkAwaited(s, i, steps, order, waitFor[1..]));
      }
    }
  }

  lemma LaterBranch(s: State, i: nat, steps: Steps, waitFor: seq<string>, f: string)
    requires waitFor != [] && !(HasRow(s, i, waitFor[0]) && BeginsBranch(steps, waitFor[0])) && (f != "" ==> f in steps)
    requires var rest := waitFor[1..];
             && (f == "" ==> forall m :: 0 <= m < |rest| ==> !(HasRow(s, i, rest[m]) && BeginsBranch(steps, rest[m])))
             && (f != "" ==> exists n: nat ::
                    n < |rest| && FirstBranch(s, i, steps, rest, n) && rest[n] in steps[f].parallel)
    ensures f == "" ==> forall m :: 0 <= m < |waitFor| ==>
            !(HasRow(s, i, waitFor[m]) && BeginsBranch(steps, waitFor[m]))
    ensures f != "" ==> exists n: nat ::
            n < |waitFor| && FirstBranch(s, i, steps, waitFor, n) && waitFor[n] in steps[f].parallel
  {
    hide HasRow, BeginsBranch;
    var rest := waitFor[1..];
    assert forall m :: 0 < m < |waitFor| ==> waitFor[m] == rest[m - 1];
    if f != "" {
      var n: nat :| n < |rest| && FirstBranch(s, i, steps, rest, n) && rest[n] in steps[f].parallel;
      assert FirstBranch(s, i, steps, waitFor, n + 1);
    }
  }

  lemma OnlyOneFirst(s: State, i: nat, steps: Steps, waitFor: seq<string>, n: nat, m: nat)
    requires FirstBranch(s, i, steps, waitFor, n) && FirstBranch(s, i, steps, waitFor, m)
    ensures n == m
  {
  }

  /** The pending test, on linked definitions. */
  lemma PendingIsHeld(s: State, i: nat, steps: Steps, depth: map<string, nat>, order: seq<string>, waitFor: seq<string>)
    requires Linked(steps, depth) && forall n :: n in steps ==> n in order
    requires forall k: nat :: IsRowOf(s, i, k) ==> s.rows[k].name in steps
    ensures BranchesPending(s, i, steps, order, waitFor) <==> Held(s, i, steps, waitFor)
  {
    hide Linked, FirstBranch, BeginsBranch, InBranch, BelowFork;
    NoEmptyName(steps, depth);
    ForkAwaitedIs(s, i, steps, order, waitFor);
    var f := ForkAwaited(s, i, steps, order, waitFor);
    if BranchesPending(s, i, steps, order, waitFor) {
      var n: nat :| n < |waitFor| && FirstBranch(s, i, steps, waitFor, n) && waitFor[n] in steps[f].parallel;
      var k :| IsRowOf(s, i, k) && Active(s.rows[k].status)
               && s.rows[k].name !in waitFor && InBranch(steps, s.rows[k].name, f);
      InBranchIsBelow(steps, depth, f, s.rows[k].name);
      assert IsActive(s, i, k);
    }
    if Held(s, i, steps, waitFor) {
      var n: nat, g, k: nat :| n < |waitFor| && FirstBranch(s, i, steps, waitFor, n)
        && g in steps && steps[g].kind == Fork && waitFor[n] in steps[g].parallel
        && IsActive(s, i, k) && s.rows[k].name !in waitFor && BelowFork(steps, g, s.rows[k].name);
      FirstIsAwaited(s, i, steps, waitFor, n);
      assert f != "";
      var m: nat :| m < |waitFor| && FirstBranch(s, i, steps, waitFor, m) && waitFor[m] in steps[f].parallel;
      OnlyOneFirst(s, i, steps, waitFor, n, m);
      OnlyOneFork(steps, depth, f, g, waitFor[n]);
      InBranchIsBelow(steps, depth, f, s.rows[k].name);
    }
  }

  lemma FirstIsAwaited(s: State, i: nat, steps: Steps, waitFor: seq<string>, n: nat)
    requires FirstBranch(s, i, steps, waitFor, n)
    ensures n < |waitFor| && HasRow(s, i, waitFor[n]) && BeginsBranch(steps, waitFor[n])
  {
  }

  // ---- One report ----

  /** Any report is enough for one strategy, as many as there are awaited names for the other. */
  predicate EnoughHeard(j: JoinState) {
    match j.strategy
    case Any => j.completed != [] || j.failed != []
    case All => |j.completed| + |j.failed| >= |j.waitingFor|
  }

  /** Facts about the instance that the pending test rests on. */
  ghost predicate WellLinked(s: State, i: nat, steps: Steps, depth: map<string, nat>, order: seq<string>) {
    && Issued(s) && i in s.instances && !InDlq(s, i) && Linked(steps, depth)
    && (forall n :: n in steps ==> n in order)
    && (forall k: nat :: IsRowOf(s, i, k) ==> s.rows[k].name in steps)
  }

  /** Whether the join is due once `name` has reported to it. */
  ghost predicate Due(s: State, i: nat, steps: Steps, join: string, name: string, success: bool)
    requires join in steps
  {
    && (i, join) in s.joins
    && EnoughHeard(Update(s.joins[(i, join)], name, success))
    && !Held(s, i, steps, steps[join].waitFor)
  }

  lemma HeldLooksAtRows(s: State, s1: State, i: nat, steps: Steps, waitFor: seq<string>)
    requires s1.rows == s.rows
    ensures Held(s1, i, steps, waitFor) <==> Held(s, i, steps, waitFor)
  {
    assert forall n :: HasRow(s1, i, n) <==> HasRow(s, i, n);
    hide HasRow;
    assert forall n: nat :: FirstBranch(s1, i, steps, waitFor, n) <==> FirstBranch(s, i, steps, waitFor, n);
    hide FirstBranch, BelowFork;
    assert forall k: nat :: IsActive(s1, i, k) <==> IsActive(s, i, k);
  }

  /** A report gives the join its one row exactly if the join is due and has none yet. */
  lemma ReportFiresIff(s: State, i: nat, steps: Steps, depth: map<string, nat>, order: seq<string>, join: string,
        name: string, success: bool)
    requires WellLinked(s, i, steps, depth, order) && join in steps && steps[join].kind == Join && (i, join) in s.joins
    ensures var s' := NotifyOne(s, i, steps, order, join, name, success).0;
            && Joined(s, s', i, steps)
            && (forall n :: |NewNamed(s, s', n)| ==
                  if n == join && Due(s, i, steps, join, name, success) && !HasRow(s, i, join) then 1 else 0)
            && (forall key: Key :: key in s.joins && key != (i, join) ==>
                   key in s'.joins && s'.joins[key] == s.joins[key])
  {
    hide Issued, Linked, Joined, NewNamed, PutJoin, CreateJoinRow, BranchesPending, Held, HasRow, Update;
    var updated := Update(s.joins[(i, join)], name, success);
    var s1 := PutJoin(s, i, join, updated);
    PutJoinIs(s, i, join, updated);
    PutJoinIs(s1, i, join, Update(updated, name, success));
    PutJoinNames(s, i, steps, join, updated);
    PutJoinNames(s1, i, steps, join, Update(updated, name, success));
    PutJoinIssued(s, i, join, updated);
    PendingIsHeld(s1, i, steps, depth, order, steps[join].waitFor);
    HeldLooksAtRows(s, s1, i, steps, steps[join].waitFor);
    HasRowLooksAtRows(s, s1, i, join);
    UpdateReadyIff(s.joins[(i, join)], name, success);
    NotifyOneJoined(s, i, steps, order, join, name, success);
    JoinRowJoined(s1, i, steps, join);
    JoinRowJoins(s1, i, join);
    FromPut(s, s1, NotifyOne(s, i, steps, order, join, name, success).0);
  }

  lemma PutJoinIs(s: State, i: nat, join: string, j: JoinState)
    ensures var s1 := PutJoin(s, i, join, j);
            && s1 == s.(joins := s1.joins)
            && forall key: Key :: key in s.joins && key != (i, join) ==>
                 key in s1.joins && s1.joins[key] == s.joins[key]
  {
  }

  lemma PutJoinNames(s: State, i: nat, steps: Steps, join: string, j: JoinState)
    ensures forall n :: NewNamed(s, PutJoin(s, i, join, j), n) == {}
  {
  }

  lemma PutJoinIssued(s: State, i: nat, join: string, j: JoinState)
    requires Issued(s) && i in s.instances
    ensures Issued(PutJoin(s, i, join, j))
  {
    hide Keeps, Issued;
    PutJoinKeeps(s, i, join, j);
    KeptIsIssued(s, PutJoin(s, i, join, j), i);
  }

  lemma HasRowLooksAtRows(s: State, s1: State, i: nat, n: string)
    requires s1.rows == s.rows
    ensures HasRow(s1, i, n) <==> HasRow(s, i, n)
  {
  }

  lemma UpdateReadyIff(j: JoinState, name: string, success: bool)
    ensures Update(j, name, success).ready <==> EnoughHeard(Update(j, name, success))
  {
  }

  lemma JoinRowJoins(s: State, i: nat, join: string)
    ensures CreateJoinRow(s, i, join).joins == s.joins
  {
  }

  lemma FromPut(s: State, s1: State, s': State)
    requires s1 == s.(joins := s1.joins)
    ensures forall n :: NewNamed(s, s', n) == NewNamed(s1, s', n)
  {
  }

  // ---- All reports of a step ----

  lemma WellLinkedStays(s: State, s1: State, i: nat, steps: Steps, depth: map<string, nat>, order: seq<string>)
    requires WellLinked(s, i, steps, depth, order) && Joined(s, s1, i, steps)
    ensures WellLinked(s1, i, steps, depth, order)
  {
    hide Linked, FreshRow, Issued;
  }

  /** Other joins may have been told, but not this one. */
  ghost predicate NotToldYet(s: State, m: State, i: nat, steps: Steps, join: string) {
    && Joined(s, m, i, steps) && NewNamed(s, m, join) == {}
    && ((i, join) in s.joins ==> (i, join) in m.joins && m.joins[(i, join)] == s.joins[(i, join)])
  }

  lemma NotToldTwice(s: State, s1: State, m: State, i: nat, steps: Steps, join: string)
    requires NotToldYet(s, s1, i, steps, join) && NotToldYet(s1, m, i, steps, join)
    ensures NotToldYet(s, m, i, steps, join)
  {
    hide Joined;
    JoinedTwice(s, s1, m, i, steps);
    assert Grown(s, s1, i) && Grown(s1, m, i) by { JoinedGrown(s, s1, i, steps); JoinedGrown(s1, m, i, steps); }
    hide Grown;
    NamedTwice(s, s1, m, i, join);
  }

  lemma JoinedGrown(s: State, s1: State, i: nat, steps: Steps)
    requires Joined(s, s1, i, steps)
    ensures Grown(s, s1, i)
  {
  }

  lemma NotToldRows(s: State, m: State, i: nat, steps: Steps, join: string)
    requires NotToldYet(s, m, i, steps, join)
    ensures HasRow(m, i, join) <==> HasRow(s, i, join)
  {
    hide FreshRow, Issued;
    if HasRow(m, i, join) {
      var k: nat :| k in m.rows && m.rows[k].instance == i && m.rows[k].name == join;
      assert k !in NewNamed(s, m, join);
    }
    if HasRow(s, i, join) {
      var k: nat :| k in s.rows && s.rows[k].instance == i && s.rows[k].name == join;
      assert k in m.rows && m.rows[k] == s.rows[k];
    }
  }

  lemma NotToldItself(s: State, i: nat, steps: Steps, join: string)
    requires Issued(s)
    ensures NotToldYet(s, s, i, steps, join)
  {
    hide Issued, Joined;
    JoinedItself(s, i, steps);
  }

  /** A report to another join. */
  lemma OtherReport(s: State, i: nat, steps: Steps, depth: map<string, nat>, order: seq<string>, other: string,
        name: string, success: bool, join: string)
    requires WellLinked(s, i, steps, depth, order) && other in steps && steps[other].kind == Join && other != join
    requires (i, other) in s.joins
    ensures NotToldYet(s, NotifyOne(s, i, steps, order, other, name, success).0, i, steps, join)
  {
    hide WellLinked, Due, NotifyOne, Joined, HasRow;
    ReportFiresIff(s, i, steps, depth, order, other, name, success);
    var s' := NotifyOne(s, i, steps, order, other, name, success).0;
    assert |NewNamed(s, s', join)| == 0;
  }

  lemma OneIsIssued(s: State, i: nat, steps: Steps, depth: map<string, nat>, order: seq<string>)
    requires WellLinked(s, i, steps, depth, order)
    ensures Issued(s) && i in s.instances && !InDlq(s, i)
  {
  }

  lemma JoinsThereGrow(s: State, i: nat, steps: Steps, order: seq<string>, other: string, name: string, success: bool)
    requires JoinsThere(s, i, steps, name) && other in steps
    ensures JoinsThere(NotifyOne(s, i, steps, order, other, name, success).0, i, steps, name)
  {
    hide NotifyOne;
    NotifyOneSucceeds(s, i, steps, order, other, name, success);
  }

  lemma {:induction false} OtherReports(s: State, i: nat, steps: Steps, depth: map<string, nat>, order: seq<string>,
        rest: seq<string>, name: string, success: bool, join: string)
    requires WellLinked(s, i, steps, depth, order) && JoinsThere(s, i, steps, name) && join !in rest
    ensures NotToldYet(s, Notify(s, i, steps, order, rest, name, success).0, i, steps, join)
    decreases rest
  {
    hide WellLinked, NotToldYet, NotifyOne, Joined, JoinsThere;
    OneIsIssued(s, i, steps, depth, order);
    NotToldItself(s, i, steps, join);
    if rest != [] {
      if Waits(s, i, steps, rest[0], name) {
        var one := NotifyOne(s, i, steps, order, rest[0], name, success);
        WaitedIsThere(s, i, steps, rest[0], name);
        OtherReport(s, i, steps, depth, order, rest[0], name, success, join);
        NotToldJoined(s, one.0, i, steps, join);
        WellLinkedStays(s, one.0, i, steps, depth, order);
        JoinsThereGrow(s, i, steps, order, rest[0], name, success);
        OtherReports(one.0, i, steps, depth, order, rest[1..], name, success, join);
        NotToldTwice(s, one.0, Notify(one.0, i, steps, order, rest[1..], name, success).0, i, steps, join);
      } else {
        OtherReports(s, i, steps, depth, order, rest[1..], name, success, join);
      }
    }
  }

  lemma NotToldJoined(s: State, m: State, i: nat, steps: Steps, join: string)
    requires NotToldYet(s, m, i, steps, join)
    ensures Joined(s, m, i, steps)
  {
  }

  lemma WaitedIsThere(s: State, i: nat, steps: Steps, join: string, name: string)
    requires JoinsThere(s, i, steps, name) && Waits(s, i, steps, join, name)
    ensures (i, join) in s.joins && join in steps && steps[join].kind == Join
  {
  }

  /** Of all who are told, the join gets its one row exactly if it is due when its turn comes. */
  ghost predicate FiresIff(s: State, s': State, i: nat, steps: Steps, join: string, name: string, success: bool)
    requires join in steps
  {
    exists m ::
      && NotToldYet(s, m, i, steps, join)
      && |NewNamed(s, s', join)| == if Due(m, i, steps, join, name, success) && !HasRow(s, i, join) then 1 else 0
  }

  lemma {:induction false} NotifyFiresIff(s: State, i: nat, steps: Steps, depth: map<string, nat>, order: seq<string>,
        rest: seq<string>, name: string, success: bool, join: string)
    requires WellLinked(s, i, steps, depth, order) && JoinsThere(s, i, steps, name) && join in rest
    requires NoDuplicates(rest)
    requires join in steps && steps[join].kind == Join
    requires (i, join) in s.joins && name in s.joins[(i, join)].waitingFor
    ensures FiresIff(s, Notify(s, i, steps, order, rest, name, success).0, i, steps, join, name, success)
    decreases rest
  {
    hide WellLinked, NotToldYet, NotifyOne, Joined, JoinsThere, Due, HasRow, NewNamed;
    OneIsIssued(s, i, steps, depth, order);
    var s' := Notify(s, i, steps, order, rest, name, success).0;
    var tail := rest[1..];
    assert join == rest[0] || join in tail;
    if rest[0] == join {
      OwnTurn(s, i, steps, depth, order, rest, name, success);
    } else if Waits(s, i, steps, rest[0], name) {
      var one := NotifyOne(s, i, steps, order, rest[0], name, success);
      WaitedIsThere(s, i, steps, rest[0], name);
      NotifyOneSucceeds(s, i, steps, order, rest[0], name, success);
      OtherReport(s, i, steps, depth, order, rest[0], name, success, join);
      NotToldJoined(s, one.0, i, steps, join);
      NotToldState(s, one.0, i, steps, join);
      WellLinkedStays(s, one.0, i, steps, depth, order);
      JoinsThereGrow(s, i, steps, order, rest[0], name, success);
      NotifyFiresIff(one.0, i, steps, depth, order, tail, name, success, join);
      OneIsIssued(one.0, i, steps, depth, order);
      NotifyJoined(one.0, i, steps, order, tail, name, success);
      LaterFires(s, one.0, s', i, steps, join, name, success);
    } else {
      NotifyFiresIff(s, i, steps, depth, order, tail, name, success, join);
    }
  }

  lemma NotToldState(s: State, m: State, i: nat, steps: Steps, join: string)
    requires NotToldYet(s, m, i, steps, join) && (i, join) in s.joins
    ensures (i, join) in m.joins && m.joins[(i, join)] == s.joins[(i, join)]
  {
  }

  lemma {:induction false} OwnTurn(s: State, i: nat, steps: Steps, depth: map<string, nat>, order: seq<string>,
        rest: seq<string>, name: string, success: bool)
    requires rest != [] && WellLinked(s, i, steps, depth, order) && JoinsThere(s, i, steps, name) && NoDuplicates(rest)
    requires rest[0] in steps && steps[rest[0]].kind == Join
    requires (i, rest[0]) in s.joins && name in s.joins[(i, rest[0])].waitingFor
    ensures FiresIff(s, Notify(s, i, steps, order, rest, name, success).0, i, steps, rest[0], name, success)
  {
    hide WellLinked, NotToldYet, NotifyOne, Joined, JoinsThere, Due, HasRow;
    var join, tail := rest[0], rest[1..];
    var one := NotifyOne(s, i, steps, order, join, name, success);
    var s' := Notify(s, i, steps, order, rest, name, success).0;
    OneIsIssued(s, i, steps, depth, order);
    NotifyOneSucceeds(s, i, steps, order, join, name, success);
    ReportFiresIff(s, i, steps, depth, order, join, name, success);
    WellLinkedStays(s, one.0, i, steps, depth, order);
    JoinsThereGrow(s, i, steps, order, join, name, success);
    OtherReports(one.0, i, steps, depth, order, tail, name, success, join);
    assert s' == Notify(one.0, i, steps, order, tail, name, success).0;
    NotToldItself(s, i, steps, join);
    NothingMore(s, one.0, s', i, steps, join);
  }

  lemma NothingMore(s: State, s1: State, s': State, i: nat, steps: Steps, join: string)
    requires Joined(s, s1, i, steps) && NotToldYet(s1, s', i, steps, join)
    ensures |NewNamed(s, s', join)| == |NewNamed(s, s1, join)|
  {
    JoinedGrown(s, s1, i, steps);
    JoinedGrown(s1, s', i, steps);
    hide Grown, Joined;
    NamedTwice(s, s1, s', i, join);
  }

  lemma LaterFires(s: State, s1: State, s': State, i: nat, steps: Steps, join: string, name: string, success: bool)
    requires NotToldYet(s, s1, i, steps, join) && join in steps && Joined(s1, s', i, steps)
    requires FiresIff(s1, s', i, steps, join, name, success)
    ensures FiresIff(s, s', i, steps, join, name, success)
  {
    hide NotToldYet, Due, HasRow, NewNamed;
    var m :| NotToldYet(s1, m, i, steps, join)
             && |NewNamed(s1, s', join)| ==
                  if Due(m, i, steps, join, name, success) && !HasRow(s1, i, join) then 1 else 0;
    NotToldTwice(s, s1, m, i, steps, join);
    NotToldRows(s, s1, i, steps, join);
    NotToldNone(s, s1, s', i, steps, join);
  }

  lemma NotToldNone(s: State, s1: State, s': State, i: nat, steps: Steps, join: string)
    requires NotToldYet(s, s1, i, steps, join) && Joined(s1, s', i, steps)
    ensures |NewNamed(s, s', join)| == |NewNamed(s1, s', join)|
  {
    JoinedGrown(s, s1, i, steps);
    JoinedGrown(s1, s', i, steps);
    hide Grown, Joined;
    NamedTwice(s, s1, s', i, join);
  }

  // ---- No condition above ----

  ghost predicate NoConditionAbove(steps: Steps, name: string) {
    forall x :: x in steps && steps[x].kind == Condition && x != name ==> !Reaches(Flow(steps), x, name)
  }

  lemma {:induction false} ClimbIsAbove(steps: Steps, x: string, visited: set<string>, n: string)
    requires n in Climb(steps, x, visited)
    ensures Reaches(Back(steps), x, n) && n in steps && x in steps
    decreases steps.Keys - visited
  {
    ReachesSelf(Back(steps), x);
    if n != x {
      var rest := Climb(steps, steps[x].prev, visited + {x});
      assert n in [x] + rest;
      ClimbIsAbove(steps, steps[x].prev, visited + {x}, n);
      NotRootHere(steps, x);
      EdgeReaches(Back(steps), x, steps[x].prev);
      ReachesTransitive(Back(steps), x, steps[x].prev, n);
    }
  }

  lemma NotRootHere(steps: Steps, x: string)
    requires x in steps && steps[x].prev != ""
    ensures Edge(Back(steps), x, steps[x].prev)
  {
  }

  lemma {:induction false} NoneOfKind(steps: Steps, names: seq<string>, kind: StepType)
    requires forall n :: n in names && n in steps ==> steps[n].kind != kind
    ensures FirstOfKind(steps, names, kind) == ""
  {
    if names != [] {
      NoneOfKind(steps, names[1..], kind);
    }
  }

  lemma NoPlaceholder(steps: Steps, depth: map<string, nat>, name: string)
    requires Linked(steps, depth) && name in steps && NoConditionAbove(steps, name)
    ensures ConditionAbove(steps, steps[name]) == ""
  {
    var above := Climb(steps, steps[name].prev);
    forall n | n in above
      ensures n in steps && steps[n].kind != Condition
    {
      ClimbIsAbove(steps, steps[name].prev, {}, n);
      NoEmptyName(steps, depth);
      assert Edge(Flow(steps), steps[name].prev, name);
      EdgeReaches(Flow(steps), steps[name].prev, name);
      ForwardIffBackward(steps, depth, n, steps[name].prev);
      ReachesTransitive(Flow(steps), n, steps[name].prev, name);
      ReachesDownwards(steps, depth, steps[name].prev, name);
      if n == name {
        ReachesDownwards(steps, depth, n, steps[name].prev);
      }
    }
    NoneOfKind(steps, above, Condition);
  }

  /** Before the reports, at most the wait list of another join is edited. */
  lemma PreparedIsNotTold(p: State, i: nat, steps: Steps, depth: map<string, nat>, order: seq<string>, name: string,
        success: bool, join: string)
    requires WellLinked(p, i, steps, depth, order) && name in steps && NoConditionAbove(steps, name)
    requires (i, join) in p.joins && name in p.joins[(i, join)].waitingFor
    ensures NotToldYet(p, PrepareJoins(p, i, steps, order, name, success), i, steps, join)
  {
    hide Linked, JoinFor, TerminalInFork, AddWait, Issued, Joined, NoConditionAbove, ConditionAbove;
    NoPlaceholder(steps, depth, name);
    PrepareJoinsJoined(p, i, steps, order, name, success);
    NewJoinKeepsOthers(p, i, JoinFor(steps, order, name), name, steps);
  }

  lemma NewJoinKeepsOthers(p: State, i: nat, jf: string, name: string, steps: Steps)
    requires Issued(p)
    ensures jf in steps ==> NewJoin(p, i, jf, [name], steps[jf].strategy).rows == p.rows
  {
  }

  /** Telling the joins of a step gives a join that waits for it its row exactly if it is due. */
  lemma TellFiresIff(p: State, i: nat, steps: Steps, depth: map<string, nat>, order: seq<string>, name: string,
        success: bool, join: string)
    requires WellLinked(p, i, steps, depth, order) && JoinsThere(p, i, steps, name) && NoDuplicates(order)
    requires name in steps && NoConditionAbove(steps, name) && join in steps && steps[join].kind == Join
    requires (i, join) in p.joins && name in p.joins[(i, join)].waitingFor
    ensures FiresIff(p, Tell(p, i, steps, order, name, success).0, i, steps, join, name, success)
  {
    hide WellLinked, JoinsThere, NoConditionAbove, PrepareJoins, Notify, FiresIff, NotToldYet, Joined;
    var p1 := PrepareJoins(p, i, steps, order, name, success);
    OrderHas(p, i, steps, depth, order, join);
    PreparedIsNotTold(p, i, steps, depth, order, name, success, join);
    NotToldJoined(p, p1, i, steps, join);
    NotToldState(p, p1, i, steps, join);
    WellLinkedStays(p, p1, i, steps, depth, order);
    JoinsTherePrepared(p, i, steps, order, name, success);
    NotifyFiresIff(p1, i, steps, depth, order, order, name, success, join);
    OneIsIssued(p1, i, steps, depth, order);
    NotifyJoined(p1, i, steps, order, order, name, success);
    LaterFires(p, p1, Tell(p, i, steps, order, name, success).0, i, steps, join, name, success);
  }

  lemma OrderHas(p: State, i: nat, steps: Steps, depth: map<string, nat>, order: seq<string>, join: string)
    requires WellLinked(p, i, steps, depth, order) && join in steps
    ensures join in order
  {
  }

  lemma JoinsTherePrepared(p: State, i: nat, steps: Steps, order: seq<string>, name: string, success: bool)
    requires JoinsThere(p, i, steps, name) && name in steps
    ensures JoinsThere(PrepareJoins(p, i, steps, order, name, success), i, steps, name)
  {
    hide PrepareJoins;
    PrepareKeepsJoins(p, i, steps, order, name, success);
  }

  // ---- One execution ----

  /** The branches of a fork have come, and the join states that were there are as they were. */
  ghost predicate BranchesCome(base: State, p: State, i: nat, d: StepDef) {
    && Grown(base, p, i)
    && (forall n :: |NewNamed(base, p, n)| ==
          if d.kind == Fork || d.kind == Parallel then multiset(d.parallel)[n] else 0)
    && (forall key: Key :: key in base.joins ==> key in p.joins && p.joins[key] == base.joins[key])
  }

  /** The joins that wait for a step can be told, in an order that names each step once. */
  ghost predicate CanBeTold(s: State, i: nat, steps: Steps, depth: map<string, nat>, order: seq<string>, name: string,
        join: string)
  {
    && Linked(steps, depth) && (forall n :: n in steps ==> n in order) && NoDuplicates(order)
    && (forall k: nat :: IsRowOf(s, i, k) ==> s.rows[k].name in steps)
    && name in steps && LeadsToSteps(steps, steps[name]) && JoinsThere(s, i, steps, name)
    && NoConditionAbove(steps, name)
    && join in steps && steps[join].kind == Join && steps[name].els != join
    && (i, join) in s.joins && name in s.joins[(i, join)].waitingFor
  }

  /** The state in which the joins are told of a success. */
  function Decided(s: State, q: nat, i: nat, id: nat, name: string, c: Choice): State
    requires DefinedFor(s, i) && name in DefOf(s, i).steps
  {
    Note(SetStatus(Work(Started(s, q, id), i, DefOf(s, i).steps, id, name, c).0, id, StepStatus.Completed),
         Ended(id, true))
  }

  lemma DecidedAdds(s: State, q: nat, i: nat, id: nat, name: string, c: Choice)
    requires Picks(s, q, i, id, name) && LeadsToSteps(DefOf(s, i).steps, DefOf(s, i).steps[name])
    ensures var steps := DefOf(s, i).steps;
            var d, p := steps[name], Decided(s, q, i, id, name, c);
            var base := Settled(s, q, id, StepStatus.Completed, Entries(d, id, true));
            && BranchesCome(base, p, i, d) && NewOfSteps(base, p, steps)
            && Issued(p) && i in p.instances && !InDlq(p, i)
  {
    hide Issued, Grown, NewOfSteps, NewNamed, Work, SetStatus, Started, Settled, Entries, Passes, Ranned;
    var steps := DefOf(s, i).steps;
    var d, s1, p := steps[name], Started(s, q, id), Decided(s, q, i, id, name, c);
    StartedFacts(s, q, i, id, name);
    WorkAdds(s1, i, steps, id, name, c);
    var w, s2 := Work(s1, i, steps, id, name, c).0, Ranned(s1, d, id);
    SettledIs(s, q, id, d, StepStatus.Completed, true);
    RannedRows(s1, d, id);
    SettledGrown(s2, w, i, id, StepStatus.Completed, Ended(id, true), steps);
    DecidedIsIssued(s1, i, steps, id, name, c);
    SettledInstances(s, q, id, StepStatus.Completed, Entries(d, id, true));
    DecidedJoins(s1, i, steps, id, name, c);
    var base := Settled(s, q, id, StepStatus.Completed, Entries(d, id, true));
    forall n
      ensures |NewNamed(base, p, n)| == if d.kind == Fork || d.kind == Parallel then multiset(d.parallel)[n] else 0
    {
      assert NewNamed(base, p, n) == NewNamed(s2, w, n);
    }
  }

  lemma DecidedJoins(s1: State, i: nat, steps: Steps, id: nat, name: string, c: Choice)
    requires name in steps
    ensures var w := Work(s1, i, steps, id, name, c).0;
            var p := Note(SetStatus(w, id, StepStatus.Completed), Ended(id, true));
            forall key: Key :: key in s1.joins ==> key in p.joins && p.joins[key] == s1.joins[key]
  {
    hide CreateBranches, CreateJoins, EngineJoins.DeclaredWait, JoinSucceeds;
    var d := steps[name];
    BranchesKeepJoins(s1, i, steps, d.parallel);
    EngineJoins.CreateJoinsSetsUp(CreateBranches(s1, i, steps, d.parallel).0, i, steps, d, d.next);
  }

  lemma {:induction false} BranchesKeepJoins(s: State, i: nat, steps: Steps, names: seq<string>)
    ensures CreateBranches(s, i, steps, names).0.joins == s.joins
    decreases names
  {
    if names != [] && names[0] in steps {
      var row := Row(i, names[0], steps[names[0]].kind, Pending, 0, steps[names[0]].maxRetries, 0);
      BranchesKeepJoins(Enqueue(CreateRow(s, row), i, s.nextRow), i, steps, names[1..]);
    }
  }

  lemma DecidedIsLinked(s: State, q: nat, i: nat, id: nat, name: string, c: Choice, depth: map<string, nat>,
        join: string)
    requires Picks(s, q, i, id, name) && CanBeTold(s, i, DefOf(s, i).steps, depth, c.order, name, join)
    ensures var steps, p := DefOf(s, i).steps, Decided(s, q, i, id, name, c);
            && WellLinked(p, i, steps, depth, c.order) && JoinsThere(p, i, steps, name)
            && (i, join) in p.joins && p.joins[(i, join)] == s.joins[(i, join)]
  {
    hide Issued, Linked, NoConditionAbove, Grown, Decided, Settled, Entries;
    var steps := DefOf(s, i).steps;
    var base, p := Settled(s, q, id, StepStatus.Completed, Entries(steps[name], id, true)),
        Decided(s, q, i, id, name, c);
    DecidedAdds(s, q, i, id, name, c);
    SettledInstances(s, q, id, StepStatus.Completed, Entries(steps[name], id, true));
    forall k: nat | IsRowOf(p, i, k)
      ensures p.rows[k].name in steps
    {
      SettledIdentity(s, q, id, StepStatus.Completed, Entries(steps[name], id, true), k);
      if k in base.rows { OldRowStays(base, p, i, k); }
    }
  }

  lemma SettledIdentity(s: State, q: nat, id: nat, status: StepStatus, entries: seq<Entry>, k: nat)
    requires id in s.rows
    ensures var base := Settled(s, q, id, status, entries);
            k in base.rows <==> k in s.rows
    ensures k in s.rows ==> SameIdentity(s.rows[k], Settled(s, q, id, status, entries).rows[k])
  {
  }

  /** Going on or completing brings no row of a join, unless it is the Else of a condition. */
  lemma AfterTelling(s: State, q: nat, i: nat, id: nat, name: string, c: Choice, join: string)
    requires Picks(s, q, i, id, name) && Undisturbed(s, i, c)
    requires var steps := DefOf(s, i).steps;
             && LeadsToSteps(steps, steps[name]) && JoinsThere(s, i, steps, name) && Passes(s, i, steps[name], name, c)
             && join in steps && steps[join].kind == Join && steps[name].els != join
    ensures forall p :: Joined(p, Told(s, q, i, id, name, c), i, DefOf(s, i).steps) ==>
              |NewNamed(p, ExecuteNext(s, q, c), join)| == |NewNamed(p, Told(s, q, i, id, name, c), join)|
  {
    hide Issued, Told, EnqueueNext, CompleteWorkflow, Unfinished, Passes, JoinsThere, ExecuteNext, Joined, NewNamed;
    hide Settled, Entries, Grown, OnlyJoins, NewOfSteps, Completes;
    var steps, s' := DefOf(s, i).steps, ExecuteNext(s, q, c);
    var d, t := steps[name], Told(s, q, i, id, name, c);
    SuccessIs(s, q, i, id, name, c);
    ToldAdds(s, q, i, id, name, c);
    FollowsKnown(steps, d, c.takesNext);
    EnqueueNextAdds(t, i, steps, Follows(d, c.takesNext), !(d.kind == Condition && !c.takesNext));
    NoMention(steps, d, c.takesNext, join);
    CompleteWorkflowIs(t, i, steps);
    CompleteWorkflowKeeps(t, i, steps);
    forall p | Joined(p, t, i, steps)
      ensures |NewNamed(p, s', join)| == |NewNamed(p, t, join)|
    {
      if Follows(d, c.takesNext) != [] {
        JoinedGrown(p, t, i, steps);
        NamedTwice(p, t, s', i, join);
      } else if s' != t {
        QuietNames(p, t, s', join);
      }
    }
  }

  lemma QuietNames(p: State, t: State, s': State, join: string)
    requires Quiet(t, s')
    ensures NewNamed(p, s', join) == NewNamed(p, t, join)
  {
  }

  lemma NoMention(steps: Steps, d: StepDef, takesNext: bool, join: string)
    requires join in steps && steps[join].kind == Join && d.els != join
    ensures Mentions(steps, Follows(d, takesNext), !(d.kind == Condition && !takesNext), join) == 0
  {
  }

  /**
   A step that succeeds reports to each join that waits for it. The join gets exactly one row, if
   with this report it has heard enough, no step it does not wait for is active in the branches of
   its fork, and it has no row yet; and otherwise none.
   */
  lemma SuccessFiresIff(s: State, q: nat, i: nat, id: nat, name: string, c: Choice, depth: map<string, nat>,
        join: string)
    requires Picks(s, q, i, id, name) && Undisturbed(s, i, c)
    requires CanBeTold(s, i, DefOf(s, i).steps, depth, c.order, name, join)
    requires Passes(s, i, DefOf(s, i).steps[name], name, c)
    ensures var steps := DefOf(s, i).steps;
            var d := steps[name];
            exists p ::
              && BranchesCome(Settled(s, q, id, StepStatus.Completed, Entries(d, id, true)), p, i, d)
              && FiresIff(p, ExecuteNext(s, q, c), i, steps, join, name, true)
  {
    hide Issued, Linked, JoinsThere, NoConditionAbove, Settled, Entries, ExecuteNext, Tell, Decided, WellLinked;
    hide Joined, NotToldYet, Due, HasRow, NewNamed, Passes, BranchesCome, NewOfSteps;
    var steps := DefOf(s, i).steps;
    var p := Decided(s, q, i, id, name, c);
    DecidedAdds(s, q, i, id, name, c);
    DecidedIsLinked(s, q, i, id, name, c, depth, join);
    TellFiresIff(p, i, steps, depth, c.order, name, true, join);
    TellJoined(p, i, steps, c.order, name, true);
    var t := Tell(p, i, steps, c.order, name, true).0;
    ToldIs(s, q, i, id, name, c);
    AfterTelling(s, q, i, id, name, c, join);
    var m :| NotToldYet(p, m, i, steps, join)
             && |NewNamed(p, t, join)| == if Due(m, i, steps, join, name, true) && !HasRow(p, i, join) then 1 else 0;
    assert FiresIff(p, ExecuteNext(s, q, c), i, steps, join, name, true);
  }

  lemma ToldIs(s: State, q: nat, i: nat, id: nat, name: string, c: Choice)
    requires DefinedFor(s, i) && name in DefOf(s, i).steps
    ensures Told(s, q, i, id, name, c) ==
            Tell(Decided(s, q, i, id, name, c), i, DefOf(s, i).steps, c.order, name, true).0
  {
  }

  lemma SettledIsLinked(s: State, q: nat, i: nat, id: nat, name: string, status: StepStatus, c: Choice,
        depth: map<string, nat>, join: string)
    requires Picks(s, q, i, id, name) && CanBeTold(s, i, DefOf(s, i).steps, depth, c.order, name, join)
    requires status in {StepStatus.Failed, Paused}
    ensures var steps := DefOf(s, i).steps;
            var base := Settled(s, q, id, status, Entries(steps[name], id, false));
            && WellLinked(base, i, steps, depth, c.order) && JoinsThere(base, i, steps, name)
            && (i, join) in base.joins && base.joins[(i, join)] == s.joins[(i, join)]
  {
    hide Issued, Linked, NoConditionAbove, Settled, Entries;
    var steps := DefOf(s, i).steps;
    SettledIssued(s, q, i, id, name, status, false);
    SettledInstances(s, q, id, status, Entries(steps[name], id, false));
    forall k: nat
      ensures IsRowOf(Settled(s, q, id, status, Entries(steps[name], id, false)), i, k) ==>
                Settled(s, q, id, status, Entries(steps[name], id, false)).rows[k].name in steps
    {
      SettledIdentity(s, q, id, status, Entries(steps[name], id, false), k);
    }
  }

  /** The last failure of a step reports to the joins in the same way, whether or not it is buried. */
  lemma FailureFiresIff(s: State, q: nat, i: nat, id: nat, name: string, c: Choice, depth: map<string, nat>,
        join: string)
    requires Picks(s, q, i, id, name) && Undisturbed(s, i, c)
    requires CanBeTold(s, i, DefOf(s, i).steps, depth, c.order, name, join)
    requires !Passes(s, i, DefOf(s, i).steps[name], name, c) && !TriesAgain(DefOf(s, i).steps[name], s.rows[id])
    ensures var def := DefOf(s, i);
            var base := Settled(s, q, id, if def.dlqEnabled then Paused else StepStatus.Failed,
                                Entries(def.steps[name], id, false));
            FiresIff(base, ExecuteNext(s, q, c), i, def.steps, join, name, false)
  {
    hide Issued, Linked, JoinsThere, NoConditionAbove, Settled, Entries, ExecuteNext, Tell, Notify, WellLinked, Ranned;
    hide Joined, NotToldYet, Due, HasRow, NewNamed, Passes, Unwind, Started, SetStatus, Freeze, Bury, SetInstance;
    hide Keeps;
    var def := DefOf(s, i);
    var steps, status := def.steps, if def.dlqEnabled then Paused else StepStatus.Failed;
    var base, s' := Settled(s, q, id, status, Entries(steps[name], id, false)), ExecuteNext(s, q, c);
    FailureIs(s, q, i, id, name, c);
    SettledIs(s, q, id, steps[name], status, false);
    SettledIsLinked(s, q, i, id, name, status, c, depth, join);
    OneIsIssued(base, i, steps, depth, c.order);
    OrderHas(base, i, steps, depth, c.order, join);
    if def.dlqEnabled {
      var t := Notify(base, i, steps, c.order, c.order, name, false).0;
      NotifyFiresIff(base, i, steps, depth, c.order, c.order, name, false, join);
      NotifySucceeds(base, i, steps, c.order, c.order, name, false);
      FreezeNames(base, t, i, id, join);
      SameFires(base, t, s', i, steps, join, name, false);
    } else {
      var t := Tell(base, i, steps, c.order, name, false).0;
      TellFiresIff(base, i, steps, depth, c.order, name, false, join);
      TellSucceeds(base, i, steps, c.order, name, false);
      TellJoined(base, i, steps, c.order, name, false);
      StillRuns(base, t, i, steps);
      UnwindKeeps(t, i, steps, name, c);
      FailNames(base, t, Unwind(t, i, steps, name, c), i, join);
      SameFires(base, t, s', i, steps, join, name, false);
    }
  }

  lemma SameFires(base: State, t: State, s': State, i: nat, steps: Steps, join: string, name: string, success: bool)
    requires join in steps && FiresIff(base, t, i, steps, join, name, success)
    requires NewNamed(base, s', join) == NewNamed(base, t, join)
    ensures FiresIff(base, s', i, steps, join, name, success)
  {
    hide NotToldYet, Due, HasRow, NewNamed;
    var m :| NotToldYet(base, m, i, steps, join)
             && |NewNamed(base, t, join)| ==
                  if Due(m, i, steps, join, name, success) && !HasRow(base, i, join) then 1 else 0;
  }

  lemma FreezeNames(base: State, t: State, i: nat, id: nat, join: string)
    ensures NewNamed(base, SetInstance(Freeze(Bury(t, i, id), i), i, Dlq), join) == NewNamed(base, t, join)
  {
  }

  lemma FailNames(base: State, t: State, v: State, i: nat, join: string)
    requires Quiet(t, v)
    ensures NewNamed(base, SetInstance(v, i, WorkflowStatus.Failed), join) == NewNamed(base, t, join)
  {
  }

  // ---- All runs ----

  /** All others that the join waits for have reported. */
  predicate AllOthersReported(j: JoinState, name: string) {
    forall w :: w in j.waitingFor ==> w == name || w in j.completed || w in j.failed
  }

  /** Counting is hearing all, on the join states of synchronous workflows. */
  lemma HeardIff(j: JoinState, d: StepDef, name: string, success: bool)
    requires EngineJoins.JoinOk(j, d) && name in j.waitingFor
    ensures EnoughHeard(Update(j, name, success)) <==> AllOthersReported(j, name)
  {
    var u := Update(j, name, success);
    EngineJoins.UpdateOk(j, d, name, success);
    EngineJoins.UpdateKeepsStrategy(j, name, success);
    InsertMembers(j.completed, name);
    InsertMembers(j.failed, name);
    var c, f, all := Elements(u.completed), Elements(u.failed), Elements(u.waitingFor);
    NoDuplicatesCardinality(u.completed);
    NoDuplicatesCardinality(u.failed);
    NoDuplicatesCardinality(u.waitingFor);
    assert c !! f && c + f <= all;
    SubsetCardinality(c + f, all);
    assert |c + f| == |c| + |f|;
    if EnoughHeard(u) {
      assert c + f == all;
      forall w | w in j.waitingFor
        ensures w == name || w in j.completed || w in j.failed
      {
        assert w in all;
      }
    }
    if AllOthersReported(j, name) {
      forall w | w in all
        ensures w in c + f
      {
        assert w == name || EngineJoins.Reported(j, w);
      }
      assert c + f == all;
    }
  }

  /** The rows of branches are no rows of the join. */
  lemma SameJoinRow(s: State, q: nat, i: nat, id: nat, entries: seq<Entry>, p: State, d: StepDef, join: string)
    requires id in s.rows && join !in d.parallel
    requires BranchesCome(Settled(s, q, id, StepStatus.Completed, entries), p, i, d)
    ensures HasRow(p, i, join) <==> HasRow(s, i, join)
  {
    hide FreshRow;
    var base := Settled(s, q, id, StepStatus.Completed, entries);
    assert NewNamed(base, p, join) == {} by { assert |NewNamed(base, p, join)| == 0; }
    if HasRow(p, i, join) {
      var k: nat :| k in p.rows && p.rows[k].instance == i && p.rows[k].name == join;
      assert k !in NewNamed(base, p, join);
      SettledIdentity(s, q, id, StepStatus.Completed, entries, k);
    }
    if HasRow(s, i, join) {
      var k: nat :| k in s.rows && s.rows[k].instance == i && s.rows[k].name == join;
      SettledIdentity(s, q, id, StepStatus.Completed, entries, k);
      assert k in p.rows && p.rows[k] == base.rows[k];
    }
  }

  /** In every run of a workflow that the builder makes, every step that has a row can report. */
  lemma {:induction false} JoinsThereInRuns(defs: map<string, Definition>, events: seq<Event>, i: nat,
        depth: map<string, nat>, name: string)
    requires var s := After(Initial(defs), events);
             && DefinedFor(s, i) && EngineJoins.Flowing(DefOf(s, i), depth)
             && EngineJoins.AwaitsBelow(DefOf(s, i).steps) && HasRow(s, i, name) && !IsVirtual(name)
    ensures var s := After(Initial(defs), events); JoinsThere(s, i, DefOf(s, i).steps, name)
  {
    hide After, EngineJoins.Flowing, EngineJoins.AwaitsBelow, HasRow;
    var s := After(Initial(defs), events);
    var steps := DefOf(s, i).steps;
    forall j | j in steps && steps[j].kind == Join && name in steps[j].waitFor
      ensures (i, j) in s.joins
    {
      EngineJoins.AwaitingJoinsAreThere(defs, events, i, depth, name, j);
    }
  }

  /** What every reachable state of a synchronous workflow offers a step that succeeds. */
  lemma {:induction false} ReadyToTell(defs: map<string, Definition>, events: seq<Event>, q: nat, i: nat, id: nat,
        name: string, order: seq<string>, depth: map<string, nat>, join: string)
    requires var s := After(Initial(defs), events);
             && Picks(s, q, i, id, name) && EngineJoins.Synchronous(DefOf(s, i), depth)
             && EngineJoins.AwaitsBelow(DefOf(s, i).steps) && !IsVirtual(name)
             && join in DefOf(s, i).steps && DefOf(s, i).steps[join].kind == Join
             && (i, join) in s.joins && name in s.joins[(i, join)].waitingFor
    requires (forall n :: n in DefOf(After(Initial(defs), events), i).steps ==> n in order) && NoDuplicates(order)
    ensures var s := After(Initial(defs), events);
            && CanBeTold(s, i, DefOf(s, i).steps, depth, order, name, join)
            && EngineJoins.JoinOk(s.joins[(i, join)], DefOf(s, i).steps[join])
            && EngineJoins.NoJoinFirst(DefOf(s, i))
  {
    hide After, EngineJoins.NoJoinFirst, Linked, EngineJoins.AwaitsBelow, Issued, EngineJoins.JoinOk, HasRow;
    var s := After(Initial(defs), events);
    var def := DefOf(s, i);
    EngineJoins.SynchronousFacts(def, depth);
    EngineJoins.FlowingFacts(def, depth);
    assert EngineJoins.Fitting(def, depth, EngineJoins.Synced);
    EngineJoins.ReachableInv(defs, events, i, EngineJoins.Synced);
    EngineJoins.SyncedJoin(s, i, def.steps, join);
    EngineJoins.InvIsInReach(s, i, def.steps, EngineJoins.Synced);
    NamesReached(s, i, def.steps);
    PickedHasRow(s, q, i, id, name);
    JoinsThereInRuns(defs, events, i, depth, name);
    LinkedLeadsToSteps(def, depth, name);
    JoinIsNoElse(def, name, join);
  }

  lemma NamesReached(s: State, i: nat, steps: Steps)
    requires EngineJoins.RowsReached(s, i, steps)
    ensures forall k: nat :: IsRowOf(s, i, k) ==> s.rows[k].name in steps
  {
  }

  lemma PickedHasRow(s: State, q: nat, i: nat, id: nat, name: string)
    requires Picks(s, q, i, id, name)
    ensures HasRow(s, i, name)
  {
  }

  lemma LinkedLeadsToSteps(def: Definition, depth: map<string, nat>, name: string)
    requires Linked(def.steps, depth) && name in def.steps
    ensures LeadsToSteps(def.steps, def.steps[name])
  {
    var d := def.steps[name];
    forall v | v in Successors(d)
      ensures v in def.steps
    {
      assert Edge(Flow(def.steps), name, v);
    }
    assert forall v :: v in d.next || v in d.parallel || (d.els != "" && v == d.els) ==> v in Successors(d);
  }

  lemma JoinIsNoElse(def: Definition, name: string, join: string)
    requires EngineJoins.NoJoinFirst(def) && name in def.steps && join in def.steps && def.steps[join].kind == Join
    ensures def.steps[name].els != join && join !in def.steps[name].parallel
  {
  }

  /**
   In every run of a synchronous workflow: when a step succeeds that a join waits for, the join
   gets exactly one row, if all others it waits for have reported, no step it does not wait for is
   active in the branches of its fork, and it has no row yet; and otherwise none.
   */
  lemma {:induction false} JoinsFire(defs: map<string, Definition>, events: seq<Event>, q: nat, i: nat, id: nat,
        name: string, c: Choice, depth: map<string, nat>, join: string)
    requires var s := After(Initial(defs), events);
             && Picks(s, q, i, id, name) && Undisturbed(s, i, c)
             && EngineJoins.Synchronous(DefOf(s, i), depth) && EngineJoins.AwaitsBelow(DefOf(s, i).steps)
             && Passes(s, i, DefOf(s, i).steps[name], name, c) && !IsVirtual(name)
             && join in DefOf(s, i).steps && DefOf(s, i).steps[join].kind == Join
             && (i, join) in s.joins && name in s.joins[(i, join)].waitingFor
    requires (forall n :: n in DefOf(After(Initial(defs), events), i).steps ==> n in c.order) && NoDuplicates(c.order)
    ensures var s := After(Initial(defs), events);
            var steps := DefOf(s, i).steps;
            exists p, m ::
              && BranchesCome(Settled(s, q, id, StepStatus.Completed, Entries(steps[name], id, true)), p, i,
                              steps[name])
              && NotToldYet(p, m, i, steps, join)
              && |NewNamed(p, ExecuteNext(s, q, c), join)| ==
                 if AllOthersReported(s.joins[(i, join)], name) && !Held(m, i, steps, steps[join].waitFor)
                    && !HasRow(s, i, join) then 1 else 0
  {
    hide After, EngineJoins.Synchronous, EngineJoins.AwaitsBelow, EngineJoins.NoJoinFirst, ExecuteNext, CanBeTold;
    hide Passes;
    hide HasRow, Held, NotToldYet, BranchesCome, Settled, Entries, Picks, NewNamed, EngineJoins.JoinOk, Update;
    var s := After(Initial(defs), events);
    PickedIs(s, q, i, id, name);
    var steps := DefOf(s, i).steps;
    ReadyToTell(defs, events, q, i, id, name, c.order, depth, join);
    SuccessFiresIff(s, q, i, id, name, c, depth, join);
    var base := Settled(s, q, id, StepStatus.Completed, Entries(steps[name], id, true));
    var p :| BranchesCome(base, p, i, steps[name]) && FiresIff(p, ExecuteNext(s, q, c), i, steps, join, name, true);
    var m :| NotToldYet(p, m, i, steps, join)
             && |NewNamed(p, ExecuteNext(s, q, c), join)| ==
                if Due(m, i, steps, join, name, true) && !HasRow(p, i, join) then 1 else 0;
    JoinIsNoElse(DefOf(s, i), name, join);
    SameJoinRow(s, q, i, id, Entries(steps[name], id, true), p, steps[name], join);
    StateKept(s, q, id, Entries(steps[name], id, true), p, i, steps[name], (i, join));
    NotToldState(p, m, i, steps, join);
    HeardIff(s.joins[(i, join)], steps[join], name, true);
  }

  lemma PickedIs(s: State, q: nat, i: nat, id: nat, name: string)
    requires Picks(s, q, i, id, name)
    ensures DefinedFor(s, i) && name in DefOf(s, i).steps && id in s.rows
  {
  }

  lemma StateKept(s: State, q: nat, id: nat, entries: seq<Entry>, p: State, i: nat, d: StepDef, key: Key)
    requires id in s.rows && BranchesCome(Settled(s, q, id, StepStatus.Completed, entries), p, i, d) && key in s.joins
    ensures key in p.joins && p.joins[key] == s.joins[key]
  {
  }
}
