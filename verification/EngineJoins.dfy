/**
 Forks and joins over whole runs: a join has at most one row in an instance, and its row
 exists only once every step it waits for has reported success or final failure to it.
 */
module EngineJoins {
  import opened Definitions
  import opened Graphs
  import opened Links
  import opened Validator
  import opened Searches
  import opened Rollback
  import opened JoinStates
  import opened Engine
  import opened EngineFrame
  import opened EngineRuns

  /** Branches, else sides and the start do not begin with a join. */
  ghost predicate NoJoinFirst(def: Definition) {
    && def.start in def.steps && def.steps[def.start].kind != Join
    && forall u, v :: u in def.steps && v in def.steps && (v in def.steps[u].parallel || v == def.steps[u].els) ==>
         def.steps[v].kind != Join
  }

  ghost predicate OneRowPerJoin(s: State, i: nat, steps: Steps) {
    forall a, b ::
      IsRowOf(s, i, a) && IsRowOf(s, i, b) && s.rows[a].name == s.rows[b].name
      && s.rows[a].name in steps && steps[s.rows[a].name].kind == Join ==>
        a == b
  }

  // ---- Synchronisation ----

  /** Definitions whose links run both ways, from a start below the root, with branches that exist. */
  ghost predicate Flowing(def: Definition, depth: map<string, nat>) {
    && NoJoinFirst(def) && Linked(def.steps, depth) && def.steps[def.start].prev == ROOT
    && (forall n, t :: n in def.steps && t in def.steps[n].parallel ==> t in def.steps)
  }

  /** Such definitions without conditions, whose joins wait for all of a duplicate-free list. */
  ghost predicate Synchronous(def: Definition, depth: map<string, nat>) {
    && Flowing(def, depth)
    && (forall n :: n in def.steps ==> def.steps[n].kind != Condition)
    && (forall j :: j in def.steps && def.steps[j].kind == Join ==>
          def.steps[j].strategy == All && def.steps[j].waitFor != [] && NoDuplicates(def.steps[j].waitFor))
  }

  /** A fork that has run has set up the joins that follow it. */
  ghost predicate Opened(s: State, i: nat, steps: Steps, u: string)
    requires u in steps
  {
    steps[u].kind == Fork ==>
      forall j :: j in steps[u].next && j in steps && steps[j].kind == Join ==> (i, j) in s.joins
  }

  /** The step above `n` has a row, and if it is a fork it has been opened. */
  ghost predicate Reached(s: State, i: nat, steps: Steps, n: string) {
    n in steps && (steps[n].prev in steps ==> HasRow(s, i, steps[n].prev) && Opened(s, i, steps, steps[n].prev))
  }

  /** A row of that name has ended with that outcome. */
  ghost predicate Told(s: State, i: nat, n: string, success: bool) {
    exists id :: IsRowOf(s, i, id) && s.rows[id].name == n && Ended(id, success) in s.log
  }

  /** The store's lists say who has reported, and only awaited steps have. */
  ghost predicate JoinOk(j: JoinState, d: StepDef) {
    && NoDuplicates(j.waitingFor) && (forall w :: w in d.waitFor ==> w in j.waitingFor)
    && j.strategy == All
    && NoDuplicates(j.completed) && NoDuplicates(j.failed)
    && (forall w :: w in j.completed ==> w !in j.failed && w in j.waitingFor)
    && (forall w :: w in j.failed ==> w in j.waitingFor)
  }

  ghost predicate Backed(s: State, i: nat, j: JoinState) {
    && (forall w :: w in j.completed ==> Told(s, i, w, true))
    && (forall w :: w in j.failed ==> Told(s, i, w, false))
  }

  ghost predicate JoinSynced(s: State, i: nat, steps: Steps, j: string)
    requires j in steps && (i, j) in s.joins
  {
    JoinOk(s.joins[(i, j)], steps[j]) && Backed(s, i, s.joins[(i, j)])
  }

  predicate Reported(j: JoinState, w: string) {
    w in j.completed || w in j.failed
  }

  /** The join of a join row exists and has heard of every step it was defined to wait for. */
  ghost predicate AllReportedTo(s: State, i: nat, steps: Steps, j: string)
    requires j in steps
  {
    (i, j) in s.joins && forall w :: w in steps[j].waitFor ==> Reported(s.joins[(i, j)], w)
  }

  ghost predicate RowsReached(s: State, i: nat, steps: Steps) {
    forall id :: IsRowOf(s, i, id) ==> Reached(s, i, steps, s.rows[id].name)
  }

  ghost predicate JoinsReached(s: State, i: nat, steps: Steps) {
    forall j :: j in steps && steps[j].kind == Join && (i, j) in s.joins ==> Reached(s, i, steps, j)
  }

  ghost predicate JoinsSynced(s: State, i: nat, steps: Steps) {
    forall j :: j in steps && steps[j].kind == Join && (i, j) in s.joins ==> JoinSynced(s, i, steps, j)
  }

  ghost predicate JoinRowsSynced(s: State, i: nat, steps: Steps) {
    forall id :: IsRowOf(s, i, id) && s.rows[id].name in steps && steps[s.rows[id].name].kind == Join ==>
      AllReportedTo(s, i, steps, s.rows[id].name)
  }

  ghost predicate InReach(s: State, i: nat, steps: Steps) {
    RowsReached(s, i, steps) && JoinsReached(s, i, steps)
  }

  ghost predicate InSync(s: State, i: nat, steps: Steps) {
    JoinsSynced(s, i, steps) && JoinRowsSynced(s, i, steps)
  }

  /** How much is asked of a definition: nothing more, flowing links, or synchronous joins. */
  datatype Level = Bare | Rooted | Synced

  ghost predicate Fitting(def: Definition, depth: map<string, nat>, level: Level) {
    (level != Bare ==> Flowing(def, depth)) && (level == Synced ==> Synchronous(def, depth))
  }

  /** The invariant, for each level of definitions. */
  ghost predicate Inv(s: State, i: nat, steps: Steps, level: Level) {
    && OneRowPerJoin(s, i, steps)
    && (level != Bare ==> InReach(s, i, steps))
    && (level == Synced ==> InSync(s, i, steps))
  }

  // ---- What growing keeps ----

  /** Rows, joins and log entries that are there stay there. */
  ghost predicate Grows(s: State, s': State, i: nat) {
    && (forall id :: IsRowOf(s, i, id) ==> IsRowOf(s', i, id) && s'.rows[id].name == s.rows[id].name)
    && (forall j: string :: (i, j) in s.joins ==> (i, j) in s'.joins)
    && s.log <= s'.log
  }

  lemma GrowsReached(s: State, s': State, i: nat, steps: Steps, n: string)
    requires Grows(s, s', i)
    ensures Reached(s, i, steps, n) ==> Reached(s', i, steps, n)
    ensures HasRow(s, i, n) ==> HasRow(s', i, n)
    ensures forall b :: Told(s, i, n, b) ==> Told(s', i, n, b)
  {
    if HasRow(s, i, n) {
      var id :| IsRowOf(s, i, id) && s.rows[id].name == n;
      assert IsRowOf(s', i, id);
    }
    if Reached(s, i, steps, n) && steps[n].prev in steps {
      var id :| IsRowOf(s, i, id) && s.rows[id].name == steps[n].prev;
      assert IsRowOf(s', i, id);
    }
    forall b | Told(s, i, n, b)
      ensures Told(s', i, n, b)
    {
      var id :| IsRowOf(s, i, id) && s.rows[id].name == n && Ended(id, b) in s.log;
      assert IsRowOf(s', i, id) && s'.rows[id].name == n;
      LogPrefix(s.log, s'.log, Ended(id, b));
    }
  }

  lemma LogPrefix(a: seq<Entry>, b: seq<Entry>, e: Entry)
    requires a <= b && e in a
    ensures e in b
  {
    assert b[..|a|] == a;
  }

  lemma GrowsBacked(s: State, s': State, i: nat, steps: Steps, j: JoinState)
    requires Grows(s, s', i) && Backed(s, i, j)
    ensures Backed(s', i, j)
  {
    forall w | w in j.completed ensures Told(s', i, w, true) { GrowsReached(s, s', i, steps, w); }
    forall w | w in j.failed ensures Told(s', i, w, false) { GrowsReached(s, s', i, steps, w); }
  }

  /** Rows may be added that are no joins and whose parents are there; joins stay as they are. */
  lemma GrowRows(s: State, s': State, i: nat, steps: Steps, level: Level)
    requires Inv(s, i, steps, level) && Grows(s, s', i)
    requires forall j: string :: (i, j) in s'.joins ==> (i, j) in s.joins && s'.joins[(i, j)] == s.joins[(i, j)]
    requires forall id :: IsRowOf(s', i, id) && !IsRowOf(s, i, id) ==>
               && s'.rows[id].name in steps && steps[s'.rows[id].name].kind != Join
               && (level != Bare ==> Reached(s', i, steps, s'.rows[id].name))
    ensures Inv(s', i, steps, level)
  {
    hide InReach, InSync;
    if level != Bare {
      GrowReach(s, s', i, steps);
    }
    if level == Synced {
      GrowSync(s, s', i, steps);
    }
  }

  lemma GrowReach(s: State, s': State, i: nat, steps: Steps)
    requires InReach(s, i, steps) && Grows(s, s', i)
    requires forall j: string :: (i, j) in s'.joins ==> (i, j) in s.joins
    requires forall id :: IsRowOf(s', i, id) && !IsRowOf(s, i, id) ==> Reached(s', i, steps, s'.rows[id].name)
    ensures InReach(s', i, steps)
  {
    hide Reached;
    forall id | IsRowOf(s', i, id)
      ensures Reached(s', i, steps, s'.rows[id].name)
    {
      if IsRowOf(s, i, id) { GrowsReached(s, s', i, steps, s.rows[id].name); }
    }
    forall j | j in steps && steps[j].kind == Join && (i, j) in s'.joins
      ensures Reached(s', i, steps, j)
    {
      GrowsReached(s, s', i, steps, j);
    }
  }

  /** No join states or join rows come new, and the join states say no less. */
  lemma GrowSync(s: State, s': State, i: nat, steps: Steps)
    requires InSync(s, i, steps) && Grows(s, s', i)
    requires forall j: string :: (i, j) in s'.joins ==> (i, j) in s.joins && s'.joins[(i, j)] == s.joins[(i, j)]
    requires forall id :: IsRowOf(s', i, id) && !IsRowOf(s, i, id) ==>
               s'.rows[id].name in steps && steps[s'.rows[id].name].kind != Join
    ensures InSync(s', i, steps)
  {
    hide Backed, AllReportedTo;
    forall j | j in steps && steps[j].kind == Join && (i, j) in s'.joins
      ensures JoinSynced(s', i, steps, j)
    {
      assert JoinSynced(s, i, steps, j);
      GrowsBacked(s, s', i, steps, s.joins[(i, j)]);
    }
    forall id | IsRowOf(s', i, id) && s'.rows[id].name in steps && steps[s'.rows[id].name].kind == Join
      ensures AllReportedTo(s', i, steps, s'.rows[id].name)
    {
      assert IsRowOf(s, i, id) && AllReportedTo(s, i, steps, s.rows[id].name);
      SameReports(s, s', i, steps, s.rows[id].name);
    }
  }

  lemma SameReports(s: State, s': State, i: nat, steps: Steps, j: string)
    requires j in steps && AllReportedTo(s, i, steps, j) && Grows(s, s', i)
    requires (i, j) in s.joins && (i, j) in s'.joins ==>
               forall w :: Reported(s.joins[(i, j)], w) ==> Reported(s'.joins[(i, j)], w)
    ensures AllReportedTo(s', i, steps, j)
  {
  }

  lemma KeepsGrows(s: State, s': State, i: nat)
    requires Keeps(s, s', i)
    ensures Grows(s, s', i)
  {
  }

  lemma QuietInv(s: State, s': State, i: nat, steps: Steps, level: Level)
    requires Inv(s, i, steps, level) && Quiet(s, s')
    ensures Inv(s', i, steps, level)
  {
    hide Inv;
    GrowRows(s, s', i, steps, level);
  }

  lemma NoteInv(s: State, i: nat, steps: Steps, e: Entry, level: Level)
    requires Inv(s, i, steps, level)
    ensures Inv(Note(s, e), i, steps, level)
  {
    hide Inv;
    GrowRows(s, Note(s, e), i, steps, level);
  }

  // ---- Reports ----

  /** A join state that exists is replaced by one that says no less. */
  lemma PutJoinInv(s: State, i: nat, steps: Steps, join: string, j: JoinState, level: Level)
    requires Inv(s, i, steps, level) && join in steps && steps[join].kind == Join && (i, join) in s.joins
    requires level == Synced ==> JoinOk(j, steps[join]) && Backed(s, i, j)
    requires level == Synced ==> forall w :: Reported(s.joins[(i, join)], w) ==> Reported(j, w)
    ensures Inv(PutJoin(s, i, join, j), i, steps, level)
  {
    hide InReach, InSync, JoinOk, Backed;
    if level != Bare {
      GrowReach(s, PutJoin(s, i, join, j), i, steps);
    }
    if level == Synced {
      PutJoinSync(s, i, steps, join, j);
    }
  }

  lemma PutJoinSync(s: State, i: nat, steps: Steps, join: string, j: JoinState)
    requires InSync(s, i, steps) && join in steps && steps[join].kind == Join && (i, join) in s.joins
    requires JoinOk(j, steps[join]) && Backed(s, i, j) && forall w :: Reported(s.joins[(i, join)], w) ==> Reported(j, w)
    ensures InSync(PutJoin(s, i, join, j), i, steps)
  {
    hide Backed, AllReportedTo, Reported, JoinOk;
    var s' := PutJoin(s, i, join, j);
    forall k | k in steps && steps[k].kind == Join && (i, k) in s'.joins
      ensures JoinSynced(s', i, steps, k)
    {
      assert JoinSynced(s, i, steps, k);
      GrowsBacked(s, s', i, steps, s'.joins[(i, k)]);
    }
    forall id | IsRowOf(s', i, id) && s'.rows[id].name in steps && steps[s'.rows[id].name].kind == Join
      ensures AllReportedTo(s', i, steps, s'.rows[id].name)
    {
      assert IsRowOf(s, i, id) && AllReportedTo(s, i, steps, s.rows[id].name);
      SameReports(s, s', i, steps, s.rows[id].name);
    }
  }

  lemma UpdateOk(j: JoinState, d: StepDef, name: string, success: bool)
    requires JoinOk(j, d) && name in j.waitingFor
    ensures JoinOk(Update(j, name, success), d)
    ensures forall w :: Reported(j, w) || w == name ==> Reported(Update(j, name, success), w)
    ensures var u := Update(j, name, success);
            && u.waitingFor == j.waitingFor
            && (forall w :: w in u.completed ==> w in j.completed || (success && w == name))
            && (forall w :: w in u.failed ==> w in j.failed || (!success && w == name))
  {
    InsertMembers(j.completed, name);
    InsertMembers(j.failed, name);
    DeleteMembers(j.completed, name);
    DeleteMembers(j.failed, name);
  }

  lemma UpdateKeepsStrategy(j: JoinState, name: string, success: bool)
    ensures Update(j, name, success).strategy == j.strategy
  {
  }

  /** A step that has ended reports to a join that waits for it. */
  lemma ReportInv(s: State, i: nat, steps: Steps, join: string, name: string, success: bool, level: Level)
    requires Inv(s, i, steps, level) && join in steps && steps[join].kind == Join && (i, join) in s.joins
    requires level == Synced ==> Told(s, i, name, success) && name in s.joins[(i, join)].waitingFor
    ensures Inv(PutJoin(s, i, join, Update(s.joins[(i, join)], name, success)), i, steps, level)
  {
    hide Told, Reported, Update, JoinOk;
    var j := s.joins[(i, join)];
    if level == Synced {
      assert JoinSynced(s, i, steps, join);
      UpdateOk(j, steps[join], name, success);
    }
    PutJoinInv(s, i, steps, join, Update(j, name, success), level);
  }

  /** The count test: enough reports of awaited steps are reports of all of them. */
  lemma ReadyMeansAll(j: JoinState, d: StepDef)
    requires JoinOk(j, d) && CheckJoinReady(j.waitingFor, j.completed, j.failed, j.strategy)
    ensures forall w :: w in d.waitFor ==> Reported(j, w)
  {
    var c, f, all := Elements(j.completed), Elements(j.failed), Elements(j.waitingFor);
    NoDuplicatesCardinality(j.completed);
    NoDuplicatesCardinality(j.failed);
    NoDuplicatesCardinality(j.waitingFor);
    assert c !! f && c + f <= all;
    SubsetCardinality(c + f, all);
    assert c + f == all;
    forall w | w in d.waitFor
      ensures Reported(j, w)
    {
      assert w in all;
    }
  }

  lemma CreateJoinRowInv(s: State, i: nat, steps: Steps, join: string, level: Level)
    requires Issued(s) && i in s.instances && Inv(s, i, steps, level)
    requires join in steps && steps[join].kind == Join && !HasRow(s, i, join)
    requires level != Bare ==> Reached(s, i, steps, join)
    requires level == Synced ==> AllReportedTo(s, i, steps, join)
    ensures Inv(CreateJoinRow(s, i, join), i, steps, level)
  {
    hide Keeps, Issued, InReach, InSync, OneRowPerJoin, CreateJoinRow, HasRow;
    var s' := CreateJoinRow(s, i, join);
    JoinRowSpawns(s, i, join);
    JoinRowIsOnly(s, s', i, steps, join);
    if level != Bare {
      JoinRowReached(s, s', i, steps, join);
    }
    if level == Synced {
      JoinRowSynced(s, s', i, steps, join);
    }
  }

  /** One row, for the join, is new. */
  ghost predicate JoinSpawned(s: State, s': State, i: nat, join: string) {
    && Grows(s, s', i) && s'.joins == s.joins
    && (forall id :: IsRowOf(s', i, id) && !IsRowOf(s, i, id) ==> s'.rows[id].name == join && id == s.nextRow)
  }

  lemma JoinRowSpawns(s: State, i: nat, join: string)
    requires Issued(s) && i in s.instances
    ensures JoinSpawned(s, CreateJoinRow(s, i, join), i, join)
  {
    hide Keeps, Issued;
    CreateJoinRowKeeps(s, i, join);
    KeepsGrows(s, CreateJoinRow(s, i, join), i);
  }

  lemma JoinRowIsOnly(s: State, s': State, i: nat, steps: Steps, join: string)
    requires JoinSpawned(s, s', i, join) && !HasRow(s, i, join) && OneRowPerJoin(s, i, steps)
    ensures OneRowPerJoin(s', i, steps)
  {
    forall a, b | IsRowOf(s', i, a) && IsRowOf(s', i, b) && s'.rows[a].name == s'.rows[b].name
                  && s'.rows[a].name in steps && steps[s'.rows[a].name].kind == Join
      ensures a == b
    {
      if IsRowOf(s, i, a) {
        assert s.rows[a].name == s'.rows[a].name;
      }
      if IsRowOf(s, i, b) {
        assert s.rows[b].name == s'.rows[b].name;
      }
    }
  }

  lemma JoinRowReached(s: State, s': State, i: nat, steps: Steps, join: string)
    requires JoinSpawned(s, s', i, join) && InReach(s, i, steps) && Reached(s, i, steps, join)
    ensures InReach(s', i, steps)
  {
    GrowsReached(s, s', i, steps, join);
    GrowReach(s, s', i, steps);
  }

  lemma JoinRowSynced(s: State, s': State, i: nat, steps: Steps, join: string)
    requires JoinSpawned(s, s', i, join) && InSync(s, i, steps)
    requires join in steps && steps[join].kind == Join && AllReportedTo(s, i, steps, join)
    ensures InSync(s', i, steps)
  {
    hide Backed, AllReportedTo;
    forall k | k in steps && steps[k].kind == Join && (i, k) in s'.joins
      ensures JoinSynced(s', i, steps, k)
    {
      assert JoinSynced(s, i, steps, k);
      GrowsBacked(s, s', i, steps, s'.joins[(i, k)]);
    }
    forall id | IsRowOf(s', i, id) && s'.rows[id].name in steps && steps[s'.rows[id].name].kind == Join
      ensures AllReportedTo(s', i, steps, s'.rows[id].name)
    {
      if IsRowOf(s, i, id) {
        assert AllReportedTo(s, i, steps, s.rows[id].name);
      }
      SameReports(s, s', i, steps, s'.rows[id].name);
    }
  }

  lemma SyncedJoin(s: State, i: nat, steps: Steps, join: string)
    requires Inv(s, i, steps, Synced) && join in steps && steps[join].kind == Join && (i, join) in s.joins
    ensures JoinOk(s.joins[(i, join)], steps[join])
  {
    assert JoinSynced(s, i, steps, join);
  }

  lemma ReachedJoin(s: State, i: nat, steps: Steps, join: string, level: Level)
    requires Inv(s, i, steps, level) && level != Bare && join in steps && steps[join].kind == Join
    requires (i, join) in s.joins
    ensures Reached(s, i, steps, join)
  {
  }

  lemma NotifyOneInv(s: State, i: nat, steps: Steps, order: seq<string>, join: string, name: string, success: bool,
        level: Level)
    requires Issued(s) && i in s.instances && Inv(s, i, steps, level) && join in steps && steps[join].kind == Join
    requires level == Synced ==> Told(s, i, name, success)
    requires level == Synced && (i, join) in s.joins ==> name in s.joins[(i, join)].waitingFor
    ensures Inv(NotifyOne(s, i, steps, order, join, name, success).0, i, steps, level)
  {
    hide Inv, Told, JoinOk, Reached, Issued, HasRow, BranchesPending, CreateJoinRow, Update;
    if (i, join) in s.joins {
      var j := s.joins[(i, join)];
      var updated := Update(j, name, success);
      var s1 := PutJoin(s, i, join, updated);
      ReportInv(s, i, steps, join, name, success, level);
      assert Issued(s1) by { PutJoinKeeps(s, i, join, updated); KeptIsIssued(s, s1, i); }
      if level == Synced {
        SyncedJoin(s, i, steps, join);
        SyncedJoin(s1, i, steps, join);
        UpdateOk(j, steps[join], name, success);
        assert Told(s1, i, name, success) by { GrowsReached(s, s1, i, steps, name); }
      }
      ReportInv(s1, i, steps, join, name, success, level);
      if updated.ready && !HasRow(s1, i, join) {
        if level != Bare {
          ReachedJoin(s1, i, steps, join, level);
        }
        if level == Synced {
          UpdateReady(j, name, success);
          ReadyMeansAll(updated, steps[join]);
        }
        CreateJoinRowInv(s1, i, steps, join, level);
      }
    }
  }

  lemma UpdateReady(j: JoinState, name: string, success: bool)
    ensures var u := Update(j, name, success);
            u.ready ==> CheckJoinReady(u.waitingFor, u.completed, u.failed, u.strategy)
  {
  }

  /** Only awaited steps are reported to a join. */
  lemma WaitsIsAwaited(s: State, i: nat, steps: Steps, join: string, name: string, level: Level)
    requires Inv(s, i, steps, level) && Waits(s, i, steps, join, name) && (i, join) in s.joins
    ensures level == Synced ==> name in s.joins[(i, join)].waitingFor
  {
    if level == Synced {
      SyncedJoin(s, i, steps, join);
    }
  }

  lemma {:induction false} NotifyInv(s: State, i: nat, steps: Steps, order: seq<string>, rest: seq<string>,
        name: string, success: bool, level: Level)
    requires Issued(s) && i in s.instances && Inv(s, i, steps, level)
    requires level == Synced ==> Told(s, i, name, success)
    ensures Inv(Notify(s, i, steps, order, rest, name, success).0, i, steps, level)
    decreases rest
  {
    hide Inv, Told, Issued, NotifyOne, Keeps;
    if rest != [] {
      if Waits(s, i, steps, rest[0], name) {
        var one := NotifyOne(s, i, steps, order, rest[0], name, success);
        if (i, rest[0]) in s.joins { WaitsIsAwaited(s, i, steps, rest[0], name, level); }
        NotifyOneInv(s, i, steps, order, rest[0], name, success, level);
        NotifyOneKeeps(s, i, steps, order, rest[0], name, success);
        KeptIsIssued(s, one.0, i);
        if one.1 {
          if level == Synced { KeepsGrows(s, one.0, i); GrowsReached(s, one.0, i, steps, name); }
          NotifyInv(one.0, i, steps, order, rest[1..], name, success, level);
        }
      } else {
        NotifyInv(s, i, steps, order, rest[1..], name, success, level);
      }
    }
  }

  // ---- Where the joins around a step are set up ----

  lemma RowsAreReached(s: State, i: nat, steps: Steps, n: string)
    requires RowsReached(s, i, steps) && HasRow(s, i, n)
    ensures Reached(s, i, steps, n)
  {
  }

  lemma {:induction false} ForkAboveIs(steps: Steps, order: seq<string>, u: string, above: seq<string>)
    requires u in steps
    ensures ForkAbove(steps, order, [u] + above) ==
            if steps[u].kind == Fork then u
            else if ForkOf(steps, order, u) != "" then ForkOf(steps, order, u)
            else ForkAbove(steps, order, above)
  {
    assert ([u] + above)[1..] == above;
  }

  /** Every step on the way up from a row has a row, so every fork met there has been opened. */
  lemma {:induction false} ForkAboveIsOpened(s: State, i: nat, def: Definition, depth: map<string, nat>,
        order: seq<string>, x: string, visited: set<string>)
    requires Flowing(def, depth) && RowsReached(s, i, def.steps) && Reached(s, i, def.steps, x)
    ensures var f := ForkAbove(def.steps, order, Climb(def.steps, def.steps[x].prev, visited));
            f != "" ==> Opened(s, i, def.steps, f)
    decreases def.steps.Keys - visited
  {
    var steps, u := def.steps, def.steps[x].prev;
    if !(u == "" || u == ROOT || u in visited || u !in steps) {
      hide Flowing, Linked, Opened, RowsReached, HasRow, ForkOf, ForkAbove;
      ForkAboveIs(steps, order, u, Climb(steps, steps[u].prev, visited + {u}));
      RowsAreReached(s, i, steps, u);
      FlowingFacts(def, depth);
      if steps[u].kind != Fork {
        if ForkOf(steps, order, u) != "" {
          BranchParent(def, depth, ForkOf(steps, order, u), u);
        } else {
          ForkAboveIsOpened(s, i, def, depth, order, u, visited + {u});
        }
      }
    }
  }

  lemma BranchParent(def: Definition, depth: map<string, nat>, f: string, x: string)
    requires Linked(def.steps, depth) && f in def.steps && x in def.steps
    requires x in def.steps[f].parallel || x in def.steps[f].next || x == def.steps[f].els
    ensures def.steps[x].prev == f
  {
    assert x in Successors(def.steps[f]);
    assert Edge(Flow(def.steps), f, x);
  }

  /** The join around a step that has a row has its state. */
  lemma JoinAroundExists(s: State, i: nat, def: Definition, depth: map<string, nat>, order: seq<string>, name: string)
    requires Flowing(def, depth) && RowsReached(s, i, def.steps) && HasRow(s, i, name) && name in def.steps
    requires JoinFor(def.steps, order, name) != ""
    ensures (i, JoinFor(def.steps, order, name)) in s.joins
  {
    var steps := def.steps;
    var id :| IsRowOf(s, i, id) && s.rows[id].name == name;
    assert Reached(s, i, steps, name);
    var f := ForkAround(steps, order, name);
    if ForkOf(steps, order, name) != "" {
      BranchParent(def, depth, f, name);
    } else {
      ForkAboveIsOpened(s, i, def, depth, order, name, {});
    }
    assert Opened(s, i, steps, f);
  }

  lemma AddWaitOk(j: JoinState, d: StepDef, name: string)
    requires JoinOk(j, d)
    ensures JoinOk(AddWait(j, name), d)
    ensures AddWait(j, name).completed == j.completed && AddWait(j, name).failed == j.failed
  {
  }

  lemma {:induction false} NoConditionAbove(steps: Steps, names: seq<string>)
    requires forall n :: n in steps ==> steps[n].kind != Condition
    ensures FirstOfKind(steps, names, Condition) == ""
  {
    if names != [] {
      NoConditionAbove(steps, names[1..]);
    }
  }

  /** A join state that is set up anew, where synchronous definitions need none. */
  lemma NewJoinInv(s: State, i: nat, steps: Steps, join: string, waitFor: seq<string>, strategy: JoinStrategy)
    requires Inv(s, i, steps, Bare)
    ensures Inv(NewJoin(s, i, join, waitFor, strategy), i, steps, Bare)
    ensures Inv(PutJoin(s, i, join, Fresh(waitFor, strategy)), i, steps, Bare)
  {
  }

  lemma PutJoinLoosely(s: State, i: nat, steps: Steps, join: string, j: JoinState)
    requires Inv(s, i, steps, Bare)
    ensures Inv(PutJoin(s, i, join, j), i, steps, Bare)
  {
  }

  lemma PrepareJoinsInv(s: State, i: nat, def: Definition, depth: map<string, nat>, order: seq<string>,
        name: string, success: bool, level: Level)
    requires Issued(s) && i in s.instances && Inv(s, i, def.steps, level) && name in def.steps
    requires Fitting(def, depth, level) && (level != Bare ==> HasRow(s, i, name))
    ensures Inv(PrepareJoins(s, i, def.steps, order, name, success), i, def.steps, level)
  {
    hide Inv, Issued, JoinFor, TakePlaceholder, AddTerminal, TerminalInFork, Flowing, Synchronous, HasRow;
    var steps := def.steps;
    var join := JoinFor(steps, order, name);
    var condition := ConditionAbove(steps, steps[name]);
    if join == "" {
      NothingToPrepare(s, i, steps, order, name, success);
    } else if level == Bare {
      PrepareLoosely(s, i, steps, order, join, condition, name, success);
    } else {
      InvIsInReach(s, i, steps, level);
      JoinAroundExists(s, i, def, depth, order, name);
      if level == Rooted {
        PrepareRooted(s, i, steps, order, join, condition, name, success);
      } else {
        PrepareSynced(s, i, def, depth, order, join, name, success);
      }
    }
  }

  lemma NothingToPrepare(s: State, i: nat, steps: Steps, order: seq<string>, name: string, success: bool)
    requires name in steps && JoinFor(steps, order, name) == ""
    ensures PrepareJoins(s, i, steps, order, name, success) == s
  {
  }

  lemma InvIsInReach(s: State, i: nat, steps: Steps, level: Level)
    requires Inv(s, i, steps, level) && level != Bare
    ensures RowsReached(s, i, steps)
  {
  }

  /** With conditions: the join's state is there, and is only edited. */
  lemma PrepareRooted(s: State, i: nat, steps: Steps, order: seq<string>, join: string, condition: string,
        name: string, success: bool)
    requires Issued(s) && i in s.instances && Inv(s, i, steps, Rooted) && name in steps && (i, join) in s.joins
    requires join == JoinFor(steps, order, name) && join != "" && condition == ConditionAbove(steps, steps[name])
    ensures Inv(PrepareJoins(s, i, steps, order, name, success), i, steps, Rooted)
  {
    hide Inv, Issued, NotifyOne, PutJoin, Keeps, TerminalInFork, ReplaceWait;
    var replaced := ReplaceWait(s.joins[(i, join)], VirtualName(condition), name, FirstStatus(s, i, name, s.nextRow));
    PutJoinInv(s, i, steps, join, AddWait(s.joins[(i, join)], name), Rooted);
    PutJoinInv(s, i, steps, join, replaced, Rooted);
    PutJoinKeeps(s, i, join, replaced);
    KeptIsIssued(s, PutJoin(s, i, join, replaced), i);
    NotifyOneInv(PutJoin(s, i, join, replaced), i, steps, order, join, name, success, Rooted);
  }

  /** Without conditions: at most a step is added to the wait list. */
  lemma PrepareSynced(s: State, i: nat, def: Definition, depth: map<string, nat>, order: seq<string>, join: string,
        name: string, success: bool)
    requires Inv(s, i, def.steps, Synced) && Synchronous(def, depth) && name in def.steps && (i, join) in s.joins
    requires join == JoinFor(def.steps, order, name) && join != ""
    ensures Inv(PrepareJoins(s, i, def.steps, order, name, success), i, def.steps, Synced)
  {
    hide Inv, PutJoin, TerminalInFork, Synchronous, JoinOk;
    var steps, j := def.steps, s.joins[(i, join)];
    SynchronousFacts(def, depth);
    NoConditionAbove(steps, Climb(steps, steps[name].prev));
    SyncedJoin(s, i, steps, join);
    AddWaitOk(j, steps[join], name);
    BackedJoin(s, i, steps, join, AddWait(j, name));
    PutJoinInv(s, i, steps, join, AddWait(j, name), Synced);
  }

  lemma SynchronousFacts(def: Definition, depth: map<string, nat>)
    requires Synchronous(def, depth)
    ensures forall n :: n in def.steps ==> def.steps[n].kind != Condition
    ensures Flowing(def, depth)
  {
  }

  lemma FlowingFacts(def: Definition, depth: map<string, nat>)
    requires Flowing(def, depth)
    ensures NoJoinFirst(def) && Linked(def.steps, depth)
    ensures forall n, t :: n in def.steps && t in def.steps[n].parallel ==> t in def.steps
  {
  }

  lemma BackedJoin(s: State, i: nat, steps: Steps, join: string, j: JoinState)
    requires Inv(s, i, steps, Synced) && join in steps && steps[join].kind == Join && (i, join) in s.joins
    requires j.completed == s.joins[(i, join)].completed && j.failed == s.joins[(i, join)].failed
    ensures Backed(s, i, j) && forall w :: Reported(s.joins[(i, join)], w) ==> Reported(j, w)
  {
    assert JoinSynced(s, i, steps, join);
  }

  lemma PrepareLoosely(s: State, i: nat, steps: Steps, order: seq<string>, join: string, condition: string,
        name: string, success: bool)
    requires Issued(s) && i in s.instances && Inv(s, i, steps, Bare) && name in steps
    requires join == JoinFor(steps, order, name) && join != "" && condition == ConditionAbove(steps, steps[name])
    ensures Inv(PrepareJoins(s, i, steps, order, name, success), i, steps, Bare)
  {
    hide Inv, Issued, NotifyOne, PutJoin, NewJoin, Keeps, TerminalInFork;
    NewJoinInv(s, i, steps, join, [name], All);
    NewJoinInv(s, i, steps, join, [name], steps[join].strategy);
    NewJoinKeeps(s, i, join, [name], All);
    if (i, join) in s.joins {
      PutJoinLoosely(s, i, steps, join, AddWait(s.joins[(i, join)], name));
      var j := ReplaceWait(s.joins[(i, join)], VirtualName(condition), name, FirstStatus(s, i, name, s.nextRow));
      PutJoinLoosely(s, i, steps, join, j);
      PutJoinKeeps(s, i, join, j);
    }
    var s1 := if (i, join) !in s.joins then NewJoin(s, i, join, [name], All)
              else PutJoin(s, i, join, ReplaceWait(s.joins[(i, join)], VirtualName(condition), name,
                                                   FirstStatus(s, i, name, s.nextRow)));
    KeptIsIssued(s, s1, i);
    NotifyOneInv(s1, i, steps, order, join, name, success, Bare);
  }

  lemma TellInv(s: State, i: nat, def: Definition, depth: map<string, nat>, order: seq<string>, name: string,
        success: bool, level: Level)
    requires Issued(s) && i in s.instances && Inv(s, i, def.steps, level) && name in def.steps
    requires Fitting(def, depth, level)
    requires level != Bare ==> Told(s, i, name, success)
    ensures Inv(Tell(s, i, def.steps, order, name, success).0, i, def.steps, level)
  {
    hide Inv, Issued, Notify, PrepareJoins, Keeps, Fitting, Told;
    var s1 := PrepareJoins(s, i, def.steps, order, name, success);
    if level != Bare { ToldHasRow(s, i, name, success); }
    PrepareJoinsInv(s, i, def, depth, order, name, success, level);
    PrepareJoinsKeeps(s, i, def.steps, order, name, success);
    KeptIsIssued(s, s1, i);
    if level != Bare { KeepsGrows(s, s1, i); GrowsReached(s, s1, i, def.steps, name); }
    NotifyInv(s1, i, def.steps, order, order, name, success, level);
  }

  lemma ToldHasRow(s: State, i: nat, name: string, success: bool)
    requires Told(s, i, name, success)
    ensures HasRow(s, i, name)
  {
  }

  // ---- New rows ----

  /** Rows of the given names are added, nothing else that matters here. */
  ghost predicate Spawned(s: State, s': State, i: nat, names: seq<string>) {
    && (forall id :: id in s.rows ==> id in s'.rows && s'.rows[id] == s.rows[id])
    && (forall id :: id in s'.rows && id !in s.rows ==> s'.rows[id].instance == i && s'.rows[id].name in names)
    && s'.joins == s.joins && s'.log == s.log
  }

  lemma SpawnOne(s: State, i: nat, row: Row, s': State, names: seq<string>)
    requires Issued(s) && row.instance == i && names != [] && row.name == names[0]
    requires Spawned(Enqueue(CreateRow(s, row), i, s.nextRow), s', i, names[1..])
    ensures Spawned(s, s', i, names)
  {
    var s1 := Enqueue(CreateRow(s, row), i, s.nextRow);
    assert s.nextRow !in s.rows;
    forall id | id in s'.rows && id !in s.rows
      ensures s'.rows[id].instance == i && s'.rows[id].name in names
    {
      if id in s1.rows {
        assert id == s.nextRow && s'.rows[id] == row;
      }
    }
  }

  /** The new rows are those of steps, and where joins are left out they are not joins. */
  ghost predicate NewAreSteps(s: State, s': State, steps: Steps, noJoins: bool) {
    forall id :: id in s'.rows && id !in s.rows ==>
      s'.rows[id].name in steps && (noJoins ==> steps[s'.rows[id].name].kind != Join)
  }

  lemma {:induction false} EnqueueNextSpawns(s: State, i: nat, steps: Steps, names: seq<string>, skipJoins: bool)
    requires Issued(s) && i in s.instances
    ensures var s' := EnqueueNext(s, i, steps, names, skipJoins).0;
            Spawned(s, s', i, names) && NewAreSteps(s, s', steps, skipJoins)
    decreases names
  {
    if names != [] && names[0] in steps {
      hide Issued, Keeps, Spawned, NewAreSteps;
      var rest := names[1..];
      if (skipJoins && steps[names[0]].kind == Join) || InDlq(s, i) {
        EnqueueNextSpawns(s, i, steps, rest, skipJoins);
        SpawnMore(s, EnqueueNext(s, i, steps, rest, skipJoins).0, i, names);
      } else {
        SpawnFirst(s, i, steps, names, skipJoins);
        var s1 := FirstSpawned(s, i, steps, names[0]);
        EnqueueNextSpawns(s1, i, steps, rest, skipJoins);
        SpawnRest(s, i, steps, names, skipJoins, EnqueueNext(s1, i, steps, rest, skipJoins).0);
      }
    }
  }

  function FirstSpawned(s: State, i: nat, steps: Steps, name: string): State
    requires name in steps
  {
    Enqueue(CreateRow(s, Row(i, name, steps[name].kind, Pending, 0, steps[name].maxRetries, 0)), i, s.nextRow)
  }

  lemma SpawnFirst(s: State, i: nat, steps: Steps, names: seq<string>, skipJoins: bool)
    requires Issued(s) && i in s.instances && names != [] && names[0] in steps
    ensures var s1 := FirstSpawned(s, i, steps, names[0]); Issued(s1) && i in s1.instances
  {
    hide Issued, Keeps;
    var row := Row(i, names[0], steps[names[0]].kind, Pending, 0, steps[names[0]].maxRetries, 0);
    CreateAndEnqueueKeeps(s, i, row);
    KeptIsIssued(s, FirstSpawned(s, i, steps, names[0]), i);
  }

  lemma SpawnRest(s: State, i: nat, steps: Steps, names: seq<string>, skipJoins: bool, s': State)
    requires Issued(s) && names != [] && names[0] in steps && (skipJoins ==> steps[names[0]].kind != Join)
    requires var s1 := FirstSpawned(s, i, steps, names[0]);
             Spawned(s1, s', i, names[1..]) && NewAreSteps(s1, s', steps, skipJoins)
    ensures Spawned(s, s', i, names) && NewAreSteps(s, s', steps, skipJoins)
  {
    hide Issued, Spawned, NewAreSteps;
    var row := Row(i, names[0], steps[names[0]].kind, Pending, 0, steps[names[0]].maxRetries, 0);
    SpawnOne(s, i, row, s', names);
    SpawnStep(s, i, row, s', steps, skipJoins, names[1..]);
  }

  lemma SpawnMore(s: State, s': State, i: nat, names: seq<string>)
    requires names != [] && Spawned(s, s', i, names[1..])
    ensures Spawned(s, s', i, names)
  {
  }

  lemma SpawnStep(s: State, i: nat, row: Row, s': State, steps: Steps, noJoins: bool, names: seq<string>)
    requires row.name in steps && (noJoins ==> steps[row.name].kind != Join)
    requires NewAreSteps(Enqueue(CreateRow(s, row), i, s.nextRow), s', steps, noJoins)
    requires Spawned(Enqueue(CreateRow(s, row), i, s.nextRow), s', i, names)
    ensures NewAreSteps(s, s', steps, noJoins)
  {
    var s1 := Enqueue(CreateRow(s, row), i, s.nextRow);
    forall id | id in s'.rows && id !in s.rows
      ensures s'.rows[id].name in steps && (noJoins ==> steps[s'.rows[id].name].kind != Join)
    {
      if id in s1.rows {
        assert id == s.nextRow && s'.rows[id] == s1.rows[id];
      }
    }
  }

  lemma {:induction false} CreateBranchesSpawns(s: State, i: nat, steps: Steps, names: seq<string>)
    requires Issued(s) && i in s.instances
    ensures var r := CreateBranches(s, i, steps, names);
            && Spawned(s, r.0, i, names)
            && (forall id :: id in r.0.rows && id !in s.rows ==> r.0.rows[id].name in steps)
            && ((forall n :: n in names ==> n in steps) ==> r.1)
    decreases names
  {
    hide Issued;
    if names != [] && names[0] in steps {
      var d := steps[names[0]];
      var row := Row(i, names[0], d.kind, Pending, 0, d.maxRetries, 0);
      var s1 := Enqueue(CreateRow(s, row), i, s.nextRow);
      CreateAndEnqueueKeeps(s, i, row);
      CreateBranchesSpawns(s1, i, steps, names[1..]);
      SpawnOne(s, i, row, CreateBranches(s1, i, steps, names[1..]).0, names);
    }
  }

  lemma SpawnGrows(s: State, s': State, i: nat, names: seq<string>)
    requires Spawned(s, s', i, names)
    ensures Grows(s, s', i)
  {
  }

  /** Rows below a row that is there, none of them a join. */
  lemma SpawnInv(s: State, s': State, i: nat, steps: Steps, names: seq<string>, parent: string, level: Level)
    requires Inv(s, i, steps, level) && Spawned(s, s', i, names)
    requires forall id :: id in s'.rows && id !in s.rows ==>
             s'.rows[id].name in steps && steps[s'.rows[id].name].kind != Join
    requires level != Bare ==> forall id :: id in s'.rows && id !in s.rows ==>
                        steps[s'.rows[id].name].prev == parent || steps[s'.rows[id].name].prev !in steps
    requires level != Bare && parent in steps ==> HasRow(s, i, parent) && Opened(s, i, steps, parent)
    ensures Inv(s', i, steps, level)
  {
    hide Inv;
    SpawnGrows(s, s', i, names);
    GrowsReached(s, s', i, steps, parent);
    GrowRows(s, s', i, steps, level);
  }

  // ---- Forks ----

  /** The joins after a fork exist, old ones unchanged, new ones as they were defined. */
  ghost predicate JoinsSetUp(s: State, s': State, i: nat, steps: Steps, d: StepDef, names: seq<string>) {
    && s'.rows == s.rows && s'.log == s.log
    && (forall key: Key :: key in s.joins ==> key in s'.joins && s'.joins[key] == s.joins[key])
    && (forall j :: j in names && j in steps && steps[j].kind == Join ==> (i, j) in s'.joins)
    && (forall key: Key :: key in s'.joins && key !in s.joins ==>
          && key.0 == i && key.1 in names && key.1 in steps && steps[key.1].kind == Join
          && s'.joins[key] == Fresh(DeclaredWait(d, steps[key.1]), steps[key.1].strategy))
  }

  function DeclaredWait(d: StepDef, join: StepDef): seq<string> {
    if join.waitFor == [] then d.parallel else join.waitFor
  }

  lemma {:induction false} CreateJoinsSetsUp(s: State, i: nat, steps: Steps, d: StepDef, names: seq<string>)
    ensures JoinsSetUp(s, CreateJoins(s, i, steps, d, names), i, steps, d, names)
    decreases names
  {
    if names != [] {
      hide JoinsSetUp, NewJoin;
      if names[0] in steps && steps[names[0]].kind == Join {
        var s1 := NewJoin(s, i, names[0], DeclaredWait(d, steps[names[0]]), steps[names[0]].strategy);
        CreateJoinsSetsUp(s1, i, steps, d, names[1..]);
        SetUpOne(s, CreateJoins(s1, i, steps, d, names[1..]), i, steps, d, names);
      } else {
        CreateJoinsSetsUp(s, i, steps, d, names[1..]);
        SetUpNone(s, CreateJoins(s, i, steps, d, names[1..]), i, steps, d, names);
      }
    }
  }

  lemma SetUpOne(s: State, s': State, i: nat, steps: Steps, d: StepDef, names: seq<string>)
    requires names != [] && names[0] in steps && steps[names[0]].kind == Join
    requires JoinsSetUp(NewJoin(s, i, names[0], DeclaredWait(d, steps[names[0]]), steps[names[0]].strategy),
                        s', i, steps, d, names[1..])
    ensures JoinsSetUp(s, s', i, steps, d, names)
  {
    hide DeclaredWait, Fresh, NewJoin, PutJoin;
    var wait, strategy := DeclaredWait(d, steps[names[0]]), steps[names[0]].strategy;
    var s1 := NewJoin(s, i, names[0], wait, strategy);
    NewJoinIs(s, i, names[0], wait, strategy);
    forall key: Key | key in s'.joins && key !in s.joins
      ensures key.0 == i && key.1 in names && key.1 in steps && steps[key.1].kind == Join
      ensures s'.joins[key] == Fresh(DeclaredWait(d, steps[key.1]), steps[key.1].strategy)
    {
      if key in s1.joins {
        assert key == (i, names[0]) && s'.joins[key] == s1.joins[key];
      }
    }
  }

  lemma NewJoinIs(s: State, i: nat, join: string, wait: seq<string>, strategy: JoinStrategy)
    ensures var s1 := NewJoin(s, i, join, wait, strategy);
            && s1.rows == s.rows && s1.log == s.log && (i, join) in s1.joins
            && (forall key: Key :: key in s.joins ==> key in s1.joins && s1.joins[key] == s.joins[key])
            && (forall key: Key :: key in s1.joins && key !in s.joins ==>
                  key == (i, join) && s1.joins[key] == Fresh(wait, strategy))
  {
    hide Fresh;
  }

  lemma SetUpNone(s: State, s': State, i: nat, steps: Steps, d: StepDef, names: seq<string>)
    requires names != [] && !(names[0] in steps && steps[names[0]].kind == Join)
    requires JoinsSetUp(s, s', i, steps, d, names[1..])
    ensures JoinsSetUp(s, s', i, steps, d, names)
  {
  }

  lemma ForkInvLoosely(s: State, i: nat, def: Definition, name: string)
    requires Issued(s) && i in s.instances && Inv(s, i, def.steps, Bare) && name in def.steps && NoJoinFirst(def)
    ensures Inv(ExecuteFork(s, i, def.steps, def.steps[name]).0, i, def.steps, Bare)
  {
    hide Issued, CreateBranches, CreateJoins;
    var d := def.steps[name];
    var s1 := CreateBranches(s, i, def.steps, d.parallel).0;
    CreateBranchesSpawns(s, i, def.steps, d.parallel);
    SpawnInv(s, s1, i, def.steps, d.parallel, name, Bare);
    CreateJoinsSetsUp(s1, i, def.steps, d, d.next);
  }

  /** After a fork has run, its branches and its joins are there. */
  lemma ForkInv(s: State, i: nat, def: Definition, depth: map<string, nat>, name: string, level: Level)
    requires Issued(s) && i in s.instances && Inv(s, i, def.steps, level) && level != Bare
    requires Fitting(def, depth, level) && name in def.steps && HasRow(s, i, name)
    ensures var r := ExecuteFork(s, i, def.steps, def.steps[name]);
            Inv(r.0, i, def.steps, level) && r.1 && Opened(r.0, i, def.steps, name)
  {
    hide Issued, ExecuteFork, InSync, OneRowPerJoin, Forked, Synchronous, Flowing, HasRow, Opened, RowsReached;
    hide JoinsReached;
    var s2 := ExecuteFork(s, i, def.steps, def.steps[name]).0;
    FlowingFacts(def, depth);
    ForkDone(s, i, def.steps, name);
    ForkInvLoosely(s, i, def, name);
    ForkRows(s, s2, i, def, depth, name);
    ForkJoinsReached(s, s2, i, def, depth, name);
    if level == Synced {
      ForkJoins(s, s2, i, def, depth, name);
    }
  }

  lemma ForkDone(s: State, i: nat, steps: Steps, name: string)
    requires Issued(s) && i in s.instances && name in steps && HasRow(s, i, name)
    requires forall n :: n in steps[name].parallel ==> n in steps
    ensures Forked(s, ExecuteFork(s, i, steps, steps[name]).0, i, steps, name)
    ensures ExecuteFork(s, i, steps, steps[name]).1
  {
    hide Issued, CreateBranches, CreateJoins, HasRow;
    var d := steps[name];
    var s1 := CreateBranches(s, i, steps, d.parallel).0;
    CreateBranchesSpawns(s, i, steps, d.parallel);
    CreateJoinsSetsUp(s1, i, steps, d, d.next);
  }

  /** Before and after a fork has run. */
  ghost predicate Forked(s: State, s': State, i: nat, steps: Steps, name: string)
    requires name in steps
  {
    var d := steps[name];
    && HasRow(s, i, name)
    && (forall id :: id in s.rows ==> id in s'.rows && s'.rows[id] == s.rows[id])
    && (forall id :: id in s'.rows && id !in s.rows ==> s'.rows[id].instance == i && s'.rows[id].name in d.parallel)
    && s'.log == s.log
    && (forall key: Key :: key in s.joins ==> key in s'.joins && s'.joins[key] == s.joins[key])
    && (forall j :: j in d.next && j in steps && steps[j].kind == Join ==> (i, j) in s'.joins)
    && (forall key: Key :: key in s'.joins && key !in s.joins ==>
          && key.0 == i && key.1 in d.next && key.1 in steps && steps[key.1].kind == Join
          && s'.joins[key] == Fresh(DeclaredWait(d, steps[key.1]), steps[key.1].strategy))
  }

  lemma ForkRows(s: State, s': State, i: nat, def: Definition, depth: map<string, nat>, name: string)
    requires Flowing(def, depth) && name in def.steps && Forked(s, s', i, def.steps, name)
    requires RowsReached(s, i, def.steps)
    ensures RowsReached(s', i, def.steps) && Opened(s', i, def.steps, name) && HasRow(s', i, name) && Grows(s, s', i)
  {
    assert Grows(s, s', i);
    GrowsReached(s, s', i, def.steps, name);
    forall id | IsRowOf(s', i, id)
      ensures Reached(s', i, def.steps, s'.rows[id].name)
    {
      if id in s.rows {
        assert IsRowOf(s, i, id);
        GrowsReached(s, s', i, def.steps, s.rows[id].name);
      } else {
        BranchParent(def, depth, name, s'.rows[id].name);
      }
    }
  }

  lemma ForkJoinsReached(s: State, s': State, i: nat, def: Definition, depth: map<string, nat>, name: string)
    requires Flowing(def, depth) && name in def.steps && Forked(s, s', i, def.steps, name)
    requires JoinsReached(s, i, def.steps) && Opened(s', i, def.steps, name) && HasRow(s', i, name) && Grows(s, s', i)
    ensures JoinsReached(s', i, def.steps)
  {
    hide Reached, Linked;
    var steps := def.steps;
    forall j | j in steps && steps[j].kind == Join && (i, j) in s'.joins
      ensures Reached(s', i, steps, j)
    {
      if (i, j) in s.joins {
        GrowsReached(s, s', i, steps, j);
      } else {
        BranchParent(def, depth, name, j);
        NewJoinReached(s', i, steps, name, j);
      }
    }
  }

  lemma ForkJoins(s: State, s': State, i: nat, def: Definition, depth: map<string, nat>, name: string)
    requires Synchronous(def, depth) && name in def.steps && Forked(s, s', i, def.steps, name)
    requires InSync(s, i, def.steps) && Grows(s, s', i)
    ensures InSync(s', i, def.steps)
  {
    hide AllReportedTo, Backed, Linked;
    var steps := def.steps;
    forall j | j in steps && steps[j].kind == Join && (i, j) in s'.joins
      ensures JoinSynced(s', i, steps, j)
    {
      if (i, j) in s.joins {
        assert JoinSynced(s, i, steps, j);
        GrowsBacked(s, s', i, steps, s.joins[(i, j)]);
      } else {
        NothingReported(s', i, s'.joins[(i, j)]);
      }
    }
    forall id | IsRowOf(s', i, id) && s'.rows[id].name in steps && steps[s'.rows[id].name].kind == Join
      ensures AllReportedTo(s', i, steps, s'.rows[id].name)
    {
      assert IsRowOf(s, i, id) && AllReportedTo(s, i, steps, s.rows[id].name);
      SameReports(s, s', i, steps, s.rows[id].name);
    }
  }

  lemma NothingReported(s: State, i: nat, j: JoinState)
    requires j.completed == [] && j.failed == []
    ensures Backed(s, i, j)
  {
  }

  lemma NewJoinReached(s: State, i: nat, steps: Steps, name: string, j: string)
    requires name in steps && j in steps && steps[j].prev == name && HasRow(s, i, name) && Opened(s, i, steps, name)
    ensures Reached(s, i, steps, j)
  {
  }

  // ---- One execution ----

  lemma WorkInv(s: State, i: nat, def: Definition, depth: map<string, nat>, id: nat, name: string, c: Choice,
        level: Level)
    requires Issued(s) && i in s.instances && Inv(s, i, def.steps, level) && name in def.steps && NoJoinFirst(def)
    requires Fitting(def, depth, level) && (level != Bare ==> HasRow(s, i, name))
    ensures var s' := Work(s, i, def.steps, id, name, c).0;
            Inv(s', i, def.steps, level) && (level != Bare ==> Opened(s', i, def.steps, name))
  {
    hide Inv, Issued, Fitting, NoJoinFirst, ExecuteFork;
    if level != Bare {
      ForkInv(s, i, def, depth, name, level);
    } else {
      ForkInvLoosely(s, i, def, name);
    }
    NoteInv(s, i, def.steps, Ran(id), level);
  }

  lemma DecideInv(s: State, i: nat, steps: Steps, id: nat, status: StepStatus, success: bool, level: Level)
    requires Issued(s) && InPlay(s, i, id) && Inv(s, i, steps, level) && status != StepStatus.Running
    ensures var s' := Note(SetStatus(s, id, status), Ended(id, success));
            Inv(s', i, steps, level) && Told(s', i, s.rows[id].name, success)
  {
    hide Inv, Issued;
    SetStatusKept(s, i, id, status);
    QuietInv(s, SetStatus(s, id, status), i, steps, level);
    NoteInv(SetStatus(s, id, status), i, steps, Ended(id, success), level);
    var s' := Note(SetStatus(s, id, status), Ended(id, success));
    assert s'.log[|s.log|] == Ended(id, success);
    assert IsRowOf(s', i, id) && s'.rows[id].name == s.rows[id].name && Ended(id, success) in s'.log;
  }

  lemma OpenedGrows(s: State, s': State, i: nat, steps: Steps, u: string)
    requires Grows(s, s', i) && u in steps && Opened(s, i, steps, u)
    ensures Opened(s', i, steps, u)
  {
  }

  lemma {:induction false} NextInv(s: State, i: nat, def: Definition, depth: map<string, nat>, name: string,
        level: Level)
    requires Issued(s) && i in s.instances && Inv(s, i, def.steps, level) && name in def.steps && NoJoinFirst(def)
    requires Fitting(def, depth, level)
    requires level != Bare ==> HasRow(s, i, name) && Opened(s, i, def.steps, name)
    ensures Inv(EnqueueNext(s, i, def.steps, def.steps[name].next, true).0, i, def.steps, level)
  {
    hide Inv, Issued, HasRow, Opened, Spawned, Flowing, Synchronous;
    var names := def.steps[name].next;
    var s' := EnqueueNext(s, i, def.steps, names, true).0;
    EnqueueNextSpawns(s, i, def.steps, names, true);
    if level != Bare {
      FlowingFacts(def, depth);
      forall id | id in s'.rows && id !in s.rows
        ensures def.steps[s'.rows[id].name].prev == name
      {
        SpawnedName(s, s', i, names, id);
        BranchParent(def, depth, name, s'.rows[id].name);
      }
    }
    SpawnInv(s, s', i, def.steps, names, name, level);
  }

  lemma SpawnedName(s: State, s': State, i: nat, names: seq<string>, id: nat)
    requires Spawned(s, s', i, names) && id in s'.rows && id !in s.rows
    ensures s'.rows[id].name in names
  {
  }

  /** The else side: a single row that is no join. */
  lemma {:induction false} ElseInv(s: State, i: nat, def: Definition, depth: map<string, nat>, name: string,
        level: Level)
    requires Issued(s) && i in s.instances && Inv(s, i, def.steps, level) && name in def.steps && NoJoinFirst(def)
    requires Fitting(def, depth, level)
    requires level != Bare ==> HasRow(s, i, name) && Opened(s, i, def.steps, name)
    ensures Inv(EnqueueNext(s, i, def.steps, [def.steps[name].els], false).0, i, def.steps, level)
  {
    hide Inv, Issued, Spawned, HasRow, Opened, Flowing, Synchronous;
    var names := [def.steps[name].els];
    var s' := EnqueueNext(s, i, def.steps, names, false).0;
    EnqueueNextSpawns(s, i, def.steps, names, false);
    if level != Bare {
      FlowingFacts(def, depth);
    }
    forall id | id in s'.rows && id !in s.rows
      ensures def.steps[s'.rows[id].name].kind != Join
      ensures level != Bare ==> def.steps[s'.rows[id].name].prev == name
    {
      SpawnedName(s, s', i, names, id);
      if level != Bare {
        BranchParent(def, depth, name, s'.rows[id].name);
      }
    }
    SpawnInv(s, s', i, def.steps, names, name, level);
  }

  lemma HandleSuccessInv(s: State, i: nat, def: Definition, depth: map<string, nat>, id: nat, name: string,
        order: seq<string>, next: bool, level: Level)
    requires Issued(s) && i in s.instances && InPlay(s, i, id) && s.rows[id].name == name
    requires Inv(s, i, def.steps, level) && name in def.steps && NoJoinFirst(def)
    requires Fitting(def, depth, level) && (level != Bare ==> Opened(s, i, def.steps, name))
    ensures Inv(HandleSuccess(s, i, def.steps, id, name, order, next), i, def.steps, level)
  {
    hide Inv, Issued, Keeps, Tell, CompleteWorkflow, EnqueueNext, Unfinished, Note, SetStatus;
    hide Fitting, NoJoinFirst, Opened, Told, HasRow, Quiet;
    var s1 := Note(SetStatus(s, id, StepStatus.Completed), Ended(id, true));
    DecideInv(s, i, def.steps, id, StepStatus.Completed, true, level);
    DecideKeeps(s, i, id, StepStatus.Completed, true);
    KeptIsIssued(s, s1, i);
    var s2 := Tell(s1, i, def.steps, order, name, true).0;
    TellInv(s1, i, def, depth, order, name, true, level);
    TellKeeps(s1, i, def.steps, order, name, true);
    KeptIsIssued(s1, s2, i);
    CompleteWorkflowKeeps(s2, i, def.steps);
    QuietInv(s2, CompleteWorkflow(s2, i, def.steps), i, def.steps, level);
    if level != Bare {
      KeepsGrows(s, s1, i);
      KeepsGrows(s1, s2, i);
      OpenedGrows(s, s1, i, def.steps, name);
      OpenedGrows(s1, s2, i, def.steps, name);
      GrowsReached(s1, s2, i, def.steps, name);
      ToldHasRow(s2, i, name, true);
    }
    ElseInv(s2, i, def, depth, name, level);
    NextInv(s2, i, def, depth, name, level);
  }

  lemma HandleFailureInv(s: State, i: nat, def: Definition, depth: map<string, nat>, id: nat, row: Row, c: Choice,
        level: Level)
    requires Issued(s) && i in s.instances && InPlay(s, i, id) && s.rows[id].name == row.name
    requires Inv(s, i, def.steps, level) && row.name in def.steps
    requires Fitting(def, depth, level)
    ensures Inv(HandleFailure(s, i, def, id, row, c), i, def.steps, level)
  {
    hide Inv, Issued, FailStep, BuryStep, Retries, Fitting, Quiet;
    if Retries(def.steps[row.name], row) {
      var s1 := SetStatus(s, id, StepStatus.Failed);
      SetStatusKept(s, i, id, StepStatus.Failed);
      EnqueueKeeps(s1, i, id);
      QuietTransitive(s, s1, Enqueue(s1, i, id));
      QuietInv(s, Enqueue(s1, i, id), i, def.steps, level);
    } else {
      FailStepInv(s, i, def, depth, id, row.name, c, level);
      BuryStepInv(s, i, def, depth, id, row.name, c, level);
    }
  }

  lemma FailStepInv(s: State, i: nat, def: Definition, depth: map<string, nat>, id: nat, name: string, c: Choice,
        level: Level)
    requires Issued(s) && i in s.instances && InPlay(s, i, id) && s.rows[id].name == name
    requires Inv(s, i, def.steps, level) && name in def.steps && Fitting(def, depth, level)
    ensures Inv(FailStep(s, i, def.steps, id, name, c), i, def.steps, level)
  {
    hide Inv, Issued, Keeps, Tell, Unwind, Note, SetStatus, SetInstance, Fitting, Told, Quiet;
    var s1 := Note(SetStatus(s, id, StepStatus.Failed), Ended(id, false));
    DecideInv(s, i, def.steps, id, StepStatus.Failed, false, level);
    DecideKeeps(s, i, id, StepStatus.Failed, false);
    KeptIsIssued(s, s1, i);
    var s2 := Tell(s1, i, def.steps, c.order, name, false).0;
    TellInv(s1, i, def, depth, c.order, name, false, level);
    TellKeeps(s1, i, def.steps, c.order, name, false);
    KeptIsIssued(s1, s2, i);
    UnwoundInv(s2, i, def.steps, name, c, level);
  }

  lemma UnwoundInv(s: State, i: nat, steps: Steps, name: string, c: Choice, level: Level)
    requires Issued(s) && Inv(s, i, steps, level)
    ensures Inv(SetInstance(Unwind(s, i, steps, name, c), i, WorkflowStatus.Failed), i, steps, level)
  {
    hide Inv, Issued, Keeps, Unwind, SetInstance, Quiet;
    var s1 := Unwind(s, i, steps, name, c);
    UnwindKeeps(s, i, steps, name, c);
    KeptIsIssued(s, s1, i);
    SetInstanceKept(s1, i, WorkflowStatus.Failed);
    QuietTransitive(s, s1, SetInstance(s1, i, WorkflowStatus.Failed));
    QuietInv(s, SetInstance(s1, i, WorkflowStatus.Failed), i, steps, level);
  }

  lemma BuryStepInv(s: State, i: nat, def: Definition, depth: map<string, nat>, id: nat, name: string, c: Choice,
        level: Level)
    requires Issued(s) && i in s.instances && InPlay(s, i, id) && s.rows[id].name == name
    requires Inv(s, i, def.steps, level) && Fitting(def, depth, level)
    ensures Inv(BuryStep(s, i, def.steps, id, name, c), i, def.steps, level)
  {
    hide Inv, Issued, Keeps, Notify, Freeze, Note, SetStatus, Fitting, Told, Quiet;
    var s1 := Note(SetStatus(s, id, Paused), Ended(id, false));
    DecideInv(s, i, def.steps, id, Paused, false, level);
    DecideKeeps(s, i, id, Paused, false);
    KeptIsIssued(s, s1, i);
    var s2 := Notify(s1, i, def.steps, c.order, c.order, name, false).0;
    NotifyInv(s1, i, def.steps, c.order, c.order, name, false, level);
    NotifyKeeps(s1, i, def.steps, c.order, c.order, name, false);
    KeptIsIssued(s1, s2, i);
    FrozenInv(s2, i, def.steps, id, level);
  }

  lemma FrozenInv(s: State, i: nat, steps: Steps, id: nat, level: Level)
    requires Inv(s, i, steps, level)
    ensures Inv(SetInstance(Freeze(Bury(s, i, id), i), i, Dlq), i, steps, level)
  {
    hide Inv;
    QuietInv(s, SetInstance(Freeze(Bury(s, i, id), i), i, Dlq), i, steps, level);
  }

  lemma ExecuteStepInv(s: State, i: nat, def: Definition, depth: map<string, nat>, id: nat, row: Row, c: Choice,
        level: Level)
    requires Issued(s) && i in s.instances && InPlay(s, i, id) && s.rows[id].name == row.name
    requires Inv(s, i, def.steps, level) && row.name in def.steps && NoJoinFirst(def)
    requires Fitting(def, depth, level)
    ensures Inv(ExecuteStep(s, i, def, id, row, c), i, def.steps, level)
  {
    hide Inv, Issued, Keeps, Quiet, Advances, HandleCancellation, Work, HandleSuccess, HandleFailure;
    hide Fitting, NoJoinFirst, Opened, HasRow;
    if i in s.cancels {
      HandleCancellationKeeps(s, i, def.steps, s.cancels[i]);
      QuietInv(s, HandleCancellation(s, i, def.steps, s.cancels[i]), i, def.steps, level);
    } else {
      var s1 := SetStatus(s, id, StepStatus.Running);
      SetStatusKeeps(s, i, id, StepStatus.Running);
      QuietInv(s, s1, i, def.steps, level);
      RowIsThere(s1, i, id);
      var work := Work(s1, i, def.steps, id, row.name, c);
      WorkInv(s1, i, def, depth, id, row.name, c, level);
      WorkKeeps(s1, i, def.steps, id, row.name, c);
      KeptIsIssued(s1, work.0, i);
      StillInPlay(s1, i, def.steps, id, row.name, c);
      if c.late.Some? && Cancellable(s.instances[i].status) {
        HandleCancellationKeeps(work.0, i, def.steps, c.late.value);
        QuietInv(work.0, HandleCancellation(work.0, i, def.steps, c.late.value), i, def.steps, level);
      } else if !work.1 {
        HandleFailureInv(work.0, i, def, depth, id, row, c, level);
      } else {
        var next := def.steps[row.name].kind == Condition ==> c.takesNext;
        HandleSuccessInv(work.0, i, def, depth, id, row.name, c.order, next, level);
      }
    }
  }

  lemma ExecuteCompensationInv(s: State, i: nat, steps: Steps, id: nat, row: Row, c: Choice, level: Level)
    requires Issued(s) && InPlay(s, i, id) && row.name in steps && Inv(s, i, steps, level)
    ensures Inv(ExecuteCompensation(s, i, steps, id, row, c), i, steps, level)
  {
    hide Inv, Issued, Keeps, Quiet, ExecuteCompensation;
    var s' := ExecuteCompensation(s, i, steps, id, row, c);
    var s1 := Note(s, Compensated(id));
    NoteInv(s, i, steps, Compensated(id), level);
    ExecuteCompensationKeeps(s, i, steps, id, row, c);
    if Quiet(s, s') { QuietInv(s, s', i, steps, level); } else { QuietInv(s1, s', i, steps, level); }
  }

  lemma RemovalInv(s: State, i: nat, steps: Steps, q: nat, level: Level)
    requires Inv(s, i, steps, level)
    ensures Inv(RemoveItem(s, q), i, steps, level)
  {
    hide Inv;
    QuietInv(s, RemoveItem(s, q), i, steps, level);
  }

  /** The step that is worked on keeps the invariant of its own instance. */
  lemma ExecuteNextInv(s: State, q: nat, c: Choice, depth: map<string, nat>, level: Level)
    requires Issued(s) && q in s.queue && DefinedFor(s, s.queue[q].instance)
    requires Inv(s, s.queue[q].instance, DefOf(s, s.queue[q].instance).steps, level)
    requires NoJoinFirst(DefOf(s, s.queue[q].instance))
    requires Fitting(DefOf(s, s.queue[q].instance), depth, level)
    ensures Inv(ExecuteNext(s, q, c), s.queue[q].instance, DefOf(s, s.queue[q].instance).steps, level)
  {
    hide Inv, Issued, ExecuteStep, ExecuteCompensation, Fitting, NoJoinFirst, Keeps, Quiet;
    var i, id := s.queue[q].instance, s.queue[q].row;
    var def, claimed := DefOf(s, i), RemoveItem(s, q);
    RemoveItemKeeps(s, i, q);
    KeptIsIssued(s, claimed, i);
    QuietInv(s, claimed, i, def.steps, level);
    RemovalInv(claimed, i, def.steps, id, level);
    if Runnable(s, q) && !LacksHandler(def.steps, s.rows[id], c) {
      if s.rows[id].status == Compensation {
        ExecuteCompensationInv(claimed, i, def.steps, id, s.rows[id], c, level);
      } else {
        ExecuteStepInv(claimed, i, def, depth, id, s.rows[id], c, level);
      }
    }
  }

  lemma RowIsThere(s: State, i: nat, id: nat)
    requires IsRowOf(s, i, id)
    ensures HasRow(s, i, s.rows[id].name)
  {
  }

  // ---- Runs ----

  /** The definitions that the theorems are about. */
  ghost predicate Fits(def: Definition, level: Level) {
    NoJoinFirst(def) && exists depth :: Fitting(def, depth, level)
  }

  ghost predicate AllInv(s: State, level: Level) {
    forall i :: DefinedFor(s, i) && Fits(DefOf(s, i), level) ==> Inv(s, i, DefOf(s, i).steps, level)
  }

  /** What other instances do does not matter. */
  lemma OtherInv(s: State, s': State, i: nat, k: nat, steps: Steps, level: Level)
    requires Issued(s) && Result(s, s', i) && k != i && Inv(s, k, steps, level)
    ensures Inv(s', k, steps, level)
  {
    hide Inv, Issued;
    assert forall id :: IsRowOf(s, k, id) ==> IsRowOf(s', k, id) && s'.rows[id] == s.rows[id];
    assert forall id :: IsRowOf(s', k, id) ==> IsRowOf(s, k, id);
    GrowRows(s, s', k, steps, level);
  }

  lemma ExecuteAllInv(s: State, q: nat, c: Choice, level: Level)
    requires Issued(s) && AllInv(s, level)
    ensures AllInv(ExecuteNext(s, q, c), level)
  {
    hide Inv, Issued, ExecuteNext, NoJoinFirst, Fitting, KeepsOrFroze, Performed, Result;
    var s', i := ExecuteNext(s, q, c), Worked(s, q);
    if q !in s.queue {
      NothingPicked(s, q, c);
    } else {
      ExecuteNextKeeps(s, q, c);
      Outcome(s, s', i);
      forall k | DefinedFor(s', k) && Fits(DefOf(s', k), level)
        ensures Inv(s', k, DefOf(s', k).steps, level)
      {
        SameDefinition(s, s', i, k);
        if k == i {
          var depth :| Fitting(DefOf(s, i), depth, level);
          ExecuteNextInv(s, q, c, depth, level);
        } else {
          OtherInv(s, s', i, k, DefOf(s, k).steps, level);
        }
      }
    }
  }

  lemma SameDefinition(s: State, s': State, i: nat, k: nat)
    requires Result(s, s', i)
    ensures DefinedFor(s', k) <==> DefinedFor(s, k)
    ensures DefinedFor(s', k) ==> DefOf(s', k) == DefOf(s, k)
  {
  }

  lemma StartAllInv(s: State, workflow: string, level: Level)
    requires Issued(s) && AllInv(s, level)
    ensures AllInv(StartWorkflow(s, workflow), level)
  {
    hide Inv, Issued, NoJoinFirst, Fitting, EnqueueNext, WellFormed, Result, Keeps;
    if workflow in s.defs && s.defs[workflow].start in s.defs[workflow].steps && WellFormed(s.defs[workflow]) {
      var i, def := s.nextInstance, s.defs[workflow];
      var s1 := NewInstance(s, workflow);
      NewInstanceIssued(s, workflow);
      var s2 := EnqueueNext(s1, i, def.steps, [def.start], false).0;
      EnqueueNextKeeps(s1, i, def.steps, [def.start], false);
      Outcome(s1, s2, i);
      forall k | DefinedFor(s2, k) && Fits(DefOf(s2, k), level)
        ensures Inv(s2, k, DefOf(s2, k).steps, level)
      {
        SameDefinition(s1, s2, i, k);
        if k == i {
          StartInv(s, workflow, level);
        } else {
          NewInstanceIsNew(s, workflow, k);
          QuietInv(s, s1, k, DefOf(s, k).steps, level);
          OtherInv(s1, s2, i, k, DefOf(s1, k).steps, level);
        }
      }
    }
  }

  lemma NewInstanceIsNew(s: State, workflow: string, k: nat)
    requires Issued(s) && k != s.nextInstance
    ensures DefinedFor(NewInstance(s, workflow), k) <==> DefinedFor(s, k)
    ensures DefinedFor(s, k) ==> DefOf(NewInstance(s, workflow), k) == DefOf(s, k)
  {
  }

  /** A new instance has only its start row. */
  lemma StartInv(s: State, workflow: string, level: Level)
    requires Issued(s) && workflow in s.defs && Fits(s.defs[workflow], level)
    ensures var i, def := s.nextInstance, s.defs[workflow];
            Inv(EnqueueNext(NewInstance(s, workflow), i, def.steps, [def.start], false).0, i, def.steps, level)
  {
    hide EnqueueNext, Spawned, Inv;
    var i, def, s1 := s.nextInstance, s.defs[workflow], NewInstance(s, workflow);
    NewInstanceIssued(s, workflow);
    NothingYet(s, workflow, level);
    var s2 := EnqueueNext(s1, i, def.steps, [def.start], false).0;
    EnqueueNextSpawns(s1, i, def.steps, [def.start], false);
    forall id | id in s2.rows && id !in s1.rows
      ensures def.steps[s2.rows[id].name].kind != Join
      ensures level != Bare ==> def.steps[s2.rows[id].name].prev !in def.steps
    {
      SpawnedName(s1, s2, i, [def.start], id);
    }
    assert ROOT !in def.steps || level == Bare;
    SpawnInv(s1, s2, i, def.steps, [def.start], ROOT, level);
  }

  lemma NothingYet(s: State, workflow: string, level: Level)
    requires Issued(s) && workflow in s.defs
    ensures Inv(NewInstance(s, workflow), s.nextInstance, s.defs[workflow].steps, level)
  {
    var s1 := NewInstance(s, workflow);
    assert forall id :: !IsRowOf(s1, s.nextInstance, id);
    assert forall j: string :: (s.nextInstance, j) !in s1.joins;
  }

  lemma RequeueAllInv(s: State, dead: nat, level: Level)
    requires Issued(s) && AllInv(s, level)
    ensures AllInv(Requeue(s, dead), level)
  {
    hide Inv, Issued, Requeue, NoJoinFirst, Fitting;
    var s' := Requeue(s, dead);
    RequeueFacts(s, dead);
    RequeueRest(s, dead);
    RequeueInstances(s, dead);
    forall k | DefinedFor(s', k) && Fits(DefOf(s', k), level)
      ensures Inv(s', k, DefOf(s', k).steps, level)
    {
      QuietInv(s, s', k, DefOf(s, k).steps, level);
    }
  }

  lemma RequestAllInv(s: State, i: nat, kind: CancelKind, level: Level)
    requires AllInv(s, level)
    ensures AllInv(RequestCancel(s, i, kind), level)
  {
    hide Inv, Fits;
    var s' := RequestCancel(s, i, kind);
    assert Quiet(s, s') && s'.defs == s.defs && s'.instances == s.instances;
    hide RequestCancel, Quiet;
    forall k | DefinedFor(s', k) && Fits(DefOf(s', k), level)
      ensures Inv(s', k, DefOf(s', k).steps, level)
    {
      QuietInv(s, s', k, DefOf(s, k).steps, level);
    }
  }

  lemma StepAllInv(s: State, e: Event, level: Level)
    requires Orderly(s) && AllInv(s, level)
    ensures Orderly(Step(s, e)) && AllInv(Step(s, e), level)
  {
    hide Orderly, AllInv, ExecuteNext, StartWorkflow, Requeue, RequestCancel, Issued;
    StepOrderly(s, e);
    OrderlyIsIssued(s);
    match e
    case Start(workflow) => StartAllInv(s, workflow, level);
    case Execute(q, c) => ExecuteAllInv(s, q, c, level);
    case RequestStop(i, kind) => RequestAllInv(s, i, kind, level);
    case RequeueLetter(dead) => RequeueAllInv(s, dead, level);
  }

  lemma {:induction false} RunAllInv(s: State, events: seq<Event>, level: Level)
    requires Orderly(s) && AllInv(s, level)
    ensures AllInv(After(s, events), level)
    decreases events
  {
    hide Orderly, AllInv, Step;
    if events != [] {
      StepAllInv(s, events[0], level);
      RunAllInv(Step(s, events[0]), events[1..], level);
    }
  }

  lemma {:induction false} ReachableInv(defs: map<string, Definition>, events: seq<Event>, i: nat, level: Level)
    requires var s := After(Initial(defs), events); DefinedFor(s, i) && Fits(DefOf(s, i), level)
    ensures var s := After(Initial(defs), events); Inv(s, i, DefOf(s, i).steps, level)
  {
    hide Inv, After, NoJoinFirst, Fitting, Orderly;
    InitialOrderly(defs);
    assert AllInv(Initial(defs), level);
    RunAllInv(Initial(defs), events, level);
  }

  /**
   In every run, an instance has at most one row for each join, although several completions
   may find the join ready; only definitions in which a join comes first somewhere are excluded.
   */
  lemma {:induction false} AtMostOneRowPerJoin(defs: map<string, Definition>, events: seq<Event>, i: nat, a: nat,
        b: nat)
    requires var s := After(Initial(defs), events);
             && DefinedFor(s, i) && NoJoinFirst(DefOf(s, i))
             && IsRowOf(s, i, a) && IsRowOf(s, i, b) && s.rows[a].name == s.rows[b].name
             && s.rows[a].name in DefOf(s, i).steps && DefOf(s, i).steps[s.rows[a].name].kind == Join
    ensures a == b
  {
    hide After, NoJoinFirst;
    assert Fitting(DefOf(After(Initial(defs), events), i), map[], Bare);
    ReachableInv(defs, events, i, Bare);
  }

  /**
   In every run of a synchronous definition, the row of a join exists only if every step that
   the join waits for has ended, in success or final failure, and has reported that to the join.
   */
  lemma {:induction false} JoinsSynchronise(defs: map<string, Definition>, events: seq<Event>, i: nat,
        depth: map<string, nat>, id: nat, awaited: string)
    requires var s := After(Initial(defs), events);
             && DefinedFor(s, i) && Synchronous(DefOf(s, i), depth)
             && IsRowOf(s, i, id) && s.rows[id].name in DefOf(s, i).steps
             && DefOf(s, i).steps[s.rows[id].name].kind == Join
             && awaited in DefOf(s, i).steps[s.rows[id].name].waitFor
    ensures var s := After(Initial(defs), events);
            var key := (i, s.rows[id].name);
            && key in s.joins
            && ((awaited in s.joins[key].completed && Told(s, i, awaited, true))
                || (awaited in s.joins[key].failed && Told(s, i, awaited, false)))
  {
    hide After, NoJoinFirst, Synchronous, Flowing, JoinOk, InReach;
    var s := After(Initial(defs), events);
    SynchronousFacts(DefOf(s, i), depth);
    FlowingFacts(DefOf(s, i), depth);
    assert Fitting(DefOf(s, i), depth, Synced);
    ReachableInv(defs, events, i, Synced);
    var join := s.rows[id].name;
    assert AllReportedTo(s, i, DefOf(s, i).steps, join);
    assert JoinSynced(s, i, DefOf(s, i).steps, join);
  }

  /**
   In every run of a workflow whose links run both ways, conditions included, the join around a
   step has its state as soon as the step has a row. So whenever a step below a condition takes
   its placeholder, or a step is added to a wait list, there is a state to edit.
   */
  lemma {:induction false} JoinStatesAreSetUp(defs: map<string, Definition>, events: seq<Event>, i: nat,
        depth: map<string, nat>, order: seq<string>, id: nat)
    requires var s := After(Initial(defs), events);
             && DefinedFor(s, i) && Flowing(DefOf(s, i), depth)
             && IsRowOf(s, i, id) && s.rows[id].name in DefOf(s, i).steps
             && JoinFor(DefOf(s, i).steps, order, s.rows[id].name) != ""
    ensures var s := After(Initial(defs), events);
            (i, JoinFor(DefOf(s, i).steps, order, s.rows[id].name)) in s.joins
  {
    hide After, NoJoinFirst, Flowing, Reached, JoinFor;
    var s := After(Initial(defs), events);
    FlowingFacts(DefOf(s, i), depth);
    assert Fitting(DefOf(s, i), depth, Rooted);
    ReachableInv(defs, events, i, Rooted);
    JoinAroundExists(s, i, DefOf(s, i), depth, order, s.rows[id].name);
  }

  // ---- The joins that wait for a step ----

  /** What each join waits for, placeholders apart, lies in the branches of the fork that it follows. */
  ghost predicate AwaitsBelow(steps: Steps) {
    forall j :: j in steps && steps[j].kind == Join ==>
      && steps[j].prev in steps && steps[steps[j].prev].kind == Fork
      && forall t :: t in steps[j].waitFor ==>
           IsVirtual(t) || exists p :: p in steps[steps[j].prev].parallel && Reaches(Flow(steps), p, t)
  }

  /** Every step above a row has a row. */
  lemma {:induction false} AncestorHasRow(s: State, i: nat, def: Definition, depth: map<string, nat>, a: string,
        n: string)
    requires Linked(def.steps, depth) && RowsReached(s, i, def.steps)
    requires a in def.steps && n in def.steps && Reaches(Flow(def.steps), a, n) && HasRow(s, i, n)
    ensures HasRow(s, i, a)
    decreases if n in depth then depth[n] else 0
  {
    if a != n {
      var w := ReachesByLastEdge(Flow(def.steps), a, n);
      assert def.steps[n].prev == w && w in def.steps;
      RowsAreReached(s, i, def.steps, n);
      EdgeReaches(Flow(def.steps), w, n);
      ReachesDownwards(def.steps, depth, w, n) by { ParentDiffers(def.steps, depth, w, n); }
      AncestorHasRow(s, i, def, depth, a, w);
    }
  }

  lemma ParentDiffers(steps: Steps, depth: map<string, nat>, w: string, n: string)
    requires Linked(steps, depth) && Edge(Flow(steps), w, n)
    ensures w != n
  {
  }

  /**
   In every run of such a workflow, every join that waits for a step has been set up as soon as
   the step has a row.
   */
  lemma {:induction false} AwaitingJoinsAreThere(defs: map<string, Definition>, events: seq<Event>, i: nat,
        depth: map<string, nat>, name: string, join: string)
    requires var s := After(Initial(defs), events);
             && DefinedFor(s, i) && Flowing(DefOf(s, i), depth) && AwaitsBelow(DefOf(s, i).steps)
             && HasRow(s, i, name) && !IsVirtual(name)
             && join in DefOf(s, i).steps && DefOf(s, i).steps[join].kind == Join
             && name in DefOf(s, i).steps[join].waitFor
    ensures (i, join) in After(Initial(defs), events).joins
  {
    hide After, NoJoinFirst, Flowing, HasRow, Reaches;
    var s := After(Initial(defs), events);
    FlowingFacts(DefOf(s, i), depth);
    assert Fitting(DefOf(s, i), depth, Rooted);
    ReachableInv(defs, events, i, Rooted);
    AwaitingIsThere(s, i, DefOf(s, i), depth, name, join);
  }

  /** In every run of such a workflow, every row is of a step of it. */
  lemma {:induction false} RowsAreKnown(defs: map<string, Definition>, events: seq<Event>, i: nat,
        depth: map<string, nat>)
    requires var s := After(Initial(defs), events); DefinedFor(s, i) && Flowing(DefOf(s, i), depth)
    ensures var s := After(Initial(defs), events);
            Issued(s) && forall k: nat :: IsRowOf(s, i, k) ==> s.rows[k].name in DefOf(s, i).steps
  {
    hide After, NoJoinFirst, Flowing, Orderly, Issued;
    var s := After(Initial(defs), events);
    FlowingFacts(DefOf(s, i), depth);
    assert Fitting(DefOf(s, i), depth, Rooted);
    ReachableInv(defs, events, i, Rooted);
    InitialOrderly(defs);
    RunOrderly(Initial(defs), events);
    OrderlyIsIssued(s);
  }

  lemma AwaitingIsThere(s: State, i: nat, def: Definition, depth: map<string, nat>, name: string, join: string)
    requires Linked(def.steps, depth) && NoJoinFirst(def) && RowsReached(s, i, def.steps) && AwaitsBelow(def.steps)
    requires forall n, t :: n in def.steps && t in def.steps[n].parallel ==> t in def.steps
    requires HasRow(s, i, name) && !IsVirtual(name)
    requires join in def.steps && def.steps[join].kind == Join && name in def.steps[join].waitFor
    ensures (i, join) in s.joins
  {
    hide HasRow, Reaches, AwaitsBelow, Linked, NoJoinFirst, RowsReached, Flow;
    var steps := def.steps;
    var fork := steps[join].prev;
    var p := AwaitedBranch(steps, name, join);
    RowsAreReached(s, i, steps, name);
    AncestorHasRow(s, i, def, depth, p, name);
    RowsAreReached(s, i, steps, p);
    BranchParent(def, depth, fork, p);
    JoinIsNext(def, depth, join);
  }

  lemma AwaitedBranch(steps: Steps, name: string, join: string) returns (p: string)
    requires AwaitsBelow(steps) && join in steps && steps[join].kind == Join && name in steps[join].waitFor
    requires !IsVirtual(name)
    ensures steps[join].prev in steps && steps[steps[join].prev].kind == Fork
    ensures p in steps[steps[join].prev].parallel && Reaches(Flow(steps), p, name)
  {
    p :| p in steps[steps[join].prev].parallel && Reaches(Flow(steps), p, name);
  }

  lemma JoinIsNext(def: Definition, depth: map<string, nat>, join: string)
    requires Linked(def.steps, depth) && NoJoinFirst(def)
    requires join in def.steps && def.steps[join].kind == Join && def.steps[join].prev in def.steps
    ensures join in def.steps[def.steps[join].prev].next
  {
    var fork := def.steps[join].prev;
    assert Edge(Flow(def.steps), fork, join);
    assert join in Successors(def.steps[fork]);
  }
}
