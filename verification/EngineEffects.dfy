/**
 What one execution of a step adds to an instance: which rows and queue items come, for every
 kind of step and any definition.
 */
module EngineEffects {
  import opened Definitions
  import opened Searches
  import opened Rollback
  import opened JoinStates
  import opened Validator
  import opened Engine
  import opened EngineFrame

  /** The new rows that carry a name. */
  function NewNamed(s: State, s': State, name: string): set<nat> {
    set id | id in s'.rows && id !in s.rows && s'.rows[id].name == name
  }

  /** A row as it comes: pending, with exactly one queue item. */
  predicate FreshRow(s: State, i: nat, id: nat)
    requires id in s.rows
  {
    var row := s.rows[id];
    && row.instance == i && row.status == Pending && row.retry == 0 && row.comp == 0
    && |Items(s, id)| == 1
  }

  /** Fresh rows and their items have come; of everything else at most join states differ. */
  ghost predicate Grown(s: State, s': State, i: nat) {
    && s'.defs == s.defs && s'.instances == s.instances && s'.cancels == s.cancels
    && s'.dead == s.dead && s'.log == s.log
    && (forall id :: id in s.rows ==> id in s'.rows && s'.rows[id] == s.rows[id])
    && (forall q :: q in s.queue ==> q in s'.queue && s'.queue[q] == s.queue[q])
    && (forall q :: q in s'.queue && q !in s.queue ==> s'.queue[q].instance == i && s'.queue[q].row !in s.rows)
    && (forall id :: id in s'.rows && id !in s.rows ==> FreshRow(s', i, id))
  }

  lemma GrownSame(s: State, s': State, i: nat)
    requires s' == s.(joins := s'.joins)
    ensures Grown(s, s', i) && forall n :: NewNamed(s, s', n) == {}
  {
  }

  lemma GrownTwice(s: State, s1: State, s2: State, i: nat)
    requires Grown(s, s1, i) && Grown(s1, s2, i)
    ensures Grown(s, s2, i)
  {
    forall id | id in s2.rows && id !in s.rows
      ensures FreshRow(s2, i, id)
    {
      if id in s1.rows {
        SameItemsOf(s1, s2, i, id);
      }
    }
  }

  lemma SameItemsOf(s: State, s': State, i: nat, id: nat)
    requires Grown(s, s', i) && id in s.rows
    ensures Items(s', id) == Items(s, id)
  {
  }

  lemma NamedTwice(s: State, s1: State, s2: State, i: nat, n: string)
    requires Grown(s, s1, i) && Grown(s1, s2, i)
    ensures |NewNamed(s, s2, n)| == |NewNamed(s, s1, n)| + |NewNamed(s1, s2, n)|
  {
    assert NewNamed(s, s2, n) == NewNamed(s, s1, n) + NewNamed(s1, s2, n);
    assert NewNamed(s, s1, n) !! NewNamed(s1, s2, n);
  }

  /** The new rows are of known steps, and look like them. */
  ghost predicate NewOfSteps(s: State, s': State, steps: Steps) {
    forall id :: id in s'.rows && id !in s.rows ==>
      && s'.rows[id].name in steps && s'.rows[id].kind == steps[s'.rows[id].name].kind
      && (steps[s'.rows[id].name].kind != Join ==> s'.rows[id].maxRetries == steps[s'.rows[id].name].maxRetries)
  }

  /** The new rows are rows of joins. */
  ghost predicate OnlyJoins(s: State, s': State, steps: Steps) {
    forall id :: id in s'.rows && id !in s.rows ==>
      s'.rows[id].name in steps && steps[s'.rows[id].name].kind == Join && s'.rows[id].kind == Join
      && s'.rows[id].maxRetries == 0
  }

  lemma OnlyJoinsTwice(s: State, s1: State, s2: State, i: nat, steps: Steps)
    requires Grown(s, s1, i) && Grown(s1, s2, i) && OnlyJoins(s, s1, steps) && OnlyJoins(s1, s2, steps)
    ensures OnlyJoins(s, s2, steps)
  {
    forall id | id in s2.rows && id !in s.rows
      ensures s2.rows[id].name in steps && steps[s2.rows[id].name].kind == Join && s2.rows[id].kind == Join
      ensures s2.rows[id].maxRetries == 0
    {
      if id in s1.rows {
        assert s2.rows[id] == s1.rows[id];
      }
    }
  }

  // ---- One row ----

  lemma RowComes(s: State, i: nat, row: Row)
    requires Issued(s) && row.instance == i && row.status == Pending && row.retry == 0 && row.comp == 0
    ensures var s' := Enqueue(CreateRow(s, row), i, s.nextRow);
            && Grown(s, s', i)
            && (forall n :: NewNamed(s, s', n) == if n == row.name then {s.nextRow} else {})
            && (forall id :: id in s'.rows && id !in s.rows ==> s'.rows[id] == row)
  {
    var s' := Enqueue(CreateRow(s, row), i, s.nextRow);
    assert s.nextRow !in s.rows && s.nextItem !in s.queue;
    assert Items(s', s.nextRow) == {s.nextItem};
  }

  function StepRow(i: nat, steps: Steps, name: string): Row
    requires name in steps
  {
    Row(i, name, steps[name].kind, Pending, 0, steps[name].maxRetries, 0)
  }

  /** How often a list of steps calls for a row of that name. */
  function Mentions(steps: Steps, names: seq<string>, skipJoins: bool, n: string): nat {
    if skipJoins && n in steps && steps[n].kind == Join then 0 else multiset(names)[n]
  }

  lemma MentionsFirst(steps: Steps, names: seq<string>, skipJoins: bool, n: string)
    requires names != [] && names[0] in steps
    ensures Mentions(steps, names, skipJoins, n) == Mentions(steps, names[1..], skipJoins, n)
            + if n == names[0] && !(skipJoins && steps[n].kind == Join) then 1 else 0
  {
    assert names == [names[0]] + names[1..];
  }

  /** Every mention of a step in the list brings one row of it, joins left out where they are skipped. */
  lemma {:induction false} EnqueueNextAdds(s: State, i: nat, steps: Steps, names: seq<string>, skipJoins: bool)
    requires Issued(s) && i in s.instances && !InDlq(s, i) && forall n :: n in names ==> n in steps
    ensures var s' := EnqueueNext(s, i, steps, names, skipJoins).0;
            && Grown(s, s', i) && NewOfSteps(s, s', steps)
            && forall n :: |NewNamed(s, s', n)| == Mentions(steps, names, skipJoins, n)
    decreases names
  {
    hide Issued, Grown, NewNamed, Mentions, NewOfSteps, Enqueue, CreateRow;
    if names == [] {
      GrownSame(s, s, i);
      NothingNew(s, steps);
      assert forall n :: Mentions(steps, names, skipJoins, n) == 0 by { NoMentions(steps, skipJoins); }
    } else {
      forall n ensures Mentions(steps, names, skipJoins, n) == Mentions(steps, names[1..], skipJoins, n)
                       + if n == names[0] && !(skipJoins && steps[n].kind == Join) then 1 else 0
      {
        MentionsFirst(steps, names, skipJoins, n);
      }
      if skipJoins && steps[names[0]].kind == Join {
        EnqueueNextAdds(s, i, steps, names[1..], skipJoins);
      } else {
        var s1 := Enqueue(CreateRow(s, StepRow(i, steps, names[0])), i, s.nextRow);
        FirstRowComes(s, i, steps, names[0]);
        EnqueueNextAdds(s1, i, steps, names[1..], skipJoins);
        AddsTwice(s, s1, EnqueueNext(s1, i, steps, names[1..], skipJoins).0, i, steps, names[0]);
      }
    }
  }

  lemma NothingNew(s: State, steps: Steps)
    ensures NewOfSteps(s, s, steps) && forall n :: NewNamed(s, s, n) == {}
  {
  }

  lemma NoMentions(steps: Steps, skipJoins: bool)
    ensures forall n :: Mentions(steps, [], skipJoins, n) == 0
  {
  }

  lemma FirstRowComes(s: State, i: nat, steps: Steps, name: string)
    requires Issued(s) && i in s.instances && !InDlq(s, i) && name in steps
    ensures var s1 := Enqueue(CreateRow(s, StepRow(i, steps, name)), i, s.nextRow);
            && Issued(s1) && i in s1.instances && !InDlq(s1, i)
            && Grown(s, s1, i) && NewOfSteps(s, s1, steps)
            && forall n :: |NewNamed(s, s1, n)| == if n == name then 1 else 0
  {
    hide Issued, Keeps, Grown, NewNamed;
    var row := StepRow(i, steps, name);
    var s1 := Enqueue(CreateRow(s, row), i, s.nextRow);
    RowComes(s, i, row);
    CreateAndEnqueueKeeps(s, i, row);
    KeptIsIssued(s, s1, i);
  }

  lemma AddsTwice(s: State, s1: State, s2: State, i: nat, steps: Steps, name: string)
    requires Grown(s, s1, i) && NewOfSteps(s, s1, steps) && Grown(s1, s2, i) && NewOfSteps(s1, s2, steps)
    requires forall n :: |NewNamed(s, s1, n)| == if n == name then 1 else 0
    ensures Grown(s, s2, i) && NewOfSteps(s, s2, steps)
    ensures forall n :: |NewNamed(s, s2, n)| == |NewNamed(s1, s2, n)| + if n == name then 1 else 0
  {
    hide NewNamed, FreshRow;
    GrownTwice(s, s1, s2, i);
    forall n ensures |NewNamed(s, s2, n)| == |NewNamed(s1, s2, n)| + if n == name then 1 else 0 {
      NamedTwice(s, s1, s2, i, n);
    }
    forall id | id in s2.rows && id !in s.rows && id in s1.rows
      ensures s2.rows[id] == s1.rows[id]
    {
    }
  }

  /** Every mention of a branch brings one row of it. */
  lemma {:induction false} CreateBranchesAdds(s: State, i: nat, steps: Steps, names: seq<string>)
    requires Issued(s) && i in s.instances && !InDlq(s, i) && forall n :: n in names ==> n in steps
    ensures var r := CreateBranches(s, i, steps, names);
            && r.1 && Grown(s, r.0, i) && NewOfSteps(s, r.0, steps)
            && forall n :: |NewNamed(s, r.0, n)| == Mentions(steps, names, false, n)
    decreases names
  {
    hide Issued, Grown, NewNamed, Mentions, NewOfSteps, Enqueue, CreateRow;
    if names == [] {
      GrownSame(s, s, i);
      NothingNew(s, steps);
      assert forall n :: Mentions(steps, names, false, n) == 0 by { NoMentions(steps, false); }
    } else {
      var s1 := Enqueue(CreateRow(s, StepRow(i, steps, names[0])), i, s.nextRow);
      FirstRowComes(s, i, steps, names[0]);
      CreateBranchesAdds(s1, i, steps, names[1..]);
      AddsTwice(s, s1, CreateBranches(s1, i, steps, names[1..]).0, i, steps, names[0]);
      forall n ensures Mentions(steps, names, false, n) == Mentions(steps, names[1..], false, n)
                       + if n == names[0] then 1 else 0
      {
        MentionsFirst(steps, names, false, n);
      }
    }
  }

  // ---- Reports to joins ----

  /** Rows of joins have come, and nothing else but join states differs. */
  ghost predicate Joined(s: State, s': State, i: nat, steps: Steps) {
    Grown(s, s', i) && OnlyJoins(s, s', steps) && Issued(s')
  }

  lemma JoinedTwice(s: State, s1: State, s2: State, i: nat, steps: Steps)
    requires Joined(s, s1, i, steps) && Joined(s1, s2, i, steps)
    ensures Joined(s, s2, i, steps)
  {
    hide Grown, OnlyJoins, Issued;
    GrownTwice(s, s1, s2, i);
    OnlyJoinsTwice(s, s1, s2, i, steps);
  }

  lemma StillRuns(s: State, s': State, i: nat, steps: Steps)
    requires Joined(s, s', i, steps)
    ensures s'.instances == s.instances && s'.log == s.log && s'.cancels == s.cancels && Issued(s')
  {
  }

  lemma PutJoinJoined(s: State, i: nat, steps: Steps, join: string, j: JoinState)
    requires Issued(s) && i in s.instances
    ensures Joined(s, PutJoin(s, i, join, j), i, steps)
  {
    hide Issued, Keeps;
    PutJoinKeeps(s, i, join, j);
    KeptIsIssued(s, PutJoin(s, i, join, j), i);
    GrownSame(s, PutJoin(s, i, join, j), i);
  }

  lemma JoinRowJoined(s: State, i: nat, steps: Steps, join: string)
    requires Issued(s) && i in s.instances && !InDlq(s, i) && join in steps && steps[join].kind == Join
    ensures Joined(s, CreateJoinRow(s, i, join), i, steps)
    ensures forall n :: |NewNamed(s, CreateJoinRow(s, i, join), n)| == if n == join then 1 else 0
  {
    hide Issued, Keeps, Grown, NewNamed;
    var row := Row(i, join, Join, Pending, 0, 0, 0);
    RowComes(s, i, row);
    CreateAndEnqueueKeeps(s, i, row);
    KeptIsIssued(s, CreateJoinRow(s, i, join), i);
  }

  lemma JoinedItself(s: State, i: nat, steps: Steps)
    requires Issued(s)
    ensures Joined(s, s, i, steps)
  {
    hide Issued;
    GrownSame(s, s, i);
  }

  lemma NotifyOneJoined(s: State, i: nat, steps: Steps, order: seq<string>, join: string, name: string, success: bool)
    requires Issued(s) && i in s.instances && !InDlq(s, i) && join in steps && steps[join].kind == Join
    ensures Joined(s, NotifyOne(s, i, steps, order, join, name, success).0, i, steps)
  {
    hide Issued, Joined, PutJoin, CreateJoinRow, BranchesPending, Update, HasRow;
    JoinedItself(s, i, steps);
    if (i, join) in s.joins {
      var updated := Update(s.joins[(i, join)], name, success);
      var s1 := PutJoin(s, i, join, updated);
      var s2 := PutJoin(s1, i, join, Update(updated, name, success));
      PutJoinJoined(s, i, steps, join, updated);
      StillRuns(s, s1, i, steps);
      PutJoinJoined(s1, i, steps, join, Update(updated, name, success));
      JoinRowJoined(s1, i, steps, join);
      JoinedTwice(s, s1, s2, i, steps);
      JoinedTwice(s, s1, CreateJoinRow(s1, i, join), i, steps);
    }
  }

  lemma {:induction false} NotifyJoined(s: State, i: nat, steps: Steps, order: seq<string>, rest: seq<string>,
        name: string, success: bool)
    requires Issued(s) && i in s.instances && !InDlq(s, i)
    ensures Joined(s, Notify(s, i, steps, order, rest, name, success).0, i, steps)
    decreases rest
  {
    hide Issued, Joined, NotifyOne;
    JoinedItself(s, i, steps);
    if rest != [] {
      if Waits(s, i, steps, rest[0], name) {
        var one := NotifyOne(s, i, steps, order, rest[0], name, success);
        NotifyOneJoined(s, i, steps, order, rest[0], name, success);
        StillRuns(s, one.0, i, steps);
        if one.1 {
          NotifyJoined(one.0, i, steps, order, rest[1..], name, success);
          JoinedTwice(s, one.0, Notify(one.0, i, steps, order, rest[1..], name, success).0, i, steps);
        }
      } else {
        NotifyJoined(s, i, steps, order, rest[1..], name, success);
      }
    }
  }

  lemma PrepareJoinsJoined(s: State, i: nat, steps: Steps, order: seq<string>, name: string, success: bool)
    requires Issued(s) && i in s.instances && !InDlq(s, i) && name in steps
    ensures Joined(s, PrepareJoins(s, i, steps, order, name, success), i, steps)
  {
    hide Issued, Joined, PutJoin, NotifyOne, JoinFor, ReplaceWait, FirstStatus, AddWait, TerminalInFork, ConditionAbove;
    var join, condition := JoinFor(steps, order, name), ConditionAbove(steps, steps[name]);
    JoinedItself(s, i, steps);
    if join != "" {
      var known := (i, join) in s.joins;
      var j := if condition == "" then
                 (if known then AddWait(s.joins[(i, join)], name) else Fresh([name], steps[join].strategy))
               else if known then
                 ReplaceWait(s.joins[(i, join)], VirtualName(condition), name, FirstStatus(s, i, name, s.nextRow))
               else Fresh([name], All);
      var s1 := PutJoin(s, i, join, j);
      PutJoinJoined(s, i, steps, join, j);
      StillRuns(s, s1, i, steps);
      NotifyOneJoined(s1, i, steps, order, join, name, success);
      JoinedTwice(s, s1, NotifyOne(s1, i, steps, order, join, name, success).0, i, steps);
    }
  }

  lemma TellJoined(s: State, i: nat, steps: Steps, order: seq<string>, name: string, success: bool)
    requires Issued(s) && i in s.instances && !InDlq(s, i) && name in steps
    ensures Joined(s, Tell(s, i, steps, order, name, success).0, i, steps)
  {
    hide Issued, Joined, Notify, PrepareJoins;
    var s1 := PrepareJoins(s, i, steps, order, name, success);
    PrepareJoinsJoined(s, i, steps, order, name, success);
    StillRuns(s, s1, i, steps);
    NotifyJoined(s1, i, steps, order, order, name, success);
    JoinedTwice(s, s1, Notify(s1, i, steps, order, order, name, success).0, i, steps);
  }

  /** Every join that waits for the step by its definition has been set up. */
  ghost predicate JoinsThere(s: State, i: nat, steps: Steps, name: string) {
    forall j :: j in steps && steps[j].kind == Join && name in steps[j].waitFor ==> (i, j) in s.joins
  }

  /** Then every report reaches its joins. */
  lemma {:induction false} NotifySucceeds(s: State, i: nat, steps: Steps, order: seq<string>, rest: seq<string>,
        name: string, success: bool)
    requires JoinsThere(s, i, steps, name)
    ensures Notify(s, i, steps, order, rest, name, success).1
    decreases rest
  {
    hide NotifyOne;
    if rest != [] {
      if Waits(s, i, steps, rest[0], name) {
        NotifyOneSucceeds(s, i, steps, order, rest[0], name, success);
        NotifySucceeds(NotifyOne(s, i, steps, order, rest[0], name, success).0, i, steps, order, rest[1..], name,
                       success);
      } else {
        NotifySucceeds(s, i, steps, order, rest[1..], name, success);
      }
    }
  }

  lemma NotifyOneSucceeds(s: State, i: nat, steps: Steps, order: seq<string>, join: string, name: string, success: bool)
    requires join in steps
    ensures NotifyOne(s, i, steps, order, join, name, success).1 <==> (i, join) in s.joins
    ensures forall key: Key :: key in s.joins ==> key in NotifyOne(s, i, steps, order, join, name, success).0.joins
  {
    hide BranchesPending, Update, HasRow;
  }

  lemma TellSucceeds(s: State, i: nat, steps: Steps, order: seq<string>, name: string, success: bool)
    requires JoinsThere(s, i, steps, name) && name in steps
    ensures Tell(s, i, steps, order, name, success).1
  {
    PrepareKeepsJoins(s, i, steps, order, name, success);
    hide PrepareJoins, Notify;
    NotifySucceeds(PrepareJoins(s, i, steps, order, name, success), i, steps, order, order, name, success);
  }

  lemma PrepareKeepsJoins(s: State, i: nat, steps: Steps, order: seq<string>, name: string, success: bool)
    requires name in steps
    ensures forall key: Key :: key in s.joins ==> key in PrepareJoins(s, i, steps, order, name, success).joins
  {
    hide NotifyOne, JoinFor, ReplaceWait, FirstStatus, AddWait, TerminalInFork, ConditionAbove;
    var join, condition := JoinFor(steps, order, name), ConditionAbove(steps, steps[name]);
    if join != "" && condition != "" {
      var s1 := if (i, join) !in s.joins then NewJoin(s, i, join, [name], All)
                else PutJoin(s, i, join, ReplaceWait(s.joins[(i, join)], VirtualName(condition), name,
                                                     FirstStatus(s, i, name, s.nextRow)));
      NotifyOneSucceeds(s1, i, steps, order, join, name, success);
    }
  }

  // ---- What may happen to rows that are there ----

  /** The new queue items that lead to a row. */
  function NewItems(s: State, s': State, k: nat): set<nat> {
    set q | q in s'.queue && q !in s.queue && s'.queue[q].row == k
  }

  /** The new dead letters about a row. */
  function NewLetters(s: State, s': State, k: nat): set<nat> {
    set l | l in s'.dead && l !in s.dead && s'.dead[l].row == k
  }

  predicate LeftAlone(s: State, s': State, k: nat)
    requires k in s.rows && k in s'.rows
  {
    s'.rows[k] == s.rows[k] && NewItems(s, s', k) == {} && NewLetters(s, s', k) == {}
  }

  /** All but the states of joins and the numbers to be given out next. */
  predicate SameStore(a: State, b: State) {
    && a.defs == b.defs && a.instances == b.instances && a.rows == b.rows && a.queue == b.queue
    && a.cancels == b.cancels && a.dead == b.dead && a.log == b.log
  }

  /** Nothing but rows differs, and items and letters that have come for the instance's rows. */
  ghost predicate Reworked(s: State, s': State, i: nat) {
    && SameStore(s', s.(rows := s'.rows, queue := s'.queue, dead := s'.dead)) && s'.rows.Keys == s.rows.Keys
    && (forall q :: q in s.queue ==> q in s'.queue && s'.queue[q] == s.queue[q])
    && (forall q :: q in s'.queue && q !in s.queue ==> s'.queue[q].instance == i && s'.queue[q].row in s.rows)
    && (forall l :: l in s.dead ==> l in s'.dead && s'.dead[l] == s.dead[l])
    && (forall l :: l in s'.dead && l !in s.dead ==> s'.dead[l].instance == i && s'.dead[l].row in s.rows)
  }

  /** Numbers of new items are greater than those of old ones. */
  ghost predicate NumberedOn(s: State, s': State) {
    s.nextItem <= s'.nextItem && forall q :: q in s'.queue && q !in s.queue ==> s.nextItem <= q < s'.nextItem
  }

  /** The items and letters that are there stay. */
  predicate Extends(s: State, s': State) {
    && (forall q :: q in s.queue ==> q in s'.queue && s'.queue[q] == s.queue[q])
    && (forall l :: l in s.dead ==> l in s'.dead && s'.dead[l] == s.dead[l])
  }

  lemma ReworkedExtends(s: State, s1: State, i: nat)
    requires Reworked(s, s1, i)
    ensures s1.rows.Keys == s.rows.Keys && Extends(s, s1) && s1.instances == s.instances
  {
  }

  lemma ReworkedTwice(s: State, s1: State, s2: State, i: nat)
    requires Reworked(s, s1, i) && Reworked(s1, s2, i)
    ensures Reworked(s, s2, i)
  {
  }

  lemma NewTwice(s: State, s1: State, s2: State, k: nat)
    requires Extends(s, s1) && Extends(s1, s2)
    ensures NewItems(s, s2, k) == NewItems(s, s1, k) + NewItems(s1, s2, k)
    ensures NewLetters(s, s2, k) == NewLetters(s, s1, k) + NewLetters(s1, s2, k)
  {
  }

  /** Only this row has changed, with at most the given new item and letter. */
  ghost predicate OneReworked(s: State, s1: State, i: nat, id: nat) {
    && Reworked(s, s1, i) && NumberedOn(s, s1) && id in s.rows
    && (forall q :: q in s1.queue ==> q < s1.nextItem) && (forall l :: l in s1.dead ==> l < s1.nextDead)
    && (forall q :: q in s1.queue && q !in s.queue ==> q == s.nextItem && s1.queue[q].row == id)
    && (forall k :: k in s.rows && k != id ==> LeftAlone(s, s1, k))
  }

  /** New items and letters have greater numbers than all there are. */
  ghost predicate Counted(s: State) {
    (forall q :: q in s.queue ==> q < s.nextItem) && (forall l :: l in s.dead ==> l < s.nextDead)
  }

  lemma RowChanged(s: State, i: nat, id: nat, row: Row)
    requires Counted(s) && id in s.rows
    ensures var s1 := s.(rows := s.rows[id := row]);
            OneReworked(s, s1, i, id) && NewItems(s, s1, id) == {} && NewLetters(s, s1, id) == {}
  {
  }

  lemma RowRequeued(s: State, i: nat, id: nat, row: Row)
    requires Counted(s) && id in s.rows
    ensures var s1 := Enqueue(s.(rows := s.rows[id := row]), i, id);
            && OneReworked(s, s1, i, id) && NewItems(s, s1, id) == {s.nextItem} && NewLetters(s, s1, id) == {}
            && s1.rows[id] == row
  {
    var mid := s.(rows := s.rows[id := row]);
    RowChanged(s, i, id, row);
    assert s.nextItem !in s.queue;
    ItemAdded(s, mid, i, id);
  }

  lemma ItemAdded(s: State, mid: State, i: nat, id: nat)
    requires OneReworked(s, mid, i, id) && mid == s.(rows := mid.rows) && s.nextItem !in s.queue
    ensures var s1 := Enqueue(mid, i, id);
            OneReworked(s, s1, i, id) && NewItems(s, s1, id) == {s.nextItem} && NewLetters(s, s1, id) == {}
  {
  }

  lemma LetterAdded(s: State, mid: State, i: nat, id: nat)
    requires OneReworked(s, mid, i, id) && mid == s.(rows := mid.rows) && s.nextDead !in s.dead
    ensures var s1 := Bury(mid, i, id);
            OneReworked(s, s1, i, id) && NewItems(s, s1, id) == {} && NewLetters(s, s1, id) == {s.nextDead}
  {
  }

  lemma RowBuried(s: State, i: nat, id: nat, row: Row)
    requires Counted(s) && id in s.rows
    ensures var s1 := Bury(s.(rows := s.rows[id := row]), i, id);
            && OneReworked(s, s1, i, id) && NewItems(s, s1, id) == {} && NewLetters(s, s1, id) == {s.nextDead}
            && s1.rows[id] == row
  {
    var mid := s.(rows := s.rows[id := row]);
    RowChanged(s, i, id, row);
    assert s.nextDead !in s.dead;
    LetterAdded(s, mid, i, id);
  }

  lemma OneIsCounted(s: State, s1: State, i: nat, id: nat)
    requires OneReworked(s, s1, i, id)
    ensures Counted(s1)
  {
  }

  function WithStatus(s: State, i: nat, status: WorkflowStatus): State {
    s.(instances := map k | k in s.instances ::
         if k == i then s.instances[k].(status := status) else s.instances[k])
  }

  lemma WithStatusIs(s: State, i: nat, status: WorkflowStatus)
    requires i in s.instances
    ensures SetInstance(s, i, status) == WithStatus(s, i, status)
  {
    SameMap(SetInstance(s, i, status).instances, WithStatus(s, i, status).instances);
  }

  // ---- One execution ----

  /** The item leads to a waiting row of a known step, in an instance that is not frozen. */
  ghost predicate Picks(s: State, q: nat, i: nat, id: nat, name: string) {
    && Issued(s) && q in s.queue && s.queue[q] == Item(i, id) && IsRowOf(s, i, id) && s.rows[id].name == name
    && (s.rows[id].status == Pending || s.rows[id].status == StepStatus.Failed)
    && DefinedFor(s, i) && !InDlq(s, i) && name in DefOf(s, i).steps
  }

  /** The worker knows the handler, and no cancel request is pending or arrives meanwhile. */
  predicate Undisturbed(s: State, i: nat, c: Choice) {
    c.hasHandler && i !in s.cancels && c.late.None?
  }

  /** A join passes if it is ready and, where all steps are to succeed, none has failed. */
  predicate JoinPasses(s: State, i: nat, name: string) {
    && (i, name) in s.joins && s.joins[(i, name)].ready
    && (s.joins[(i, name)].strategy == All ==> s.joins[(i, name)].failed == [])
  }

  predicate Passes(s: State, i: nat, d: StepDef, name: string, c: Choice) {
    match d.kind
    case Task => c.succeeds
    case Condition => c.succeeds
    case Join => JoinPasses(s, i, name)
    case Human => false
    case _ => true
  }

  /** What the log says of an execution. */
  function Entries(d: StepDef, id: nat, success: bool): seq<Entry> {
    (if d.kind == Task then [Ran(id)] else []) + [Ended(id, success)]
  }

  /** The item is gone, the row has a new status, and the log says so. */
  function Settled(s: State, q: nat, id: nat, status: StepStatus, entries: seq<Entry>): State
    requires id in s.rows
  {
    var row := s.rows[id];
    var retry := row.retry + if status == StepStatus.Failed then 1 else 0;
    s.(rows := s.rows[id := row.(status := status, retry := retry)], queue := s.queue - {q}, log := s.log + entries)
  }

  function Started(s: State, q: nat, id: nat): State {
    SetStatus(RemoveItem(s, q), id, StepStatus.Running)
  }

  /** The run of a handler is logged. */
  function Ranned(s: State, d: StepDef, id: nat): State {
    if d.kind == Task then Note(s, Ran(id)) else s
  }

  lemma RannedRows(s: State, d: StepDef, id: nat)
    ensures Ranned(s, d, id).rows == s.rows
  {
  }

  lemma ExecutionIs(s: State, q: nat, i: nat, id: nat, name: string, c: Choice)
    requires Picks(s, q, i, id, name) && Undisturbed(s, i, c)
    ensures var def := DefOf(s, i);
            var work := Work(Started(s, q, id), i, def.steps, id, name, c);
            ExecuteNext(s, q, c) ==
            if work.1 then HandleSuccess(work.0, i, def.steps, id, name, c.order,
                                         def.steps[name].kind == Condition ==> c.takesNext)
            else HandleFailure(work.0, i, def, id, s.rows[id], c)
  {
    hide Issued, Work, HandleSuccess, HandleFailure, SetStatus;
  }

  lemma StartedFacts(s: State, q: nat, i: nat, id: nat, name: string)
    requires Picks(s, q, i, id, name)
    ensures var s1 := Started(s, q, id);
            && Issued(s1) && i in s1.instances && !InDlq(s1, i) && IsRowOf(s1, i, id)
            && s1.instances == s.instances && s1.joins == s.joins && s1.rows.Keys == s.rows.Keys
            && s1.defs == s.defs && s1.rows[id] == s.rows[id].(status := StepStatus.Running)
  {
    hide Issued, Keeps;
    RemoveItemKeeps(s, i, q);
    KeptIsIssued(s, RemoveItem(s, q), i);
    StartsRunning(RemoveItem(s, q), i, id);
  }

  /** The step's work succeeds exactly if the step passes, and brings the branches of a fork. */
  lemma WorkAdds(s1: State, i: nat, steps: Steps, id: nat, name: string, c: Choice)
    requires Issued(s1) && i in s1.instances && !InDlq(s1, i) && IsRowOf(s1, i, id) && name in steps
    requires steps[name].Forks() ==> forall n :: n in steps[name].parallel ==> n in steps
    ensures var d := steps[name];
            var w := Work(s1, i, steps, id, name, c);
            var s2 := Ranned(s1, d, id);
            && w.1 == Passes(s1, i, d, name, c)
            && (!d.Forks() ==> w.0 == s2)
            && Grown(s2, w.0, i) && NewOfSteps(s2, w.0, steps)
            && forall n :: |NewNamed(s2, w.0, n)| == if d.Forks() then multiset(d.parallel)[n] else 0
  {
    hide Issued, Grown, NewNamed, NewOfSteps, CreateBranches, CreateJoins;
    var d := steps[name];
    var s2 := Ranned(s1, d, id);
    if d.Forks() {
      ForkAdds(s1, i, steps, d);
    } else {
      GrownSame(s2, s2, i);
      NothingNew(s2, steps);
    }
  }

  lemma ForkAdds(s: State, i: nat, steps: Steps, d: StepDef)
    requires Issued(s) && i in s.instances && !InDlq(s, i) && forall n :: n in d.parallel ==> n in steps
    ensures var r := ExecuteFork(s, i, steps, d);
            && r.1 && Grown(s, r.0, i) && NewOfSteps(s, r.0, steps)
            && forall n :: |NewNamed(s, r.0, n)| == multiset(d.parallel)[n]
  {
    hide Issued, Grown, NewOfSteps, CreateBranches, CreateJoins;
    var s1 := CreateBranches(s, i, steps, d.parallel).0;
    CreateBranchesAdds(s, i, steps, d.parallel);
    CreateJoinsOnly(s1, i, steps, d, d.next);
    JoinsChange(s, s1, CreateJoins(s1, i, steps, d, d.next), i, steps);
  }

  lemma {:induction false} CreateJoinsOnly(s: State, i: nat, steps: Steps, d: StepDef, names: seq<string>)
    ensures CreateJoins(s, i, steps, d, names) == s.(joins := CreateJoins(s, i, steps, d, names).joins)
    decreases names
  {
    hide NewJoin;
    if names != [] {
      if names[0] in steps && steps[names[0]].kind == Join {
        var join := steps[names[0]];
        var waitFor := if join.waitFor == [] then d.parallel else join.waitFor;
        NewJoinOnly(s, i, names[0], waitFor, join.strategy);
        CreateJoinsOnly(NewJoin(s, i, names[0], waitFor, join.strategy), i, steps, d, names[1..]);
      } else {
        CreateJoinsOnly(s, i, steps, d, names[1..]);
      }
    }
  }

  lemma NewJoinOnly(s: State, i: nat, join: string, waitFor: seq<string>, strategy: JoinStrategy)
    ensures var s1 := NewJoin(s, i, join, waitFor, strategy); s1 == s.(joins := s1.joins)
  {
  }

  lemma JoinsChange(s: State, s1: State, s2: State, i: nat, steps: Steps)
    requires Grown(s, s1, i) && NewOfSteps(s, s1, steps) && s2 == s1.(joins := s2.joins)
    ensures Grown(s, s2, i) && NewOfSteps(s, s2, steps) && forall n :: NewNamed(s, s2, n) == NewNamed(s, s1, n)
  {
    GrownSame(s1, s2, i);
    GrownTwice(s, s1, s2, i);
  }

  /** Settling a row does not disturb what has come. */
  lemma SettledGrown(s: State, s': State, i: nat, id: nat, status: StepStatus, e: Entry, steps: Steps)
    requires Grown(s, s', i) && id in s.rows && NewOfSteps(s, s', steps)
    ensures var b, b' := Note(SetStatus(s, id, status), e), Note(SetStatus(s', id, status), e);
            Grown(b, b', i) && NewOfSteps(b, b', steps) && forall n :: NewNamed(b, b', n) == NewNamed(s, s', n)
  {
    var b, b' := Note(SetStatus(s, id, status), e), Note(SetStatus(s', id, status), e);
    forall k | k in b'.rows && k !in b.rows
      ensures FreshRow(b', i, k)
    {
      assert FreshRow(s', i, k) && Items(b', k) == Items(s', k);
    }
  }

  lemma SettledIs(s: State, q: nat, id: nat, d: StepDef, status: StepStatus, success: bool)
    requires id in s.rows && status != StepStatus.Running
    ensures var s1 := Started(s, q, id);
            var s2 := Ranned(s1, d, id);
            Note(SetStatus(s2, id, status), Ended(id, success)) == Settled(s, q, id, status, Entries(d, id, success))
  {
    hide SetStatus, Entries;
    var s1 := Started(s, q, id);
    var log := if d.kind == Task then s.log + [Ran(id)] else s.log;
    assert s1.log == s.log by { StartedLog(s, q, id); }
    assert Ranned(s1, d, id) == s1.(log := log);
    StatusTwice(s, q, id, status, log);
    EntriesAre(s.log, d, id, success);
  }

  lemma StartedLog(s: State, q: nat, id: nat)
    ensures Started(s, q, id).log == s.log
  {
  }

  lemma StatusTwice(s: State, q: nat, id: nat, status: StepStatus, log: seq<Entry>)
    requires id in s.rows && status != StepStatus.Running
    ensures var s1 := Started(s, q, id).(log := log);
            SetStatus(s1, id, status) == Settled(s, q, id, status, []).(log := log)
  {
    var s1 := Started(s, q, id);
    var row := s.rows[id];
    var retry := row.retry + if status == StepStatus.Failed then 1 else 0;
    var first := row.(status := StepStatus.Running);
    assert s.rows[id := first][id := row.(status := status, retry := retry)]
        == s.rows[id := row.(status := status, retry := retry)];
  }

  lemma EntriesAre(log: seq<Entry>, d: StepDef, id: nat, success: bool)
    ensures (if d.kind == Task then log + [Ran(id)] else log) + [Ended(id, success)] == log + Entries(d, id, success)
  {
    assert log + [Ran(id)] + [Ended(id, success)] == log + ([Ran(id)] + [Ended(id, success)]);
    assert [] + [Ended(id, success)] == [Ended(id, success)];
  }

  /** Where a step goes on: a condition that is false to its Else, everything else to its Next. */
  function Follows(d: StepDef, takesNext: bool): seq<string> {
    if d.kind == Condition && !takesNext then (if d.els == "" then [] else [d.els]) else d.next
  }

  /** Everything a step leads to is a step of the definition. */
  predicate LeadsToSteps(steps: Steps, d: StepDef) {
    && (forall n :: n in d.next ==> n in steps) && (d.els != "" ==> d.els in steps)
    && (d.kind == Fork || d.kind == Parallel ==> forall n :: n in d.parallel ==> n in steps)
  }

  /** How many rows of a step an execution brings: one for each mention among what follows and the branches. */
  function Calls(d: StepDef, takesNext: bool, n: string): nat {
    multiset(Follows(d, takesNext))[n] + if d.kind == Fork || d.kind == Parallel then multiset(d.parallel)[n] else 0
  }

  /** The rows that have come are fresh, of known steps, and but for joins exactly those called for. */
  ghost predicate BringsCalled(base: State, s': State, i: nat, steps: Steps, d: StepDef, takesNext: bool) {
    && Grown(base, s', i) && NewOfSteps(base, s', steps)
    && forall n :: !(n in steps && steps[n].kind == Join) ==> |NewNamed(base, s', n)| == Calls(d, takesNext, n)
  }

  /** The state once the row is settled and the joins have been told. */
  ghost function Told(s: State, q: nat, i: nat, id: nat, name: string, c: Choice): State
    requires DefinedFor(s, i) && name in DefOf(s, i).steps
  {
    var steps := DefOf(s, i).steps;
    var w := Work(Started(s, q, id), i, steps, id, name, c).0;
    Tell(Note(SetStatus(w, id, StepStatus.Completed), Ended(id, true)), i, steps, c.order, name, true).0
  }

  /** What has come by then: the branches of a fork, and rows of joins. */
  lemma ToldAdds(s: State, q: nat, i: nat, id: nat, name: string, c: Choice)
    requires Picks(s, q, i, id, name) && LeadsToSteps(DefOf(s, i).steps, DefOf(s, i).steps[name])
    ensures var steps := DefOf(s, i).steps;
            var d := steps[name];
            var base, t := Settled(s, q, id, StepStatus.Completed, Entries(d, id, true)), Told(s, q, i, id, name, c);
            && Grown(base, t, i) && NewOfSteps(base, t, steps) && Issued(t)
            && (forall n :: !(n in steps && steps[n].kind == Join) ==>
                  |NewNamed(base, t, n)| == if d.Forks() then multiset(d.parallel)[n] else 0)
            && (!d.Forks() ==> OnlyJoins(base, t, steps))
            && i in t.instances && !InDlq(t, i)
  {
    hide Issued, Grown, NewOfSteps, NewNamed, Work, Tell, Joined, SetStatus, Started, Settled, OnlyJoins, Entries;
    hide Passes;
    hide Ranned;
    var steps := DefOf(s, i).steps;
    var d := steps[name];
    var s1 := Started(s, q, id);
    StartedFacts(s, q, i, id, name);
    WorkAdds(s1, i, steps, id, name, c);
    var w, s2 := Work(s1, i, steps, id, name, c).0, Ranned(s1, d, id);
    SettledIs(s, q, id, d, StepStatus.Completed, true);
    var base := Settled(s, q, id, StepStatus.Completed, Entries(d, id, true));
    var s3 := Note(SetStatus(w, id, StepStatus.Completed), Ended(id, true));
    RannedRows(s1, d, id);
    SettledGrown(s2, w, i, id, StepStatus.Completed, Ended(id, true), steps);
    DecidedIsIssued(s1, i, steps, id, name, c);
    TellJoined(s3, i, steps, c.order, name, true);
    assert base == Note(SetStatus(s2, id, StepStatus.Completed), Ended(id, true));
    var t := Told(s, q, i, id, name, c);
    TellAdds(base, s3, t, i, steps);
    forall n | !(n in steps && steps[n].kind == Join)
      ensures |NewNamed(base, t, n)| == if d.Forks() then multiset(d.parallel)[n] else 0
    {
      assert |NewNamed(base, t, n)| == |NewNamed(base, s3, n)|;
      assert NewNamed(base, s3, n) == NewNamed(s2, w, n);
    }
    if !d.Forks() {
      forall n ensures NewNamed(base, s3, n) == {} {
        assert NewNamed(base, s3, n) == NewNamed(s2, w, n);
        assert |NewNamed(s2, w, n)| == 0;
      }
    }
  }

  lemma DecidedIsIssued(s1: State, i: nat, steps: Steps, id: nat, name: string, c: Choice)
    requires Issued(s1) && i in s1.instances && !InDlq(s1, i) && IsRowOf(s1, i, id) && name in steps
    requires s1.rows[id].status == StepStatus.Running
    ensures var s3 := Note(SetStatus(Work(s1, i, steps, id, name, c).0, id, StepStatus.Completed), Ended(id, true));
            Issued(s3) && i in s3.instances && !InDlq(s3, i)
  {
    hide Issued, Work, Keeps, SetStatus;
    var w := Work(s1, i, steps, id, name, c).0;
    WorkKeeps(s1, i, steps, id, name, c);
    StillInPlay(s1, i, steps, id, name, c);
    KeptIsIssued(s1, w, i);
    var s3 := Note(SetStatus(w, id, StepStatus.Completed), Ended(id, true));
    DecideKeeps(w, i, id, StepStatus.Completed, true);
    KeptIsIssued(w, s3, i);
    StillNotFrozen(s1, w, i);
    StillNotFrozen(w, s3, i);
  }

  lemma StillNotFrozen(s: State, s': State, i: nat)
    requires Keeps(s, s', i) && !InDlq(s, i)
    ensures !InDlq(s', i)
  {
  }

  lemma TellAdds(base: State, s3: State, t: State, i: nat, steps: Steps)
    requires Grown(base, s3, i) && NewOfSteps(base, s3, steps) && Joined(s3, t, i, steps)
    requires i in s3.instances && !InDlq(s3, i)
    ensures Grown(base, t, i) && NewOfSteps(base, t, steps) && Issued(t) && i in t.instances && !InDlq(t, i)
    ensures forall n :: !(n in steps && steps[n].kind == Join) ==> |NewNamed(base, t, n)| == |NewNamed(base, s3, n)|
    ensures (forall n :: NewNamed(base, s3, n) == {}) ==> OnlyJoins(base, t, steps)
  {
    hide FreshRow, Issued;
    GrownTwice(base, s3, t, i);
    forall n | !(n in steps && steps[n].kind == Join)
      ensures |NewNamed(base, t, n)| == |NewNamed(base, s3, n)|
    {
      assert NewNamed(s3, t, n) == {};
      NamedTwice(base, s3, t, i, n);
    }
    if forall n :: NewNamed(base, s3, n) == {} {
      forall id | id in s3.rows
        ensures id in base.rows
      {
        assert id !in NewNamed(base, s3, s3.rows[id].name);
      }
    }
  }
}
