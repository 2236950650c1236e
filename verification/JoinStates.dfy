/**
 The join protocol of the store: who has reported to a join, and the counting test that
 decides whether it may run.
 */
module JoinStates {
  import opened Definitions

  datatype JoinState = JoinState(
    waitingFor: seq<string>,
    completed: seq<string>,
    failed: seq<string>,
    strategy: JoinStrategy,
    ready: bool)

  /** checkJoinReady: a count stands in for a set test. */
  predicate CheckJoinReady(waitingFor: seq<string>, completed: seq<string>, failed: seq<string>,
        strategy: JoinStrategy) {
    if strategy == Any then |completed| > 0 || |failed| > 0
    else |completed| + |failed| >= |waitingFor|
  }

  function Insert(list: seq<string>, x: string): seq<string> {
    if x in list then list else list + [x]
  }

  function Delete(list: seq<string>, x: string): seq<string> {
    if list == [] then []
    else if list[0] == x then list[1..]
    else [list[0]] + Delete(list[1..], x)
  }

  function Rechecked(j: JoinState): JoinState {
    j.(ready := CheckJoinReady(j.waitingFor, j.completed, j.failed, j.strategy))
  }

  function Fresh(waitingFor: seq<string>, strategy: JoinStrategy): JoinState {
    JoinState(waitingFor, [], [], strategy, false)
  }

  function Update(j: JoinState, step: string, success: bool): JoinState {
    Rechecked(
      if success then j.(completed := Insert(j.completed, step), failed := Delete(j.failed, step))
      else j.(failed := Insert(j.failed, step), completed := Delete(j.completed, step)))
  }

  function AddWait(j: JoinState, step: string): JoinState {
    if step in j.waitingFor then j else Rechecked(j.(waitingFor := j.waitingFor + [step]))
  }

  /** The first occurrence of `x` replaced by `y`; `y` appended when there is none. */
  function Replaced(list: seq<string>, x: string, y: string): seq<string> {
    if list == [] then [y]
    else if list[0] == x then [y] + list[1..]
    else [list[0]] + Replaced(list[1..], x, y)
  }

  /** `status` is that of the first row named `actual`, if the instance has one. */
  function ReplaceWait(j: JoinState, virtual: string, actual: string, status: Option<StepStatus>): JoinState {
    var w := j.(waitingFor := Replaced(j.waitingFor, virtual, actual));
    Rechecked(
      if actual in w.completed || actual in w.failed then w
      else match status
        case Some(Completed) => w.(completed := w.completed + [actual])
        case Some(Failed) => w.(failed := w.failed + [actual])
        case Some(RolledBack) => w.(failed := w.failed + [actual])
        case _ => w)
  }

  // ---- The abstract protocol: each step's latest outcome ----

  type Report = (string, bool)

  function Latest(reports: seq<Report>): map<string, bool> {
    if reports == [] then map[]
    else Latest(reports[..|reports| - 1])[reports[|reports| - 1].0 := reports[|reports| - 1].1]
  }

  function AfterReports(j: JoinState, reports: seq<Report>): JoinState {
    if reports == [] then j
    else
      var last := reports[|reports| - 1];
      Update(AfterReports(j, reports[..|reports| - 1]), last.0, last.1)
  }

  ghost predicate Represents(j: JoinState, outcome: map<string, bool>) {
    && NoDuplicates(j.completed) && NoDuplicates(j.failed)
    && (forall s :: s in j.completed <==> s in outcome && outcome[s])
    && (forall s :: s in j.failed <==> s in outcome && !outcome[s])
  }

  lemma InsertMembers(list: seq<string>, x: string)
    requires NoDuplicates(list)
    ensures NoDuplicates(Insert(list, x))
    ensures forall s :: s in Insert(list, x) <==> s in list || s == x
  {
  }

  lemma {:induction false} DeleteMembers(list: seq<string>, x: string)
    requires NoDuplicates(list)
    ensures NoDuplicates(Delete(list, x))
    ensures forall s :: s in Delete(list, x) <==> s in list && s != x
    ensures |Delete(list, x)| == if x in list then |list| - 1 else |list|
  {
    if list != [] {
      var tail := list[1..];
      assert forall s :: s in list <==> s == list[0] || s in tail;
      assert list[0] !in tail;
      if list[0] != x {
        DeleteMembers(tail, x);
        var d := Delete(tail, x);
        forall i, j | 0 <= i < j < |[list[0]] + d|
          ensures ([list[0]] + d)[i] != ([list[0]] + d)[j]
        {
          assert ([list[0]] + d)[j] == d[j - 1] && d[j - 1] in d;
        }
      }
    }
  }

  /** One update of the lists is one update of the outcome map. */
  lemma UpdateRefines(j: JoinState, outcome: map<string, bool>, step: string, success: bool)
    requires Represents(j, outcome)
    ensures Represents(Update(j, step, success), outcome[step := success])
    ensures Update(j, step, success).waitingFor == j.waitingFor && Update(j, step, success).strategy == j.strategy
  {
    if success {
      InsertMembers(j.completed, step);
      DeleteMembers(j.failed, step);
    } else {
      InsertMembers(j.failed, step);
      DeleteMembers(j.completed, step);
    }
  }

  /** Over any reports, the join state is the map from each step to its latest outcome. */
  lemma {:induction false} ReportsRefine(waitingFor: seq<string>, strategy: JoinStrategy, reports: seq<Report>)
    ensures var j := AfterReports(Fresh(waitingFor, strategy), reports);
            && Represents(j, Latest(reports))
            && j.waitingFor == waitingFor && j.strategy == strategy
            && (reports != [] ==> j.ready == CheckJoinReady(waitingFor, j.completed, j.failed, strategy))
  {
    if reports != [] {
      var init, last := reports[..|reports| - 1], reports[|reports| - 1];
      ReportsRefine(waitingFor, strategy, init);
      UpdateRefines(AfterReports(Fresh(waitingFor, strategy), init), Latest(init), last.0, last.1);
    }
  }

  /** Reporting the same outcome again changes nothing at all. */
  lemma UpdateIsIdempotent(j: JoinState, outcome: map<string, bool>, step: string, success: bool)
    requires Represents(j, outcome)
    ensures Update(Update(j, step, success), step, success) == Update(j, step, success)
  {
    DeleteMembers(j.completed, step);
    DeleteMembers(j.failed, step);
    DeleteAbsent(Delete(j.completed, step), step);
    DeleteAbsent(Delete(j.failed, step), step);
  }

  lemma {:induction false} DeleteAbsent(list: seq<string>, x: string)
    requires x !in list
    ensures Delete(list, x) == list
  {
    if list != [] {
      DeleteAbsent(list[1..], x);
    }
  }

  /** The two lists together hold exactly the steps that have reported, each once. */
  lemma ReportedCount(j: JoinState, outcome: map<string, bool>)
    requires Represents(j, outcome)
    ensures |j.completed| + |j.failed| == |outcome.Keys|
  {
    NoDuplicatesCardinality(j.completed);
    NoDuplicatesCardinality(j.failed);
    assert outcome.Keys == Elements(j.completed) + Elements(j.failed);
    assert Elements(j.completed) !! Elements(j.failed);
  }

  /** What the counting test is meant to say. */
  predicate AllReported(waitingFor: seq<string>, outcome: map<string, bool>) {
    forall s :: s in waitingFor ==> s in outcome
  }

  /** With distinct awaited names and reports from awaited steps only, counting is enough. */
  lemma CountingIsEnough(j: JoinState, outcome: map<string, bool>)
    requires Represents(j, outcome) && NoDuplicates(j.waitingFor) && j.strategy == All
    requires forall s :: s in outcome ==> s in j.waitingFor
    ensures CheckJoinReady(j.waitingFor, j.completed, j.failed, All) <==> AllReported(j.waitingFor, outcome)
  {
    ReportedCount(j, outcome);
    NoDuplicatesCardinality(j.waitingFor);
    assert outcome.Keys <= Elements(j.waitingFor);
    SubsetCardinality(outcome.Keys, Elements(j.waitingFor));
    assert AllReported(j.waitingFor, outcome) <==> outcome.Keys == Elements(j.waitingFor) by {
      assert forall s :: s in j.waitingFor <==> s in Elements(j.waitingFor);
    }
  }

  ghost predicate ReportsFrom(reports: seq<Report>, names: set<string>) {
    forall i :: 0 <= i < |reports| ==> reports[i].0 in names
  }

  /** The verdicts of the count and of the set test after the same reports. */
  ghost predicate TestsAgree(waitingFor: seq<string>, reports: seq<Report>) {
    var j := AfterReports(Fresh(waitingFor, All), reports);
    CheckJoinReady(j.waitingFor, j.completed, j.failed, All) <==> AllReported(waitingFor, Latest(reports))
  }

  function AllSucceed(names: seq<string>): seq<Report> {
    seq(|names|, i requires 0 <= i < |names| => (names[i], true))
  }

  lemma {:induction false} LatestKeys(reports: seq<Report>)
    ensures forall s :: s in Latest(reports) <==> exists i :: 0 <= i < |reports| && reports[i].0 == s
  {
    if reports != [] {
      var init := reports[..|reports| - 1];
      LatestKeys(init);
      assert forall i :: 0 <= i < |init| ==> init[i] == reports[i];
    }
  }

  lemma AllSucceedKeys(names: seq<string>)
    ensures Latest(AllSucceed(names)).Keys == Elements(names)
  {
    LatestKeys(AllSucceed(names));
    assert forall i :: 0 <= i < |names| ==> AllSucceed(names)[i].0 == names[i];
  }

  /**
   Exactly when counting may stand in for the set test: for reports drawn from `names`,
   which include the awaited ones, the two always agree if and only if the awaited names
   are distinct and nobody else reports (or nobody is awaited at all).
   */
  lemma CountingIsExactlyEnough(waitingFor: seq<string>, names: set<string>)
    requires Elements(waitingFor) <= names
    ensures (forall reports :: ReportsFrom(reports, names) ==> TestsAgree(waitingFor, reports)) <==>
              waitingFor == [] || (NoDuplicates(waitingFor) && names == Elements(waitingFor))
  {
    if waitingFor == [] || (NoDuplicates(waitingFor) && names == Elements(waitingFor)) {
      forall reports | ReportsFrom(reports, names)
        ensures TestsAgree(waitingFor, reports)
      {
        AgreeWhenAwaited(waitingFor, names, reports);
      }
    } else if !NoDuplicates(waitingFor) {
      DuplicateNeverReady(waitingFor, names);
    } else {
      StrangerMakesReady(waitingFor, names);
    }
  }

  lemma AgreeWhenAwaited(waitingFor: seq<string>, names: set<string>, reports: seq<Report>)
    requires waitingFor == [] || (NoDuplicates(waitingFor) && names == Elements(waitingFor))
    requires ReportsFrom(reports, names)
    ensures TestsAgree(waitingFor, reports)
  {
    ReportsRefine(waitingFor, All, reports);
    LatestKeys(reports);
    if waitingFor != [] {
      CountingIsEnough(AfterReports(Fresh(waitingFor, All), reports), Latest(reports));
    }
  }

  /** A name awaited twice: everyone has reported and the join still does not run. */
  lemma DuplicateNeverReady(waitingFor: seq<string>, names: set<string>)
    requires !NoDuplicates(waitingFor) && Elements(waitingFor) <= names
    ensures exists reports :: ReportsFrom(reports, names) && !TestsAgree(waitingFor, reports)
  {
    var reports := AllSucceed(waitingFor);
    ReportsRefine(waitingFor, All, reports);
    AllSucceedKeys(waitingFor);
    ReportedCount(AfterReports(Fresh(waitingFor, All), reports), Latest(reports));
    ElementsCardinality(waitingFor);
    assert ReportsFrom(reports, names) && !TestsAgree(waitingFor, reports);
  }

  /** A report from outside stands in for one that is missing. */
  lemma StrangerMakesReady(waitingFor: seq<string>, names: set<string>)
    requires waitingFor != [] && NoDuplicates(waitingFor)
    requires Elements(waitingFor) < names
    ensures exists reports :: ReportsFrom(reports, names) && !TestsAgree(waitingFor, reports)
  {
    var x :| x in names && x !in waitingFor;
    var senders := [x] + waitingFor[1..];
    SubstituteSenders(waitingFor, x);
    var reports := AllSucceed(senders);
    ReportsRefine(waitingFor, All, reports);
    AllSucceedKeys(senders);
    ReportedCount(AfterReports(Fresh(waitingFor, All), reports), Latest(reports));
    assert waitingFor[0] !in Latest(reports).Keys;
    assert ReportsFrom(reports, names) && !TestsAgree(waitingFor, reports);
  }

  lemma SubstituteSenders(waitingFor: seq<string>, x: string)
    requires waitingFor != [] && NoDuplicates(waitingFor) && x !in waitingFor
    ensures var senders := [x] + waitingFor[1..];
            |Elements(senders)| == |waitingFor| && waitingFor[0] !in Elements(senders)
  {
    var senders := [x] + waitingFor[1..];
    forall i, j | 0 <= i < j < |senders|
      ensures senders[i] != senders[j]
    {
      assert senders[j] == waitingFor[j];
    }
    NoDuplicatesCardinality(senders);
  }

  /** Once everyone awaited has reported, further reports do not undo it. */
  lemma ReadyIsStable(j: JoinState, outcome: map<string, bool>, step: string, success: bool)
    requires Represents(j, outcome) && CheckJoinReady(j.waitingFor, j.completed, j.failed, j.strategy)
    ensures Update(j, step, success).ready
  {
    UpdateRefines(j, outcome, step, success);
    ReportedCount(j, outcome);
    ReportedCount(Update(j, step, success), outcome[step := success]);
    SubsetCardinality(outcome.Keys, outcome[step := success].Keys);
  }

  // ---- The store's operations ----

  method Contains(list: seq<string>, x: string) returns (found: bool)
    ensures found <==> x in list
  {
    for i := 0 to |list|
      invariant x !in list[..i]
    {
      if list[i] == x {
        return true;
      }
      assert list[..i + 1] == list[..i] + [list[i]];
    }
    assert list[..|list|] == list;
    found := false;
  }

  lemma {:induction false} DeleteAt(list: seq<string>, i: nat, x: string)
    requires i < |list| && list[i] == x && x !in list[..i]
    ensures Delete(list, x) == list[..i] + list[i + 1..]
  {
    if i > 0 {
      assert list[0] in list[..i];
      assert list[1..][..i - 1] == list[..i][1..];
      DeleteAt(list[1..], i - 1, x);
      assert list[..i] + list[i + 1..] == [list[0]] + (list[1..][..i - 1] + list[1..][i..]);
    }
  }

  method RemoveFirst(list: seq<string>, x: string) returns (r: seq<string>)
    ensures r == Delete(list, x)
  {
    for i := 0 to |list|
      invariant x !in list[..i]
    {
      if list[i] == x {
        DeleteAt(list, i, x);
        return list[..i] + list[i + 1..];
      }
      assert list[..i + 1] == list[..i] + [list[i]];
    }
    assert list[..|list|] == list;
    DeleteAbsent(list, x);
    r := list;
  }

  lemma {:induction false} ReplacedAt(list: seq<string>, i: nat, x: string, y: string)
    requires i <= |list| && x !in list[..i]
    ensures i < |list| && list[i] == x ==> Replaced(list, x, y) == list[i := y]
    ensures i == |list| ==> Replaced(list, x, y) == list + [y]
  {
    if i > 0 {
      assert list[0] in list[..i];
      assert list[1..][..i - 1] == list[..i][1..];
      ReplacedAt(list[1..], i - 1, x, y);
      assert list == [list[0]] + list[1..];
    }
  }

  method ReplaceFirst(list: seq<string>, x: string, y: string) returns (r: seq<string>)
    ensures r == Replaced(list, x, y)
  {
    for i := 0 to |list|
      invariant x !in list[..i]
    {
      if list[i] == x {
        ReplacedAt(list, i, x, y);
        return list[i := y];
      }
      assert list[..i + 1] == list[..i] + [list[i]];
    }
    ReplacedAt(list, |list|, x, y);
    r := list + [y];
  }

  type Key = (nat, string)  // instance and join step

  /** The list edits of UpdateJoinState. */
  method ApplyUpdate(j: JoinState, step: string, success: bool) returns (r: JoinState)
    ensures r == Update(j, step, success)
  {
    var completed, failed := j.completed, j.failed;
    if success {
      var found := Contains(completed, step);
      if !found {
        completed := completed + [step];
      }
      failed := RemoveFirst(failed, step);
    } else {
      var found := Contains(failed, step);
      if !found {
        failed := failed + [step];
      }
      completed := RemoveFirst(completed, step);
    }
    r := JoinState(j.waitingFor, completed, failed, j.strategy,
                   CheckJoinReady(j.waitingFor, completed, failed, j.strategy));
  }

  /** The list edits of AddToJoinWaitFor. */
  method ApplyWait(j: JoinState, step: string) returns (r: JoinState)
    ensures r == AddWait(j, step)
  {
    var found := Contains(j.waitingFor, step);
    r := if found then j else Rechecked(j.(waitingFor := j.waitingFor + [step]));
  }

  /** The list edits of ReplaceInJoinWaitFor. */
  method ApplyReplacement(j: JoinState, virtual: string, actual: string,
        status: Option<StepStatus>) returns (r: JoinState)
    ensures r == ReplaceWait(j, virtual, actual, status)
  {
    var waitingFor := ReplaceFirst(j.waitingFor, virtual, actual);
    var completed, failed := j.completed, j.failed;
    var inCompleted := Contains(completed, actual);
    var inFailed := Contains(failed, actual);
    if !inCompleted && !inFailed {
      if status == Some(Completed) {
        completed := completed + [actual];
      } else if status == Some(Failed) || status == Some(RolledBack) {
        failed := failed + [actual];
      }
    }
    r := Rechecked(JoinState(waitingFor, completed, failed, j.strategy, j.ready));
  }
}
