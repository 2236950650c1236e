/**
 Workflow definitions: the step graph that the builder produces, the validator
 checks and the engine walks.
 */
module Definitions {

  datatype Option<+T> = None | Some(value: T)

  /** `Parallel` is the node kind of Builder.Parallel; its branches run like those of a fork. */
  datatype StepType = Task | Parallel | Condition | Fork | Join | SavePoint | Human

  datatype JoinStrategy = All | Any

  datatype StepDef = StepDef(
    kind: StepType,
    handler: string,
    maxRetries: int,
    next: seq<string>,
    prev: string,
    els: string,
    onFailure: string,
    parallel: seq<string>,
    waitFor: seq<string>,
    strategy: JoinStrategy,
    noIdempotent: bool)
  {
    predicate Forks() {
      kind == Fork || kind == Parallel
    }
  }

  type Steps = map<string, StepDef>

  /** The status of a step row. The three human-decision statuses are not modelled. */
  datatype StepStatus =
    Pending | Running | Completed | Failed | Skipped | Compensation | RolledBack | Paused

  datatype Definition = Definition(start: string, steps: Steps, dlqEnabled: bool)

  /** The name above the first step of a workflow; no step may carry it. */
  const ROOT := "_root_"

  const VIRTUAL_PREFIX := "cond#"

  /** A placeholder for the step on which a conditional branch will end. */
  predicate IsVirtual(name: string) {
    |name| > 5 && name[..5] == VIRTUAL_PREFIX
  }

  function VirtualName(condition: string): (r: string)
    ensures condition != "" ==> IsVirtual(r)
  {
    VIRTUAL_PREFIX + condition
  }

  predicate LegalName(name: string) {
    name != "" && name != ROOT && !IsVirtual(name)
  }

  function EmptyStep(kind: StepType, prev: string): StepDef {
    StepDef(kind, "", 0, [], prev, "", "", [], [], All, false)
  }

  function Elements<T(==)>(s: seq<T>): set<T> {
    set x | x in s
  }

  predicate NoDuplicates<T(==)>(s: seq<T>) {
    forall i, j :: 0 <= i < j < |s| ==> s[i] != s[j]
  }

  lemma {:induction false} NoDuplicatesCardinality<T>(s: seq<T>)
    requires NoDuplicates(s)
    ensures |Elements(s)| == |s|
  {
    if s != [] {
      var init, last := s[..|s| - 1], s[|s| - 1];
      assert forall i :: 0 <= i < |init| ==> init[i] == s[i] && s[i] != last;
      NoDuplicatesCardinality(init);
      assert last !in Elements(init);
      assert Elements(s) == Elements(init) + {last};
    }
  }

  lemma {:induction false} ElementsCardinality<T>(s: seq<T>)
    ensures |Elements(s)| <= |s|
    ensures |Elements(s)| == |s| ==> NoDuplicates(s)
  {
    if s != [] {
      var init := s[..|s| - 1];
      ElementsCardinality(init);
      assert Elements(s) == Elements(init) + {s[|s| - 1]};
    }
  }

  lemma SubsetCardinality<T>(a: set<T>, b: set<T>)
    requires a <= b
    ensures |a| <= |b|
    ensures |a| == |b| ==> a == b
  {
    var rest := b - a;
    assert b == a + rest;
  }

  lemma SameMap<K, V>(a: map<K, V>, b: map<K, V>)
    requires forall k :: k in a ==> k in b && a[k] == b[k]
    requires forall k :: k in b ==> k in a
    ensures a == b
  {
    assert a.Keys == b.Keys;
  }
}
