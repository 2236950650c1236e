/**
 What the other operations do, exactly: starting a workflow, asking for its end, requeueing a dead
 letter, and an ExecuteNext that has nothing to execute.
 */
module EngineRequests {
  import opened Definitions
  import opened Searches
  import opened Rollback
  import opened JoinStates
  import opened Validator
  import opened Engine
  import opened EngineFrame
  import opened EngineRuns
  import opened EngineEffects

  predicate Startable(s: State, workflow: string) {
    workflow in s.defs && s.defs[workflow].start in s.defs[workflow].steps
  }

  /**
   Starting a workflow that the validator accepts makes one running instance of it, with one
   fresh row, of its start; nothing else comes of it, and nothing at all of one that is refused.
   */
  lemma StartIs(s: State, workflow: string)
    requires Issued(s)
    ensures var s', n := StartWorkflow(s, workflow), s.nextInstance;
            if Startable(s, workflow) && WellFormed(s.defs[workflow]) then
              && n !in s.instances
              && Grown(s.(instances := s.instances[n := Instance(workflow, WorkflowStatus.Running)]), s', n)
              && |NewNamed(s, s', s.defs[workflow].start)| == 1
              && (forall k :: k in s'.rows && k !in s.rows ==> s'.rows[k].name == s.defs[workflow].start)
            else s' == s
  {
    hide Issued, WellFormed, EnqueueNext, Grown;
    if Startable(s, workflow) && WellFormed(s.defs[workflow]) {
      var n, def, s1 := s.nextInstance, s.defs[workflow], NewInstance(s, workflow);
      NewInstanceIssued(s, workflow);
      EnqueueNextAdds(s1, n, def.steps, [def.start], false);
      var s' := EnqueueNext(s1, n, def.steps, [def.start], false).0;
      StartNames(s, s1, s', n, def.start, def.steps);
    }
  }

  lemma StartNames(s: State, s1: State, s': State, n: nat, start: string, steps: Steps)
    requires Issued(s) && s1 == s.(instances := s1.instances, nextInstance := s.nextInstance + 1) && n == s.nextInstance
    requires Grown(s1, s', n) && forall m :: |NewNamed(s1, s', m)| == Mentions(steps, [start], false, m)
    ensures n !in s.instances && |NewNamed(s, s', start)| == 1
    ensures Grown(s.(instances := s1.instances), s', n)
    ensures forall k :: k in s'.rows && k !in s.rows ==> s'.rows[k].name == start
  {
    hide FreshRow;
    assert forall m :: NewNamed(s, s', m) == NewNamed(s1, s', m);
    forall k | k in s'.rows && k !in s.rows
      ensures s'.rows[k].name == start
    {
      assert k in NewNamed(s1, s', s'.rows[k].name);
      assert |NewNamed(s1, s', s'.rows[k].name)| > 0;
    }
  }

  /** A request is noted for an instance that has not ended and has none yet; the first one stays. */
  lemma RequestIs(s: State, i: nat, kind: CancelKind)
    ensures var open := i in s.instances && s.instances[i].status in {WorkflowStatus.Running, Cancelling, Dlq};
            RequestCancel(s, i, kind) == if open && i !in s.cancels then s.(cancels := s.cancels[i := kind]) else s
  {
  }

  /** A paused row of a join of the instance. */
  predicate Dozes(s: State, i: nat, k: nat) {
    IsRowOf(s, i, k) && s.rows[k].kind == Join && s.rows[k].status == Paused
  }

  /**
   Requeueing a letter: its row is as new, the paused joins of its instance are pending, a failed
   or frozen instance is running, the letter is gone, and nothing else changes.
   */
  lemma RequeueIs(s: State, dead: nat)
    requires Issued(s) && dead in s.dead
    ensures var s', i, r := Requeue(s, dead), s.dead[dead].instance, s.dead[dead].row;
            && r in s.rows && s'.rows.Keys == s.rows.Keys
            && s'.rows[r] == s.rows[r].(status := Pending, retry := 0, comp := 0)
            && (forall k :: k in s.rows && k != r ==>
                  s'.rows[k] == if Dozes(s, i, k) then s.rows[k].(status := Pending) else s.rows[k])
            && s'.instances.Keys == s.instances.Keys
            && (forall n :: n in s.instances ==>
                  s'.instances[n] == if n == i && s.instances[n].status in {WorkflowStatus.Failed, Dlq}
                                     then s.instances[n].(status := WorkflowStatus.Running) else s.instances[n])
            && s' == s.(rows := s'.rows, instances := s'.instances, dead := s.dead - {dead})
  {
    RequeuedRows(s, dead);
    RequeuedInstances(s, dead);
    RequeuedRest(s, dead);
    hide Requeue;
  }

  lemma RequeuedRows(s: State, dead: nat)
    requires Issued(s) && dead in s.dead
    ensures var s', i, r := Requeue(s, dead), s.dead[dead].instance, s.dead[dead].row;
            && r in s.rows && s'.rows.Keys == s.rows.Keys
            && s'.rows[r] == s.rows[r].(status := Pending, retry := 0, comp := 0)
            && (forall k :: k in s.rows && k != r ==>
                  s'.rows[k] == if Dozes(s, i, k) then s.rows[k].(status := Pending) else s.rows[k])
  {
  }

  lemma RequeuedInstances(s: State, dead: nat)
    requires Issued(s) && dead in s.dead
    ensures var s', i := Requeue(s, dead), s.dead[dead].instance;
            && s'.instances.Keys == s.instances.Keys
            && (forall n :: n in s.instances ==>
                  s'.instances[n] == if n == i && s.instances[n].status in {WorkflowStatus.Failed, Dlq}
                                     then s.instances[n].(status := WorkflowStatus.Running) else s.instances[n])
  {
    hide Awakened;
  }

  lemma RequeuedRest(s: State, dead: nat)
    requires Issued(s) && dead in s.dead
    ensures var s' := Requeue(s, dead);
            s' == s.(rows := s'.rows, instances := s'.instances, dead := s.dead - {dead})
  {
    hide Awakened;
  }

  /** An item that leads to no row of a live instance is removed, and nothing else changes. */
  lemma UnworkableIsRemoved(s: State, q: nat, c: Choice)
    requires q in s.queue
    requires var i, id := s.queue[q].instance, s.queue[q].row;
             i !in s.instances || s.instances[i].status == Dlq || id !in s.rows || s.rows[id].instance != i
    ensures ExecuteNext(s, q, c) == s.(queue := s.queue - {q})
  {
  }

  /** An item for whose step the worker has no handler is given back. */
  lemma MissingHandlerGivesBack(s: State, q: nat, i: nat, id: nat, name: string, c: Choice)
    requires Issued(s) && q in s.queue && s.queue[q] == Item(i, id) && IsRowOf(s, i, id) && s.rows[id].name == name
    requires DefinedFor(s, i) && !InDlq(s, i) && name in DefOf(s, i).steps && !c.hasHandler
    requires if s.rows[id].status == Compensation then DefOf(s, i).steps[name].onFailure in DefOf(s, i).steps
             else s.rows[id].kind == Task && s.rows[id].status !in {Skipped, Paused, RolledBack}
    ensures ExecuteNext(s, q, c) == s
  {
    hide Issued;
  }

  /** An item of a skipped, paused or rolled-back row is removed, with the one that has the row's number. */
  lemma DroppedIsRemoved(s: State, q: nat, i: nat, id: nat, c: Choice)
    requires q in s.queue && s.queue[q] == Item(i, id) && IsRowOf(s, i, id) && i in s.instances && !InDlq(s, i)
    requires s.rows[id].status in {Skipped, Paused, RolledBack}
    ensures ExecuteNext(s, q, c) == s.(queue := s.queue - {q} - {id})
  {
  }
}
