/**
 The work queue of the memory store: priorities that age, claims, and what they mean for
 every interleaving of operations. Time is a real number of seconds given by the caller.
 */
module Queue {
  import opened Definitions

  datatype Claim = Claim(at: real, worker: string)

  datatype QueueItem = QueueItem(
    instance: nat,
    step: Option<nat>,
    scheduledAt: real,
    priority: int,
    claim: Option<Claim>)

  datatype Aging = Aging(enabled: bool, rate: real)

  type Items = map<nat, QueueItem>

  datatype QueueState = QueueState(items: Items, nextId: nat, aging: Aging)

  // ---- Effective priority ----

  /** Conversion of a float to an int in the source: towards zero. */
  function Truncate(x: real): int {
    if x >= 0.0 then x.Floor else -((-x).Floor)
  }

  predicate Ages(aging: Aging) {
    aging.enabled && aging.rate > 0.0
  }

  function Gain(aging: Aging, now: real, item: QueueItem): real {
    (now - item.scheduledAt) * aging.rate
  }

  function Capped(key: int): int {
    if key > 100 then 100 else key
  }

  function Effective(aging: Aging, now: real, item: QueueItem): int {
    if Ages(aging) then Capped(Truncate(item.priority as real + Gain(aging, now, item))) else item.priority
  }

  /** The sort key of the SQL store: LEAST(100, priority + FLOOR(wait * rate)). */
  function SqlEffective(aging: Aging, now: real, item: QueueItem): int {
    if Ages(aging) then Capped(item.priority + Gain(aging, now, item).Floor) else item.priority
  }

  predicate Waiting(item: QueueItem, now: real) {
    item.claim.None? && item.scheduledAt <= now
  }

  lemma FloorOfSum(p: int, y: real)
    ensures (p as real + y).Floor == p + y.Floor
  {
  }

  /**
   The two formulas give the same key exactly when truncation is flooring: when the aged
   priority is not negative, or happens to be whole.
   */
  lemma KeysAgreeExactly(aging: Aging, now: real, item: QueueItem)
    requires Ages(aging)
    ensures var aged := item.priority as real + Gain(aging, now, item);
            Effective(aging, now, item) == SqlEffective(aging, now, item) <==> aged >= 0.0 || aged == aged.Floor as real
  {
    FloorOfSum(item.priority, Gain(aging, now, item));
    TruncateVersusFloor(item.priority as real + Gain(aging, now, item));
  }

  lemma TruncateVersusFloor(x: real)
    ensures x >= 0.0 || x == x.Floor as real ==> Truncate(x) == x.Floor
    ensures !(x >= 0.0 || x == x.Floor as real) ==> Truncate(x) == x.Floor + 1 <= 0
  {
  }

  /** Non-negative priorities, the only ones the source defines, always agree. */
  lemma WaitingKeysAgree(aging: Aging, now: real, item: QueueItem)
    requires item.priority >= 0 && Waiting(item, now)
    ensures Effective(aging, now, item) == SqlEffective(aging, now, item) >= 0
  {
    if Ages(aging) {
      assert Gain(aging, now, item) >= 0.0;
      KeysAgreeExactly(aging, now, item);
    }
  }

  // ---- Choosing an item ----

  /** `a` goes before `b`: larger key, and at equal keys not later. */
  predicate Precedes(key: int, a: QueueItem, otherKey: int, b: QueueItem) {
    key > otherKey || (key == otherKey && a.scheduledAt <= b.scheduledAt)
  }

  /** What DequeueStep may hand out. */
  ghost predicate Selectable(s: QueueState, now: real, id: nat) {
    && id in s.items && Waiting(s.items[id], now)
    && Effective(s.aging, now, s.items[id]) >= 0
    && forall k :: k in s.items && Waiting(s.items[k], now) ==>
         Precedes(Effective(s.aging, now, s.items[id]), s.items[id], Effective(s.aging, now, s.items[k]), s.items[k])
  }

  /** A first row of the SQL query. */
  ghost predicate SqlFirst(s: QueueState, now: real, id: nat) {
    && id in s.items && Waiting(s.items[id], now)
    && forall k :: k in s.items && Waiting(s.items[k], now) ==>
         Precedes(SqlEffective(s.aging, now, s.items[id]), s.items[id],
                  SqlEffective(s.aging, now, s.items[k]), s.items[k])
  }

  /** The loop finds nothing although something waits only when every key is negative. */
  ghost predicate NothingSelectable(s: QueueState, now: real) {
    forall k :: k in s.items && Waiting(s.items[k], now) ==> Effective(s.aging, now, s.items[k]) < 0
  }

  /** On the priorities the source defines, the memory queue refines the SQL ordering. */
  lemma MemoryRefinesSql(s: QueueState, now: real)
    requires forall k :: k in s.items ==> s.items[k].priority >= 0
    ensures forall id :: Selectable(s, now, id) <==> SqlFirst(s, now, id)
    ensures NothingSelectable(s, now) <==> forall k :: k in s.items ==> !Waiting(s.items[k], now)
  {
    forall k | k in s.items && Waiting(s.items[k], now)
      ensures Effective(s.aging, now, s.items[k]) == SqlEffective(s.aging, now, s.items[k]) >= 0
    {
      WaitingKeysAgree(s.aging, now, s.items[k]);
    }
  }

  /**
   An unclaimed item's key stays negative for good exactly when its priority is negative and
   priorities do not age.
   */
  lemma NegativeForeverIff(aging: Aging, item: QueueItem)
    ensures (forall later: real :: item.scheduledAt <= later ==> Effective(aging, later, item) < 0)
            <==> !Ages(aging) && item.priority < 0
  {
    if Ages(aging) {
      var needed := if item.priority < 0 then -item.priority as real else 0.0;
      var later := item.scheduledAt + needed / aging.rate;
      QuotientGains(aging, item, needed);
      assert Effective(aging, later, item) >= 0;
    } else {
      assert Effective(aging, item.scheduledAt, item) == item.priority;
    }
  }

  lemma QuotientGains(aging: Aging, item: QueueItem, needed: real)
    requires aging.rate > 0.0
    ensures Gain(aging, item.scheduledAt + needed / aging.rate, item) == needed
  {
    var wait := needed / aging.rate;
    assert wait * aging.rate == needed;
    var later := item.scheduledAt + wait;
    assert later - item.scheduledAt == wait;
  }

  /**
   An item that is alone in its queue is never handed out by the memory queue exactly when its
   priority is negative and priorities do not age; the SQL query returns it as soon as it is due.
   */
  lemma NegativePriorityIsStuckIff(s: QueueState, id: nat)
    requires id in s.items && s.items[id].claim.None? && s.items.Keys == {id}
    ensures (forall later: real :: s.items[id].scheduledAt <= later ==> !Selectable(s, later, id))
            <==> !Ages(s.aging) && s.items[id].priority < 0
    ensures forall later: real :: s.items[id].scheduledAt <= later ==> SqlFirst(s, later, id)
  {
    NegativeForeverIff(s.aging, s.items[id]);
    forall later: real | s.items[id].scheduledAt <= later
      ensures Selectable(s, later, id) <==> Effective(s.aging, later, s.items[id]) >= 0
      ensures SqlFirst(s, later, id)
    {
    }
  }

  lemma NegativeIsNeverSelectable(s: QueueState, now: real, id: nat)
    requires id in s.items && Effective(s.aging, now, s.items[id]) < 0
    ensures !Selectable(s, now, id)
  {
  }

  // ---- Operations as transitions ----

  datatype Op =
    | Enqueue(instance: nat, step: Option<nat>, priority: int, delay: real)
    | Dequeue(worker: string, picked: Option<nat>)
    | Remove(id: nat)
    | Release(id: nat)
    | Reschedule(id: nat, delay: real)
    | Clear(instance: nat)

  datatype Event = Event(now: real, op: Op)

  function Max(a: real, b: real): real {
    if a < b then b else a
  }

  function Apply(s: QueueState, e: Event): QueueState {
    match e.op
    case Enqueue(instance, step, priority, delay) =>
      s.(items := s.items[s.nextId := QueueItem(instance, step, e.now + delay, priority, None)], nextId := s.nextId + 1)
    case Dequeue(worker, picked) =>
      if picked.Some? && picked.value in s.items
      then s.(items := s.items[picked.value := s.items[picked.value].(claim := Some(Claim(e.now, worker)))]) else s
    case Remove(id) => s.(items := s.items - {id})
    case Release(id) => if id in s.items then s.(items := s.items[id := s.items[id].(claim := None)]) else s
    case Reschedule(id, delay) =>
      if id in s.items
      then s.(items := s.items[id := s.items[id].(claim := None,
                                                   scheduledAt := Max(e.now + delay, s.items[id].scheduledAt))])
      else s
    case Clear(instance) => s.(items := map id | id in s.items && s.items[id].instance != instance :: s.items[id])
  }

  /** Only the choice of a dequeue is constrained; every other operation is always possible. */
  ghost predicate Possible(s: QueueState, e: Event) {
    e.op.Dequeue? ==>
      match e.op.picked
      case Some(id) => Selectable(s, e.now, id)
      case None => NothingSelectable(s, e.now)
  }

  ghost predicate Issued(s: QueueState) {
    forall id :: id in s.items ==> id < s.nextId
  }

  /** A run: possible events at times that never go back. */
  ghost predicate IsRun(s: QueueState, from: real, events: seq<Event>)
    decreases |events|
  {
    events == [] ||
    (from <= events[0].now && Possible(s, events[0]) && IsRun(Apply(s, events[0]), events[0].now, events[1..]))
  }

  function After(s: QueueState, events: seq<Event>): QueueState
    decreases |events|
  {
    if events == [] then s else After(Apply(s, events[0]), events[1..])
  }

  predicate Picks(e: Event, id: nat) {
    e.op.Dequeue? && e.op.picked == Some(id)
  }

  predicate Frees(e: Event, id: nat) {
    (e.op.Release? || e.op.Reschedule?) && e.op.id == id
  }

  // ---- Claims are exclusive ----

  ghost predicate Taken(s: QueueState, id: nat) {
    id < s.nextId && (id !in s.items || s.items[id].claim.Some?)
  }

  /** A claimed or removed item is not handed out before it is released or rescheduled. */
  lemma {:induction false} TakenStaysTaken(s: QueueState, from: real, events: seq<Event>, id: nat)
    requires Taken(s, id) && IsRun(s, from, events)
    requires forall i :: 0 <= i < |events| ==> !Frees(events[i], id)
    ensures forall i :: 0 <= i < |events| ==> !Picks(events[i], id)
    decreases |events|
  {
    if events != [] {
      var s', tail := Apply(s, events[0]), events[1..];
      assert !Frees(events[0], id);
      assert forall i :: 0 <= i < |tail| ==> tail[i] == events[i + 1];
      TakenStaysTaken(s', events[0].now, tail, id);
      forall i | 0 <= i < |events|
        ensures !Picks(events[i], id)
      {
        assert i > 0 ==> events[i] == tail[i - 1];
      }
    }
  }

  lemma {:induction false} RunFromMiddle(s: QueueState, from: real, events: seq<Event>, i: nat)
    requires IsRun(s, from, events) && i < |events| && Issued(s)
    ensures var mid := After(s, events[..i]);
            && Possible(mid, events[i]) && Issued(mid)
            && IsRun(Apply(mid, events[i]), events[i].now, events[i + 1..])
    decreases |events|
  {
    if i > 0 {
      RunFromMiddle(Apply(s, events[0]), events[0].now, events[1..], i - 1);
      assert events[..i][1..] == events[1..][..i - 1];
      assert events[1..][i..] == events[i + 1..];
    }
  }

  /**
   In every interleaving of operations by any workers, an item handed out twice was
   released or rescheduled in between.
   */
  lemma {:induction false} ClaimsAreExclusive(s: QueueState, from: real, events: seq<Event>, i: nat, j: nat, id: nat)
    requires IsRun(s, from, events) && Issued(s)
    requires i < j < |events| && Picks(events[i], id) && Picks(events[j], id)
    ensures exists k :: i < k < j && Frees(events[k], id)
  {
    var mid := After(s, events[..i]);
    RunFromMiddle(s, from, events, i);
    var tail := events[i + 1..];
    var window := tail[..j - i];
    PrefixOfRun(Apply(mid, events[i]), events[i].now, tail, j - i);
    assert forall k :: 0 <= k < |window| ==> window[k] == events[i + 1 + k];
    assert Picks(window[j - i - 1], id);
    if forall k :: i < k < j ==> !Frees(events[k], id) {
      TakenStaysTaken(Apply(mid, events[i]), events[i].now, window, id);
      assert false;
    }
  }

  lemma {:induction false} PrefixOfRun(s: QueueState, from: real, events: seq<Event>, n: nat)
    requires IsRun(s, from, events) && n <= |events|
    ensures IsRun(s, from, events[..n])
    decreases |events|
  {
    if n > 0 {
      PrefixOfRun(Apply(s, events[0]), events[0].now, events[1..], n - 1);
      assert events[..n][1..] == events[1..][..n - 1];
    }
  }

  /** An item that was issued and is gone never comes back. */
  lemma {:induction false} RemovedStaysRemoved(s: QueueState, from: real, events: seq<Event>, id: nat)
    requires IsRun(s, from, events) && id < s.nextId && id !in s.items
    ensures id !in After(s, events).items
    ensures forall i :: 0 <= i < |events| ==> !Picks(events[i], id)
    decreases |events|
  {
    if events != [] {
      RemovedStaysRemoved(Apply(s, events[0]), events[0].now, events[1..], id);
      forall i | 0 <= i < |events|
        ensures !Picks(events[i], id)
      {
        assert i > 0 ==> events[i] == events[1..][i - 1];
      }
    }
  }

  // ---- No starvation ----

  /** The items that may still be handed out before `x`. */
  ghost function Ahead(s: QueueState, x: nat): set<nat>
    requires x in s.items
  {
    set id | id in s.items && id != x && s.items[id].claim.None? && s.items[id].scheduledAt <= s.items[x].scheduledAt
  }

  function Dequeues(events: seq<Event>): nat {
    if events == [] then 0 else (if events[0].op.Dequeue? then 1 else 0) + Dequeues(events[1..])
  }

  function Releases(events: seq<Event>): nat {
    if events == [] then 0 else (if events[0].op.Release? then 1 else 0) + Releases(events[1..])
  }

  /** Nobody takes `x` out of the queue or moves it, and nothing is scheduled into the past. */
  ghost predicate Undisturbed(events: seq<Event>, x: nat, instance: nat) {
    forall i :: 0 <= i < |events| ==>
      match events[i].op
      case Enqueue(_, _, _, delay) => delay >= 0.0
      case Reschedule(id, delay) => id != x && delay >= 0.0
      case Remove(id) => id != x
      case Clear(inst) => inst != instance
      case _ => true
  }

  /** `x` waits at the highest effective priority there is. */
  ghost predicate Ripe(s: QueueState, now: real, x: nat) {
    && Ages(s.aging) && Issued(s)
    && x in s.items && s.items[x].claim.None? && s.items[x].scheduledAt < now
    && (100 - s.items[x].priority) as real <= Gain(s.aging, now, s.items[x])
  }

  lemma RipeHasTopKey(s: QueueState, now: real, x: nat)
    requires Ripe(s, now, x)
    ensures Effective(s.aging, now, s.items[x]) == 100
  {
    FloorOfSum(s.items[x].priority, Gain(s.aging, now, s.items[x]));
  }

  lemma RipeStaysRipe(s: QueueState, now: real, later: real, x: nat)
    requires Ripe(s, now, x) && now <= later
    ensures Ripe(s, later, x)
  {
    var t := s.items[x].scheduledAt;
    assert (later - t) * s.aging.rate == (now - t) * s.aging.rate + (later - now) * s.aging.rate;
  }

  /** While `x` is ripe, whoever is handed out instead of it was ahead of it. */
  lemma OvertakersAreAhead(s: QueueState, now: real, x: nat, id: nat)
    requires Ripe(s, now, x) && Selectable(s, now, id) && id != x
    ensures id in Ahead(s, x)
  {
    RipeHasTopKey(s, now, x);
  }

  lemma RipeAfter(s: QueueState, e: Event, x: nat)
    requires Ripe(s, e.now, x) && Undisturbed([e], x, s.items[x].instance) && !Picks(e, x)
    ensures Ripe(Apply(s, e), e.now, x) && Apply(s, e).items[x] == s.items[x]
  {
    assert [e][0] == e;
  }

  /** One event changes the number of items ahead by at most what it accounts for. */
  lemma AheadAfter(s: QueueState, e: Event, x: nat)
    requires Ripe(s, e.now, x) && Possible(s, e) && Undisturbed([e], x, s.items[x].instance) && !Picks(e, x)
    ensures Ripe(Apply(s, e), e.now, x)
    ensures |Ahead(Apply(s, e), x)| + (if e.op.Dequeue? then 1 else 0) <=
            |Ahead(s, x)| + (if e.op.Release? then 1 else 0)
  {
    RipeAfter(s, e, x);
    assert [e][0] == e;
    var a, b := Ahead(s, x), Ahead(Apply(s, e), x);
    match e.op
    case Dequeue(_, picked) =>
      RipeHasTopKey(s, e.now, x);
      OvertakersAreAhead(s, e.now, x, picked.value);
      assert b == a - {picked.value};
    case Release(id) =>
      SubsetCardinality(b, a + {id});
    case _ =>
      assert b <= a;
      SubsetCardinality(b, a);
  }

  /**
   No starvation: once an item of priority p has waited (100 - p) / rate seconds, it is
   handed out within as many dequeues as there are unclaimed items scheduled no later than
   it, plus one per explicit release, whatever else is enqueued or rescheduled meanwhile.
   */
  lemma {:induction false} NoStarvation(s: QueueState, now: real, events: seq<Event>, x: nat)
    requires Ripe(s, now, x) && IsRun(s, now, events) && Undisturbed(events, x, s.items[x].instance)
    requires Dequeues(events) > |Ahead(s, x)| + Releases(events)
    ensures exists i :: 0 <= i < |events| && Picks(events[i], x)
    decreases |events|
  {
    var e, tail := events[0], events[1..];
    if !Picks(e, x) {
      RipeStaysRipe(s, now, e.now, x);
      assert Undisturbed([e], x, s.items[x].instance);
      AheadAfter(s, e, x);
      NoStarvation(Apply(s, e), e.now, tail, x);
      var i :| 0 <= i < |tail| && Picks(tail[i], x);
      assert events[i + 1] == tail[i];
    } else {
      assert Picks(events[0], x);
    }
  }

  // ---- Newcomers ----

  /** A newcomer of priority `p` enqueued at `now` would go first, or tie for it. */
  ghost predicate Overtakes(s: QueueState, now: real, p: int) {
    var newcomer := QueueItem(0, None, now + 0.0, p, None);
    && Effective(s.aging, now, newcomer) >= 0
    && forall k :: k in s.items && Waiting(s.items[k], now) ==>
         Precedes(Effective(s.aging, now, newcomer), newcomer, Effective(s.aging, now, s.items[k]), s.items[k])
  }

  /** `n` newcomers in a row, each handed out at once. */
  function Newcomers(now: real, p: int, firstId: nat, n: nat): seq<Event>
    decreases n
  {
    if n == 0 then []
    else [Event(now, Enqueue(0, None, p, 0.0)), Event(now, Dequeue("w", Some(firstId)))]
         + Newcomers(now, p, firstId + 1, n - 1)
  }

  lemma {:induction false} NewcomersStarveOthers(s: QueueState, now: real, p: int, n: nat, x: nat)
    requires Issued(s) && Overtakes(s, now, p) && x in s.items
    ensures var events := Newcomers(now, p, s.nextId, n);
            && IsRun(s, now, events) && Dequeues(events) == n && Releases(events) == 0
            && x in After(s, events).items && After(s, events).items[x] == s.items[x]
    decreases n
  {
    if n > 0 {
      var id := s.nextId;
      var e0, e1 := Event(now, Enqueue(0, None, p, 0.0)), Event(now, Dequeue("w", Some(id)));
      var s1 := Apply(s, e0);
      assert Selectable(s1, now, id);
      var s2 := Apply(s1, e1);
      assert s2.items[x] == s.items[x];
      NewcomersStarveOthers(s2, now, p, n - 1, x);
      var rest := Newcomers(now, p, id + 1, n - 1);
      var events := [e0, e1] + rest;
      assert events[1..] == [e1] + rest && events[1..][1..] == rest;
    }
  }

  lemma {:induction false} NewcomersAreHarmless(now: real, p: int, firstId: nat, n: nat, x: nat, instance: nat)
    requires x < firstId
    ensures Undisturbed(Newcomers(now, p, firstId, n), x, instance)
    ensures forall i :: 0 <= i < |Newcomers(now, p, firstId, n)| ==> !Picks(Newcomers(now, p, firstId, n)[i], x)
    decreases n
  {
    if n > 0 {
      NewcomersAreHarmless(now, p, firstId + 1, n - 1, x, instance);
      var rest := Newcomers(now, p, firstId + 1, n - 1);
      var events := Newcomers(now, p, firstId, n);
      assert forall i :: 2 <= i < |events| ==> events[i] == rest[i - 2];
    }
  }

  // ---- The bound holds exactly for ripe items ----

  /** Every undisturbed run with more dequeues than items ahead and releases hands out `x`. */
  ghost predicate Bounded(s: QueueState, now: real, x: nat)
    requires x in s.items
  {
    forall events ::
      IsRun(s, now, events) && Undisturbed(events, x, s.items[x].instance)
      && Dequeues(events) > |Ahead(s, x)| + Releases(events) ==>
        exists i :: 0 <= i < |events| && Picks(events[i], x)
  }

  /** A run at one instant that leaves `x` where it is. */
  ghost predicate PassesBy(s: QueueState, now: real, events: seq<Event>, x: nat)
    requires x in s.items
  {
    && IsRun(s, now, events) && Undisturbed(events, x, s.items[x].instance) && Releases(events) == 0
    && forall i :: 0 <= i < |events| ==> events[i].now == now && !Picks(events[i], x)
  }

  lemma {:induction false} RunAppend(s: QueueState, now: real, xs: seq<Event>, ys: seq<Event>)
    requires IsRun(s, now, xs) && IsRun(After(s, xs), now, ys) && forall i :: 0 <= i < |xs| ==> xs[i].now == now
    ensures IsRun(s, now, xs + ys) && After(s, xs + ys) == After(After(s, xs), ys)
    ensures Dequeues(xs + ys) == Dequeues(xs) + Dequeues(ys) && Releases(xs + ys) == Releases(xs) + Releases(ys)
    decreases |xs|
  {
    if xs == [] {
      assert xs + ys == ys;
    } else {
      assert (xs + ys)[0] == xs[0] && (xs + ys)[1..] == xs[1..] + ys;
      RunAppend(Apply(s, xs[0]), now, xs[1..], ys);
    }
  }

  ghost function RipeOthers(s: QueueState, now: real, x: nat): set<nat> {
    set id | id in s.items && id != x && Ripe(s, now, id)
  }

  /** Due before now and of the highest key is what ripe means. */
  lemma TopKeyIsRipe(s: QueueState, now: real, id: nat)
    requires Issued(s) && Ages(s.aging) && id in s.items && Waiting(s.items[id], now) && s.items[id].scheduledAt < now
    ensures Effective(s.aging, now, s.items[id]) == 100 <==> Ripe(s, now, id)
    ensures Effective(s.aging, now, s.items[id]) <= 100
  {
    FloorOfSum(s.items[id].priority, Gain(s.aging, now, s.items[id]));
  }

  lemma {:induction false} Earliest(s: QueueState, ids: set<nat>) returns (y: nat)
    requires ids != {} && ids <= s.items.Keys
    ensures y in ids && forall k :: k in ids ==> s.items[y].scheduledAt <= s.items[k].scheduledAt
    decreases |ids|
  {
    y :| y in ids;
    var rest := ids - {y};
    if rest != {} {
      var z := Earliest(s, rest);
      assert forall k :: k in ids ==> k == y || k in rest;
      if s.items[z].scheduledAt < s.items[y].scheduledAt {
        y := z;
      }
    } else {
      assert ids == {y};
    }
  }

  /** The earliest ripe item may be handed out, whatever else is in the queue. */
  lemma EarliestRipeIsSelectable(s: QueueState, now: real, x: nat, y: nat)
    requires Issued(s) && Ages(s.aging) && x in s.items && Waiting(s.items[x], now) && !Ripe(s, now, x)
    requires y in RipeOthers(s, now, x)
    requires forall k :: k in RipeOthers(s, now, x) ==> s.items[y].scheduledAt <= s.items[k].scheduledAt
    ensures Selectable(s, now, y)
  {
    RipeHasTopKey(s, now, y);
    forall k | k in s.items && Waiting(s.items[k], now)
      ensures Precedes(100, s.items[y], Effective(s.aging, now, s.items[k]), s.items[k])
    {
      if s.items[k].scheduledAt < now {
        TopKeyIsRipe(s, now, k);
      }
    }
  }

  /** Hand out all other ripe items, the earliest first. */
  lemma {:induction false} Drain(s: QueueState, now: real, x: nat) returns (events: seq<Event>)
    requires Issued(s) && Ages(s.aging) && x in s.items && Waiting(s.items[x], now) && !Ripe(s, now, x)
    ensures PassesBy(s, now, events, x)
    ensures var s' := After(s, events);
            && Issued(s') && s'.aging == s.aging && x in s'.items && s'.items[x] == s.items[x]
            && RipeOthers(s', now, x) == {}
    decreases |RipeOthers(s, now, x)|
  {
    var ripe := RipeOthers(s, now, x);
    if ripe == {} {
      events := [];
    } else {
      var y := Earliest(s, ripe);
      EarliestRipeIsSelectable(s, now, x, y);
      var e := Event(now, Dequeue("w", Some(y)));
      var s1 := Apply(s, e);
      assert RipeOthers(s1, now, x) == ripe - {y};
      var rest := Drain(s1, now, x);
      events := [e] + rest;
      assert events[1..] == rest;
      assert forall i :: 1 <= i < |events| ==> events[i] == rest[i - 1];
    }
  }

  lemma HighestPriority(s: QueueState) returns (p: int)
    ensures p >= 0 && forall k :: k in s.items ==> s.items[k].priority < p
  {
    var todo := s.items.Keys;
    p := 0;
    while todo != {}
      invariant p >= 0 && todo <= s.items.Keys
      invariant forall k :: k in s.items && k !in todo ==> s.items[k].priority < p
      decreases todo
    {
      var k :| k in todo;
      if s.items[k].priority >= p {
        p := s.items[k].priority + 1;
      }
      todo := todo - {k};
    }
  }

  /** Newcomers of high priority overtake a queue in which nothing is ripe. */
  lemma SomethingOvertakes(s: QueueState, now: real) returns (p: int)
    requires Issued(s) && forall id :: id in s.items ==> !Ripe(s, now, id)
    ensures Overtakes(s, now, p)
  {
    if Ages(s.aging) {
      p := 100;
      var newcomer := QueueItem(0, None, now + 0.0, p, None);
      assert Gain(s.aging, now, newcomer) == 0.0;
      forall k | k in s.items && Waiting(s.items[k], now)
        ensures Precedes(100, newcomer, Effective(s.aging, now, s.items[k]), s.items[k])
      {
        if s.items[k].scheduledAt < now {
          TopKeyIsRipe(s, now, k);
        }
      }
    } else {
      p := HighestPriority(s);
    }
  }

  /** An item that is not ripe can be passed by any number of times. */
  lemma NotRipeIsPassedBy(s: QueueState, now: real, x: nat, n: nat) returns (events: seq<Event>)
    requires Issued(s) && x in s.items && Waiting(s.items[x], now) && !Ripe(s, now, x)
    ensures IsRun(s, now, events) && Undisturbed(events, x, s.items[x].instance)
    ensures Dequeues(events) >= n && Releases(events) == 0
    ensures forall i :: 0 <= i < |events| ==> !Picks(events[i], x)
  {
    var before := [];
    if Ages(s.aging) {
      before := Drain(s, now, x);
    }
    var s1 := After(s, before);
    assert forall id :: id in s1.items ==> !Ripe(s1, now, id) by {
      assert forall id :: id in s1.items && id != x && Ripe(s1, now, id) ==> id in RipeOthers(s1, now, x);
    }
    var p := SomethingOvertakes(s1, now);
    var newcomers := Newcomers(now, p, s1.nextId, n);
    NewcomersStarveOthers(s1, now, p, n, x);
    NewcomersAreHarmless(now, p, s1.nextId, n, x, s.items[x].instance);
    RunAppend(s, now, before, newcomers);
    events := before + newcomers;
  }

  /** The bound of the no-starvation theorem holds for a waiting item if and only if it is ripe. */
  lemma BoundedIffRipe(s: QueueState, now: real, x: nat)
    requires Issued(s) && x in s.items && Waiting(s.items[x], now)
    ensures Bounded(s, now, x) <==> Ripe(s, now, x)
  {
    if Ripe(s, now, x) {
      forall events | IsRun(s, now, events) && Undisturbed(events, x, s.items[x].instance)
                      && Dequeues(events) > |Ahead(s, x)| + Releases(events)
        ensures exists i :: 0 <= i < |events| && Picks(events[i], x)
      {
        NoStarvation(s, now, events, x);
      }
    } else {
      var events := NotRipeIsPassedBy(s, now, x, |Ahead(s, x)| + 1);
      assert IsRun(s, now, events);
    }
  }

  /** So there is no bound without aging, nor for an item at the very instant it becomes due. */
  lemma NoBoundWithoutAging(s: QueueState, now: real, x: nat)
    requires Issued(s) && x in s.items && Waiting(s.items[x], now)
    requires !Ages(s.aging) || s.items[x].scheduledAt == now
    ensures !Bounded(s, now, x)
  {
    BoundedIffRipe(s, now, x);
  }

  // ---- The store's operations ----

  /** An order in which a map may be iterated. */
  ghost predicate IterationOf(order: seq<nat>, items: Items) {
    && (forall i :: 0 <= i < |order| ==> order[i] in items)
    && (forall k :: k in items ==> exists i :: 0 <= i < |order| && order[i] == k)
  }

  class WorkQueue {
    var items: Items
    var nextId: nat
    var aging: Aging

    constructor ()
      ensures View() == QueueState(map[], 1, Aging(true, 0.5))
    {
      items, nextId, aging := map[], 1, Aging(true, 0.5);
    }

    ghost function View(): QueueState
      reads this
    {
      QueueState(items, nextId, aging)
    }

    method EnqueueStep(now: real, instance: nat, step: Option<nat>, priority: int, delay: real)
      modifies this
      ensures View() == Apply(old(View()), Event(now, Enqueue(instance, step, priority, delay)))
    {
      items := items[nextId := QueueItem(instance, step, now + delay, priority, None)];
      nextId := nextId + 1;
    }

    /** The arg-max loop over the queue; `order` is the order in which the map is iterated. */
    method Select(now: real, order: seq<nat>) returns (picked: Option<nat>)
      requires IterationOf(order, items)
      ensures picked.Some? ==> Selectable(View(), now, picked.value)
      ensures picked.None? ==> NothingSelectable(View(), now)
    {
      var maxPriority := -1;
      picked := None;
      for i := 0 to |order|
        invariant maxPriority >= -1 && (picked.Some? <==> maxPriority >= 0)
        invariant picked.Some? ==>
                    && picked.value in items && Waiting(items[picked.value], now)
                    && Effective(aging, now, items[picked.value]) == maxPriority
        invariant forall j :: 0 <= j < i && Waiting(items[order[j]], now) ==>
                    if picked.Some?
                    then Precedes(maxPriority, items[picked.value], Effective(aging, now, items[order[j]]),
                                  items[order[j]])
                    else Effective(aging, now, items[order[j]]) < 0
      {
        var item := items[order[i]];
        if item.claim.Some? || item.scheduledAt > now {
          continue;
        }
        var priority := Effective(aging, now, item);
        if priority > maxPriority ||
           (priority == maxPriority && picked.Some? && item.scheduledAt < items[picked.value].scheduledAt) {
          maxPriority := priority;
          picked := Some(order[i]);
        }
      }
    }

    method DequeueStep(now: real, worker: string, order: seq<nat>) returns (picked: Option<nat>)
      requires IterationOf(order, items)
      modifies this
      ensures Possible(old(View()), Event(now, Dequeue(worker, picked)))
      ensures View() == Apply(old(View()), Event(now, Dequeue(worker, picked)))
    {
      picked := Select(now, order);
      if picked.Some? {
        items := items[picked.value := items[picked.value].(claim := Some(Claim(now, worker)))];
      }
    }

    method RemoveFromQueue(now: real, id: nat)
      modifies this
      ensures View() == Apply(old(View()), Event(now, Remove(id)))
    {
      items := items - {id};
    }

    method ReleaseQueueItem(now: real, id: nat) returns (found: bool)
      modifies this
      ensures found <==> id in old(items)
      ensures View() == Apply(old(View()), Event(now, Release(id)))
    {
      found := id in items;
      if found {
        items := items[id := items[id].(claim := None)];
      }
    }

    method RescheduleAndReleaseQueueItem(now: real, id: nat, delay: real) returns (found: bool)
      modifies this
      ensures found <==> id in old(items)
      ensures View() == Apply(old(View()), Event(now, Reschedule(id, delay)))
    {
      found := id in items;
      if found {
        var scheduledAt := now + delay;
        if scheduledAt < items[id].scheduledAt {
          scheduledAt := items[id].scheduledAt;
        }
        items := items[id := items[id].(scheduledAt := scheduledAt, claim := None)];
      }
    }

    /** The queue half of PauseActiveStepsAndClearQueue. */
    method ClearInstance(now: real, instance: nat, order: seq<nat>)
      requires IterationOf(order, items)
      modifies this
      ensures View() == Apply(old(View()), Event(now, Clear(instance)))
    {
      ghost var all := items;
      for i := 0 to |order|
        invariant View() == QueueState(items, old(nextId), old(aging))
        invariant items.Keys <= all.Keys
        invariant forall id :: id in items ==> items[id] == all[id]
        invariant forall id :: id in all && all[id].instance != instance ==> id in items
        invariant forall j :: 0 <= j < i && all[order[j]].instance == instance ==> order[j] !in items
      {
        if order[i] in items && items[order[i]].instance == instance {
          items := items - {order[i]};
        }
      }
      forall id | id in items
        ensures all[id].instance != instance
      {
        var j :| 0 <= j < |order| && order[j] == id;
      }
      SameMap(items, map id | id in all && all[id].instance != instance :: all[id]);
    }
  }
}
