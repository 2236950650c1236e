/**
 The two directions of a definition's links: the forward lists (Next, Else, Parallel)
 and the backward Prev reference. `Linked` says that they are inverse to each other and
 that they form a forest; the builder establishes it, the engine's searches rely on it.
 */
module Links {
  import opened Definitions
  import opened Graphs

  /** What a step leads to, in the order the engine's forward search looks at it. */
  function Successors(d: StepDef): seq<string> {
    d.next + (if d.els != "" then [d.els] else []) + d.parallel
  }

  function Flow(steps: Steps): Adjacency {
    map n | n in steps :: Elements(Successors(steps[n]))
  }

  /** The Prev links; the empty name is no link. */
  function Back(steps: Steps): Adjacency {
    map n | n in steps :: if steps[n].prev == "" then {} else {steps[n].prev}
  }

  ghost predicate Linked(steps: Steps, depth: map<string, nat>) {
    LinkedBy(steps, Flow(steps), depth)
  }

  /** `Linked`, with the forward graph as a parameter. */
  ghost predicate LinkedBy(steps: Steps, g: Adjacency, depth: map<string, nat>) {
    && "" !in steps && ROOT !in steps
    && (forall u, v :: Edge(g, u, v) ==> v in steps && steps[v].prev == u)
    && (forall v :: v in steps && steps[v].prev in steps ==> Edge(g, steps[v].prev, v))
    && (forall u :: u in steps ==> steps[u].prev in steps || steps[u].prev == ROOT || steps[u].prev == "")
    && Ranked(g, depth)
  }

  lemma FlowIsBackReversed(steps: Steps, depth: map<string, nat>, u: string, v: string)
    requires Linked(steps, depth)
    ensures Edge(Flow(steps), u, v) ==> u in steps && v in steps && Edge(Back(steps), v, u)
    ensures u in steps && Edge(Back(steps), v, u) ==> Edge(Flow(steps), u, v)
  {
  }

  /** Reversing a path. */
  lemma {:induction false} ForwardIffBackward(steps: Steps, depth: map<string, nat>, u: string, v: string)
    requires Linked(steps, depth) && u in steps && v in steps
    ensures Reaches(Flow(steps), u, v) <==> Reaches(Back(steps), v, u)
  {
    if Reaches(Flow(steps), u, v) {
      var p :| PathBetween(Flow(steps), p, u, v);
      ReversePath(Flow(steps), Back(steps), p) by {
        forall i | 0 <= i < |p| - 1
          ensures Edge(Back(steps), p[i + 1], p[i])
        {
          FlowIsBackReversed(steps, depth, p[i], p[i + 1]);
        }
      }
    }
    if Reaches(Back(steps), v, u) {
      var p :| PathBetween(Back(steps), p, v, u);
      ReversePath(Back(steps), Flow(steps), p) by {
        forall i | 0 <= i < |p| - 1
          ensures Edge(Flow(steps), p[i + 1], p[i])
        {
          assert i + 1 < |p| - 1 ==> Edge(Back(steps), p[i + 1], p[i + 2]);
          FlowIsBackReversed(steps, depth, p[i + 1], p[i]);
        }
      }
    }
  }

  lemma ReversePath(g: Adjacency, h: Adjacency, p: seq<string>)
    requires IsPath(g, p)
    requires forall i :: 0 <= i < |p| - 1 ==> Edge(h, p[i + 1], p[i])
    ensures Reaches(h, p[|p| - 1], p[0])
  {
    var q := seq(|p|, i requires 0 <= i < |p| => p[|p| - 1 - i]);
    forall i | 0 <= i < |q| - 1
      ensures Edge(h, q[i], q[i + 1])
    {
      var j := |p| - 2 - i;
      assert q[i] == p[j + 1] && q[i + 1] == p[j];
    }
    assert PathBetween(h, q, p[|p| - 1], p[0]);
  }

  /** The forest property: two steps above a third are above one another. */
  lemma {:induction false} AncestorsAreComparable(steps: Steps, depth: map<string, nat>, a: string, b: string,
        x: string)
    requires Linked(steps, depth) && a in steps && b in steps
    requires Reaches(Flow(steps), a, x) && Reaches(Flow(steps), b, x)
    ensures Reaches(Flow(steps), a, b) || Reaches(Flow(steps), b, a)
    decreases if x in depth then depth[x] else 0
  {
    var g := Flow(steps);
    if a == x {
    } else if b == x {
    } else {
      var u := ReachesByLastEdge(g, a, x);
      var v := ReachesByLastEdge(g, b, x);
      assert Edge(g, u, x) && Edge(g, v, x);
      assert u == steps[x].prev == v;
      var p :| PathBetween(g, p, a, u);
      if |p| > 1 {
        assert Edge(g, p[0], p[1]);
      }
      RankedPath(g, depth, p);
      AncestorsAreComparable(steps, depth, a, b, u);
    }
  }

  lemma ReachesDownwards(steps: Steps, depth: map<string, nat>, u: string, v: string)
    requires Linked(steps, depth) && Reaches(Flow(steps), u, v) && u != v
    ensures u in depth && v in depth && depth[u] < depth[v]
    ensures u in steps && v in steps
  {
    var w := ReachesByFirstEdge(Flow(steps), u, v);
    var p :| PathBetween(Flow(steps), p, w, v);
    RankedPath(Flow(steps), depth, p);
    var z := ReachesByLastEdge(Flow(steps), u, v);
    FlowIsBackReversed(steps, depth, z, v);
  }

  /** Below different children of a step there is nothing in common. */
  lemma SiblingsAreDisjoint(steps: Steps, depth: map<string, nat>, parent: string, a: string, b: string, x: string)
    requires Linked(steps, depth) && parent in steps && a in steps && b in steps
    requires steps[a].prev == parent && steps[b].prev == parent && a != b
    ensures !(Reaches(Flow(steps), a, x) && Reaches(Flow(steps), b, x))
  {
    if Reaches(Flow(steps), a, x) && Reaches(Flow(steps), b, x) {
      AncestorsAreComparable(steps, depth, a, b, x);
      SiblingsAreUnrelated(steps, depth, parent, a, b);
      SiblingsAreUnrelated(steps, depth, parent, b, a);
      assert false;
    }
  }

  lemma SiblingsAreUnrelated(steps: Steps, depth: map<string, nat>, parent: string, a: string, b: string)
    requires Linked(steps, depth) && parent in steps && a in steps && b in steps
    requires steps[a].prev == parent && steps[b].prev == parent && a != b
    ensures !Reaches(Flow(steps), a, b)
  {
    var g := Flow(steps);
    if Reaches(g, a, b) {
      var w := ReachesByLastEdge(g, a, b);
      assert w == parent;
      assert Edge(g, parent, a);
      if a != parent {
        ReachesDownwards(steps, depth, a, parent);
      }
      assert false;
    }
  }
}
