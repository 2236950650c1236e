/**
 Directed graphs over step names, given by successor sets, and reachability in them.
 */
module Graphs {
  import opened Definitions

  type Adjacency = map<string, set<string>>

  predicate Edge(g: Adjacency, u: string, v: string) {
    u in g && v in g[u]
  }

  predicate IsPath(g: Adjacency, p: seq<string>) {
    && |p| > 0
    && forall i :: 0 <= i < |p| - 1 ==> Edge(g, p[i], p[i + 1])
  }

  ghost predicate PathBetween(g: Adjacency, p: seq<string>, u: string, v: string) {
    IsPath(g, p) && p[0] == u && p[|p| - 1] == v
  }

  ghost predicate Reaches(g: Adjacency, u: string, v: string) {
    exists p :: PathBetween(g, p, u, v)
  }

  /** A non-empty walk from `u` back to itself. */
  ghost predicate OnCycle(g: Adjacency, u: string) {
    exists v :: Edge(g, u, v) && Reaches(g, v, u)
  }

  ghost predicate CycleReachable(g: Adjacency, start: string) {
    exists u :: Reaches(g, start, u) && OnCycle(g, u)
  }

  lemma PathExtend(g: Adjacency, p: seq<string>, v: string)
    requires p != [] ==> IsPath(g, p) && Edge(g, p[|p| - 1], v)
    ensures IsPath(g, p + [v])
  {
    var q := p + [v];
    forall i | 0 <= i < |q| - 1
      ensures Edge(g, q[i], q[i + 1])
    {
      assert i < |p| - 1 ==> Edge(g, p[i], p[i + 1]);
    }
  }

  lemma ReachesSelf(g: Adjacency, u: string)
    ensures Reaches(g, u, u)
  {
    assert PathBetween(g, [u], u, u);
  }

  lemma ReachesTransitive(g: Adjacency, u: string, v: string, w: string)
    requires Reaches(g, u, v) && Reaches(g, v, w)
    ensures Reaches(g, u, w)
  {
    var p :| PathBetween(g, p, u, v);
    var q :| PathBetween(g, q, v, w);
    var r := p + q[1..];
    forall i | 0 <= i < |r| - 1
      ensures Edge(g, r[i], r[i + 1])
    {
      if i < |p| - 1 {
      } else {
        assert r[i + 1] == q[i + 2 - |p|];
        assert r[i] == q[i + 1 - |p|];
      }
    }
    assert PathBetween(g, r, u, w);
  }

  lemma EdgeReaches(g: Adjacency, u: string, v: string)
    requires Edge(g, u, v)
    ensures Reaches(g, u, v)
  {
    assert PathBetween(g, [u, v], u, v);
  }

  /** A path that starts inside a set closed under edges never leaves it. */
  lemma {:induction false} PathStaysInClosedSet(g: Adjacency, p: seq<string>, inside: set<string>)
    requires IsPath(g, p) && p[0] in inside
    requires forall u, v :: u in inside && Edge(g, u, v) ==> v in inside
    ensures forall i :: 0 <= i < |p| ==> p[i] in inside
  {
    if |p| > 1 {
      assert Edge(g, p[0], p[1]);
      var tail := p[1..];
      forall i | 0 <= i < |tail| - 1
        ensures Edge(g, tail[i], tail[i + 1])
      {
        assert Edge(g, p[i + 1], p[i + 2]);
      }
      PathStaysInClosedSet(g, tail, inside);
      assert forall i :: 1 <= i < |p| ==> p[i] == tail[i - 1];
    }
  }

  lemma ReachStaysInClosedSet(g: Adjacency, u: string, v: string, inside: set<string>)
    requires u in inside && Reaches(g, u, v)
    requires forall x, y :: x in inside && Edge(g, x, y) ==> y in inside
    ensures v in inside
  {
    var p :| PathBetween(g, p, u, v);
    PathStaysInClosedSet(g, p, inside);
  }

  /** Where a path that is not trivial begins: with an edge, or with a self-loop of length zero. */
  lemma ReachesByFirstEdge(g: Adjacency, u: string, v: string) returns (w: string)
    requires Reaches(g, u, v) && u != v
    ensures Edge(g, u, w) && Reaches(g, w, v)
  {
    var p :| PathBetween(g, p, u, v);
    w := p[1];
    assert Edge(g, p[0], p[1]);
    var tail := p[1..];
    forall i | 0 <= i < |tail| - 1
      ensures Edge(g, tail[i], tail[i + 1])
    {
      assert Edge(g, p[i + 1], p[i + 2]);
    }
    assert PathBetween(g, tail, w, v);
  }

  lemma ReachesByLastEdge(g: Adjacency, u: string, v: string) returns (w: string)
    requires Reaches(g, u, v) && u != v
    ensures Reaches(g, u, w) && Edge(g, w, v)
  {
    var p :| PathBetween(g, p, u, v);
    w := p[|p| - 2];
    assert Edge(g, p[|p| - 2], p[|p| - 1]);
    var init := p[..|p| - 1];
    assert PathBetween(g, init, u, w);
  }

  /** In a graph whose edges increase a rank, walks do too. */
  ghost predicate Ranked(g: Adjacency, rank: map<string, nat>) {
    forall u, v :: Edge(g, u, v) ==> u in rank && v in rank && rank[u] < rank[v]
  }

  lemma {:induction false} RankedPath(g: Adjacency, rank: map<string, nat>, p: seq<string>)
    requires Ranked(g, rank) && IsPath(g, p) && p[0] in rank
    ensures p[|p| - 1] in rank
    ensures rank[p[0]] <= rank[p[|p| - 1]]
    decreases |p|
  {
    if |p| > 1 {
      assert Edge(g, p[0], p[1]);
      var tail := p[1..];
      forall i | 0 <= i < |tail| - 1
        ensures Edge(g, tail[i], tail[i + 1])
      {
        assert Edge(g, p[i + 1], p[i + 2]);
      }
      RankedPath(g, rank, tail);
    }
  }

  lemma RankedHasNoCycle(g: Adjacency, rank: map<string, nat>, start: string)
    requires Ranked(g, rank)
    ensures !CycleReachable(g, start)
  {
    if CycleReachable(g, start) {
      var u :| Reaches(g, start, u) && OnCycle(g, u);
      var v :| Edge(g, u, v) && Reaches(g, v, u);
      var p :| PathBetween(g, p, v, u);
      RankedPath(g, rank, p);
      assert false;
    }
  }
}
