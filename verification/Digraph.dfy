/** Directed graphs given by child lists: walks, cycles and closures. */
module Digraph {

  type Graph = map<string, seq<string>>

  function Kids(g: Graph, id: string): seq<string> {
    if id in g then g[id] else []
  }

  // A walk follows child edges; a single node is one.
  predicate Walk(g: Graph, p: seq<string>) {
    |p| >= 1 && (|p| == 1 || (Walk(g, p[..|p| - 1]) && p[|p| - 1] in Kids(g, p[|p| - 2])))
  }

  lemma {:induction false} WalkSuffix(g: Graph, p: seq<string>, k: nat)
    requires Walk(g, p) && k < |p|
    ensures Walk(g, p[k..])
  {
    var n := |p| - 1;
    if k < n {
      WalkSuffix(g, p[..n], k);
      assert p[k..][..n - k] == p[..n][k..];
    }
  }

  ghost predicate Cycle(g: Graph, p: seq<string>) {
    Walk(g, p) && |p| >= 2 && p[0] == p[|p| - 1]
  }

  ghost predicate Cyclic(g: Graph) {
    exists p :: Cycle(g, p)
  }

  /** Every node that occurs as a parent or as a child. */
  function AllNodes(g: Graph): set<string> {
    g.Keys + set id, k | id in g.Keys && 0 <= k < |g[id]| :: g[id][k]
  }

  lemma KidsAreNodes(g: Graph, id: string)
    ensures forall kid :: kid in Kids(g, id) ==> kid in AllNodes(g)
  {
  }

  /** A rank that falls along every edge rules cycles out. */
  ghost predicate Ranked(g: Graph, rank: map<string, nat>) {
    forall id, kid :: id in g && kid in g[id] ==> id in rank && kid in rank && rank[kid] < rank[id]
  }

  lemma {:induction false} RankFalls(g: Graph, rank: map<string, nat>, p: seq<string>)
    requires Ranked(g, rank) && Walk(g, p) && |p| >= 2
    ensures p[0] in rank && p[|p| - 1] in rank && rank[p[|p| - 1]] < rank[p[0]]
  {
    var n := |p| - 1;
    var id, kid := p[n - 1], p[n];
    assert id in g && kid in g[id];
    assert id in rank && kid in rank && rank[kid] < rank[id];
    if n > 1 {
      RankFalls(g, rank, p[..n]);
      assert p[..n][0] == p[0] && p[..n][n - 1] == p[n - 1];
    }
  }

  lemma RankedAcyclic(g: Graph, rank: map<string, nat>)
    requires Ranked(g, rank)
    ensures !Cyclic(g)
  {
    forall p | Walk(g, p) && |p| >= 2 ensures p[0] != p[|p| - 1] {
      RankFalls(g, rank, p);
    }
  }

  lemma {:induction false} SubgraphWalk(g: Graph, sub: Graph, p: seq<string>)
    requires Walk(sub, p) && forall id, kid :: kid in Kids(sub, id) ==> kid in Kids(g, id)
    ensures Walk(g, p)
  {
    if |p| > 1 {
      SubgraphWalk(g, sub, p[..|p| - 1]);
    }
  }

  /** Removing edges cannot create a cycle. */
  lemma SubgraphAcyclic(g: Graph, sub: Graph)
    requires !Cyclic(g) && forall id, kid :: kid in Kids(sub, id) ==> kid in Kids(g, id)
    ensures !Cyclic(sub)
  {
    forall p | Walk(sub, p) && |p| >= 2 ensures p[0] != p[|p| - 1] {
      SubgraphWalk(g, sub, p);
      assert !Cycle(g, p);
    }
  }

  // --------------------------------------------------------------- closure

  ghost predicate Closed(g: Graph, s: set<string>) {
    forall id, kid :: id in s && kid in Kids(g, id) ==> kid in s
  }

  ghost predicate Reaches(g: Graph, start: set<string>, id: string) {
    exists p :: Walk(g, p) && p[0] in start && p[|p| - 1] == id
  }

  lemma {:induction false} WalkStaysInside(g: Graph, s: set<string>, p: seq<string>)
    requires Closed(g, s) && Walk(g, p) && p[0] in s
    ensures p[|p| - 1] in s
  {
    if |p| > 1 {
      WalkStaysInside(g, s, p[..|p| - 1]);
    }
  }

  lemma ReachStep(g: Graph, start: set<string>, id: string, kid: string)
    requires Reaches(g, start, id) && kid in Kids(g, id)
    ensures Reaches(g, start, kid)
  {
    var p :| Walk(g, p) && p[0] in start && p[|p| - 1] == id;
    assert (p + [kid])[..|p|] == p;
    assert Walk(g, p + [kid]) && (p + [kid])[0] in start;
  }

  lemma ReachStart(g: Graph, start: set<string>, id: string)
    requires id in start
    ensures Reaches(g, start, id)
  {
    assert Walk(g, [id]) && [id][0] in start;
  }

  // The closure of `start`: all of it, closed, and made of reachable nodes only.
  ghost predicate IsClosure(g: Graph, start: set<string>, s: set<string>) {
    start <= s && Closed(g, s) && forall id :: id in s ==> Reaches(g, start, id)
  }

  /** The closure is exactly the reachable nodes, and it is the least closed superset. */
  lemma ClosureIsLeast(g: Graph, start: set<string>, s: set<string>)
    requires IsClosure(g, start, s)
    ensures forall id :: id in s <==> Reaches(g, start, id)
    ensures forall t :: start <= t && Closed(g, t) ==> s <= t
  {
    forall id | Reaches(g, start, id) ensures id in s {
      var p :| Walk(g, p) && p[0] in start && p[|p| - 1] == id;
      WalkStaysInside(g, s, p);
    }
    forall t, id | start <= t && Closed(g, t) && id in s ensures id in t {
      var p :| Walk(g, p) && p[0] in start && p[|p| - 1] == id;
      WalkStaysInside(g, t, p);
    }
  }

  lemma ClosureUnique(g: Graph, start: set<string>, s: set<string>, t: set<string>)
    requires IsClosure(g, start, s) && IsClosure(g, start, t)
    ensures s == t
  {
    ClosureIsLeast(g, start, s);
    ClosureIsLeast(g, start, t);
  }

  /** Closing a closed set adds nothing. */
  lemma ClosedIsItsClosure(g: Graph, s: set<string>)
    requires Closed(g, s)
    ensures IsClosure(g, s, s)
  {
    forall id | id in s ensures Reaches(g, s, id) {
      ReachStart(g, s, id);
    }
  }
}
