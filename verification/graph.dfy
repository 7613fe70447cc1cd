/**
 * The weighted undirected graph of the courier backend (class `Graph` in
 * backend/app.py). Each node owns an adjacency list whose order is the
 * insertion order of the Python dict it stands for; that order decides which
 * neighbour BFS and DFS look at first and the order in which A* pushes.
 */
module Graphs {
  import opened Wrappers

  /** One adjacency dict: (neighbour, edge cost) pairs in dict iteration order. */
  type Adjacency<N(==,!new)> = seq<(N, real)>

  /** `nodes` are the ids given to `add_node`; `edges` and `heuristics` are the dicts of the same names. */
  datatype Graph<N(==,!new)> = Graph(nodes: set<N>, edges: map<N, Adjacency<N>>, heuristics: map<N, real>)

  /** The keys of an adjacency dict. */
  function Keys<N(==,!new)>(adj: Adjacency<N>): set<N> {
    set i | 0 <= i < |adj| :: adj[i].0
  }

  /** A Python dict never holds a key twice. */
  predicate DistinctKeys<N(==,!new)>(adj: Adjacency<N>) {
    forall i, j :: 0 <= i < j < |adj| ==> adj[i].0 != adj[j].0
  }

  lemma KeysCons<N(!new)>(adj: Adjacency<N>)
    requires |adj| > 0
    ensures Keys(adj) == {adj[0].0} + Keys(adj[1..])
  {
    forall k | k in Keys(adj) ensures k in {adj[0].0} + Keys(adj[1..]) {
      var i :| 0 <= i < |adj| && adj[i].0 == k;
      if i > 0 {
        assert adj[1..][i - 1].0 == k;
      }
    }
    forall k | k in Keys(adj[1..]) ensures k in Keys(adj) {
      var i :| 0 <= i < |adj[1..]| && adj[1..][i].0 == k;
      assert adj[i + 1].0 == k;
    }
  }

  /** `adj.get(k)`: the cost stored under `k`, if any. */
  function Lookup<N(==,!new)>(adj: Adjacency<N>, k: N): (r: Option<real>)
    ensures r.Some? <==> k in Keys(adj)
    ensures r.Some? ==> (k, r.value) in adj
    decreases |adj|
  {
    if |adj| == 0 then None
    else
      KeysCons(adj);
      if adj[0].0 == k then Some(adj[0].1) else Lookup(adj[1..], k)
  }

  /** In a dict every stored pair is what a lookup of its key returns. */
  lemma {:induction false} LookupOfMember<N(!new)>(adj: Adjacency<N>, k: N, v: real)
    requires DistinctKeys(adj)
    requires (k, v) in adj
    ensures Lookup(adj, k) == Some(v)
    decreases |adj|
  {
    if adj[0] != (k, v) {
      var i :| 0 <= i < |adj| && adj[i] == (k, v);
      assert i > 0;
      assert adj[0].0 != adj[i].0;
      assert adj[1..][i - 1] == (k, v);
      LookupOfMember(adj[1..], k, v);
    }
  }

  /**
   * `adj[k] = v` on a Python dict: an existing key keeps its position and
   * takes the new value; a new key is appended at the end.
   */
  function Upsert<N(==,!new)>(adj: Adjacency<N>, k: N, v: real): (r: Adjacency<N>)
    ensures Keys(r) == Keys(adj) + {k}
    ensures Lookup(r, k) == Some(v)
    ensures forall j :: j != k ==> Lookup(r, j) == Lookup(adj, j)
    ensures k !in Keys(adj) ==> r == adj + [(k, v)]
    ensures k in Keys(adj) ==> |r| == |adj| && forall i :: 0 <= i < |adj| ==> r[i].0 == adj[i].0
    decreases |adj|
  {
    if |adj| == 0 then
      KeysCons([(k, v)]);
      [(k, v)]
    else
      KeysCons(adj);
      if adj[0].0 == k then
        var r := [(k, v)] + adj[1..];
        KeysCons(r);
        assert r[1..] == adj[1..];
        r
      else
        var rest := Upsert(adj[1..], k, v);
        var r := [adj[0]] + rest;
        KeysCons(r);
        assert r[1..] == rest;
        assert k !in Keys(adj) ==> r == adj + [(k, v)] by {
          if k !in Keys(adj) {
            assert rest == adj[1..] + [(k, v)];
          }
        }
        r
  }

  /** `Graph.__init__`: no nodes, no edges, no heuristic values. */
  function Empty<N(==,!new)>(): Graph<N> {
    Graph({}, map[], map[])
  }

  /** `get_neighbors`: the node's adjacency dict, or an empty one for an unknown node. */
  function Neighbors<N(==,!new)>(g: Graph<N>, n: N): (r: Adjacency<N>)
    ensures n in g.edges ==> r == g.edges[n]
    ensures n !in g.edges ==> r == []
  {
    if n in g.edges then g.edges[n] else []
  }

  /** `get_heuristic`: the node's heuristic value, or 0 for an unknown node. */
  function Heuristic<N(==,!new)>(g: Graph<N>, n: N): (r: real)
    ensures n in g.heuristics ==> r == g.heuristics[n]
    ensures n !in g.heuristics ==> r == 0.0
  {
    if n in g.heuristics then g.heuristics[n] else 0.0
  }

  /** `edges[a].get(b)`: the cost of the edge from `a` to `b`, if there is one. */
  function Weight<N(==,!new)>(g: Graph<N>, a: N, b: N): Option<real> {
    Lookup(Neighbors(g, a), b)
  }

  /** `b in get_neighbors(a)`, the adjacency test used on returned paths. */
  predicate Adjacent<N(==,!new)>(g: Graph<N>, a: N, b: N) {
    Weight(g, a, b).Some?
  }

  /** Every adjacency list is a genuine dict (no key twice); holds for every graph the builders produce. */
  predicate Valid<N(==,!new)>(g: Graph<N>) {
    forall n :: n in g.edges ==> DistinctKeys(g.edges[n])
  }

  /** Edges are undirected: the cost from `a` to `b` is the cost from `b` to `a`. */
  ghost predicate Symmetric<N(!new)>(g: Graph<N>) {
    forall a, b :: Weight(g, a, b) == Weight(g, b, a)
  }

  /** Every node named as a neighbour was declared with `add_node`. */
  ghost predicate NeighborsDeclared<N(!new)>(g: Graph<N>) {
    forall n :: n in g.edges ==> Keys(g.edges[n]) <= g.nodes
  }

  /** Every node a search starting at `start` can ever touch: the start and every listed neighbour. */
  function Universe<N(==,!new)>(g: Graph<N>, start: N): (u: set<N>)
    ensures start in u
    ensures forall n :: Keys(Neighbors(g, n)) <= u
  {
    var u := {start} + (set m, i | m in g.edges && 0 <= i < |g.edges[m]| :: g.edges[m][i].0);
    assert forall n :: Keys(Neighbors(g, n)) <= u by {
      forall n, k | k in Keys(Neighbors(g, n)) ensures k in u {
        var i :| 0 <= i < |Neighbors(g, n)| && Neighbors(g, n)[i].0 == k;
        assert n in g.edges;
      }
    }
    u
  }

  /** In a graph whose neighbours are all declared, a search from a declared node touches only declared nodes. */
  lemma UniverseWithinNodes<N(!new)>(g: Graph<N>, start: N)
    requires start in g.nodes && NeighborsDeclared(g)
    ensures Universe(g, start) <= g.nodes
    ensures |Universe(g, start)| <= |g.nodes|
  {
    forall k | k in Universe(g, start) ensures k in g.nodes {
      if k != start {
        var m, i :| m in g.edges && 0 <= i < |g.edges[m]| && g.edges[m][i].0 == k;
        assert k in Keys(g.edges[m]);
      }
    }
    SubsetCard(Universe(g, start), g.nodes);
  }

  lemma SubsetCard<N(!new)>(a: set<N>, b: set<N>)
    requires a <= b
    ensures |a| <= |b|
  {
    assert b == a + (b - a);
  }

  /**
   * `add_node`: records the heuristic value and (re)sets the node's
   * adjacency dict to empty; every other node keeps its neighbours.
   */
  function AddNode<N(==,!new)>(g: Graph<N>, id: N, h: real): (r: Graph<N>)
    ensures r.nodes == g.nodes + {id}
    ensures Neighbors(r, id) == [] && Heuristic(r, id) == h
    ensures forall n :: n != id ==> Neighbors(r, n) == Neighbors(g, n) && Heuristic(r, n) == Heuristic(g, n)
    ensures Valid(g) ==> Valid(r)
  {
    Graph(g.nodes + {id}, g.edges[id := []], g.heuristics[id := h])
  }

  /**
   * `add_edge`: stores the cost under `b` in `a`'s dict and under `a` in
   * `b`'s dict (creating missing dicts first); no other node's list changes.
   */
  function AddEdge<N(==,!new)>(g: Graph<N>, a: N, b: N, c: real): (r: Graph<N>)
    ensures Neighbors(r, a) == Upsert(Neighbors(g, a), b, c)
    ensures Neighbors(r, b) == Upsert(Neighbors(g, b), a, c)
    ensures forall x :: x != a && x != b ==> Neighbors(r, x) == Neighbors(g, x)
    ensures r.nodes == g.nodes && r.heuristics == g.heuristics
  {
    var g1 := g.(edges := g.edges[a := Upsert(Neighbors(g, a), b, c)]);
    if a == b then
      UpsertTwice(Neighbors(g, a), a, c);
      g1.(edges := g1.edges[b := Upsert(Neighbors(g1, b), a, c)])
    else
      g1.(edges := g1.edges[b := Upsert(Neighbors(g1, b), a, c)])
  }

  /** After `add_edge(a, b, c)` both directions cost `c` and no other ordered pair changes its cost. */
  lemma AddEdgeWeights<N(!new)>(g: Graph<N>, a: N, b: N, c: real)
    ensures Weight(AddEdge(g, a, b, c), a, b) == Some(c) && Weight(AddEdge(g, a, b, c), b, a) == Some(c)
    ensures forall x, y :: !((x == a && y == b) || (x == b && y == a)) ==>
              Weight(AddEdge(g, a, b, c), x, y) == Weight(g, x, y)
  {
  }

  /** `add_edge` keeps every adjacency list a dict. */
  lemma AddEdgeValid<N(!new)>(g: Graph<N>, a: N, b: N, c: real)
    requires Valid(g)
    ensures Valid(AddEdge(g, a, b, c))
  {
    UpsertDistinct(Neighbors(g, a), b, c);
    UpsertDistinct(Neighbors(g, b), a, c);
    var r := AddEdge(g, a, b, c);
    forall n | n in r.edges ensures DistinctKeys(r.edges[n]) {
      assert r.edges[n] == Neighbors(r, n);
      if n != a && n != b {
        assert Neighbors(g, n) == g.edges[n];
      }
    }
  }

  /** `adj[k] = v` never duplicates a key. */
  lemma UpsertDistinct<N(!new)>(adj: Adjacency<N>, k: N, v: real)
    ensures DistinctKeys(adj) ==> DistinctKeys(Upsert(adj, k, v))
  {
    var r := Upsert(adj, k, v);
    if DistinctKeys(adj) && k !in Keys(adj) {
      forall i, j | 0 <= i < j < |r| ensures r[i].0 != r[j].0 {
        if j == |adj| {
          assert r[i] == adj[i];
        } else {
          assert r[i] == adj[i] && r[j] == adj[j];
        }
      }
    }
  }

  /** Storing the same value under the same key twice is storing it once. */
  lemma {:induction false} UpsertTwice<N(!new)>(adj: Adjacency<N>, k: N, v: real)
    ensures Upsert(Upsert(adj, k, v), k, v) == Upsert(adj, k, v)
    decreases |adj|
  {
    if |adj| > 0 && adj[0].0 != k {
      UpsertTwice(adj[1..], k, v);
      var u := Upsert(adj, k, v);
      assert u == [adj[0]] + Upsert(adj[1..], k, v);
      assert u[1..] == Upsert(adj[1..], k, v);
    }
  }

  /** `add_edge` keeps an undirected graph undirected. */
  lemma AddEdgeSymmetric<N(!new)>(g: Graph<N>, a: N, b: N, c: real)
    requires Symmetric(g)
    ensures Symmetric(AddEdge(g, a, b, c))
  {
    var r := AddEdge(g, a, b, c);
    AddEdgeWeights(g, a, b, c);
    assert forall x, y :: Weight(r, x, y) == Weight(r, y, x) by {
      forall x, y ensures Weight(r, x, y) == Weight(r, y, x) {
        assert Weight(g, x, y) == Weight(g, y, x);
      }
    }
  }

  /** `add_node` on a node that no neighbour list mentions yet keeps the graph undirected. */
  lemma AddNodeSymmetric<N(!new)>(g: Graph<N>, id: N, h: real)
    requires Symmetric(g)
    requires forall n :: id !in Keys(Neighbors(g, n))
    ensures Symmetric(AddNode(g, id, h))
  {
    var r := AddNode(g, id, h);
    forall x, y ensures Weight(r, x, y) == Weight(r, y, x) {
      if x != id && y == id {
        assert Weight(r, x, y) == Weight(g, x, y) == None;
        assert Weight(r, y, x) == Lookup([], x) == None;
      } else if x == id && y != id {
        assert Weight(r, y, x) == Weight(g, y, x) == None;
        assert Weight(r, x, y) == Lookup([], y) == None;
      } else if x != id && y != id {
        assert Weight(r, x, y) == Weight(g, x, y);
        assert Weight(r, y, x) == Weight(g, y, x);
      }
    }
  }
}
