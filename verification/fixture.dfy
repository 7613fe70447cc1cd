/**
 * `load_graph` (backend/app.py): the nine-node delivery map the backend
 * serves, built by `add_node` for every node and then `add_edge` for every
 * road, in the order of the source's literals.
 */
module Fixture {
  import opened Graphs
  import opened Paths

  /** `nodes_data`: node id and heuristic value, in dict order; the coordinates are not part of this model. */
  const NodeData: seq<(char, real)> :=
    [('A', 6.1), ('B', 4.0), ('C', 5.4), ('D', 2.2), ('E', 3.2), ('F', 2.2), ('G', 0.0), ('H', 4.5), ('I', 2.2)]

  /** `edges_data`: (from, to, cost), in list order. */
  const EdgeData: seq<(char, char, real)> :=
    [('A', 'B', 2.2),
     ('A', 'H', 2.2),
     ('A', 'C', 3.2),
     ('B', 'C', 2.2),
     ('B', 'E', 1.4),
     ('B', 'H', 2.2),
     ('B', 'D', 2.2),
     ('C', 'E', 2.2),
     ('D', 'E', 2.2),
     ('D', 'I', 2.2),
     ('D', 'G', 2.2),
     ('D', 'H', 2.2),
     ('E', 'F', 2.2),
     ('E', 'I', 1.4),
     ('F', 'I', 1.4),
     ('F', 'G', 2.2),
     ('I', 'G', 2.2)]

  /** The `add_node` loop after its first `k` iterations. */
  function AddNodes<N(==,!new)>(g: Graph<N>, data: seq<(N, real)>, k: nat): (r: Graph<N>)
    requires k <= |data|
    ensures r.nodes == g.nodes + (set i | 0 <= i < k :: data[i].0)
    ensures forall i :: 0 <= i < k ==> Neighbors(r, data[i].0) == []
  {
    if k == 0 then g else AddNode(AddNodes(g, data, k - 1), data[k - 1].0, data[k - 1].1)
  }

  /** The `add_edge` loop after its first `k` iterations; it never touches the node set or the heuristics. */
  function AddEdges<N(==,!new)>(g: Graph<N>, data: seq<(N, N, real)>, k: nat): (r: Graph<N>)
    requires k <= |data|
    ensures r.nodes == g.nodes && r.heuristics == g.heuristics
    ensures Valid(g) ==> Valid(r)
    ensures Symmetric(g) ==> Symmetric(r)
  {
    if k == 0 then g
    else
      var p := AddEdges(g, data, k - 1);
      AddEdgeKeeps(p, data[k - 1].0, data[k - 1].1, data[k - 1].2);
      AddEdge(p, data[k - 1].0, data[k - 1].1, data[k - 1].2)
  }

  /** `add_edge` keeps a graph well formed and undirected. */
  lemma AddEdgeKeeps<N(!new)>(g: Graph<N>, a: N, b: N, c: real)
    ensures Valid(g) ==> Valid(AddEdge(g, a, b, c))
    ensures Symmetric(g) ==> Symmetric(AddEdge(g, a, b, c))
  {
    if Valid(g) {
      AddEdgeValid(g, a, b, c);
    }
    if Symmetric(g) {
      AddEdgeSymmetric(g, a, b, c);
    }
  }

  /** The graph after `load_graph`'s first loop. */
  function Nodes(): Graph<char> {
    AddNodes(Empty(), NodeData, |NodeData|)
  }

  /** `load_graph()`. */
  function LoadGraph(): (r: Graph<char>)
    ensures r.nodes == (set i | 0 <= i < |NodeData| :: NodeData[i].0)
    ensures Valid(r)
  {
    AddNodesValid(Empty(), NodeData, |NodeData|);
    AddEdges(Nodes(), EdgeData, |EdgeData|)
  }

  /** `add_node(id, h)` turned `p` into `q`: what `AddNode` promises, as a relation. */
  ghost predicate NodeAdded(p: Graph<char>, q: Graph<char>, id: char, h: real) {
    && q.nodes == p.nodes + {id}
    && Neighbors(q, id) == [] && Heuristic(q, id) == h
    && forall x :: x != id ==> Neighbors(q, x) == Neighbors(p, x) && Heuristic(q, x) == Heuristic(p, x)
  }

  /** `add_edge(a, b, c)` on a road not stored yet turned `p` into `q`: both lists grow at the end. */
  ghost predicate EdgeAdded(p: Graph<char>, q: Graph<char>, a: char, b: char, c: real) {
    && Neighbors(q, a) == Neighbors(p, a) + [(b, c)]
    && Neighbors(q, b) == Neighbors(p, b) + [(a, c)]
    && forall x :: x != a && x != b ==> Neighbors(q, x) == Neighbors(p, x)
  }

  /** The neighbour list of every fixture node, as `get_neighbors` returns it (insertion order). */
  predicate Lists(g: Graph<char>, a: Adjacency<char>, b: Adjacency<char>, c: Adjacency<char>,
                  d: Adjacency<char>, e: Adjacency<char>, f: Adjacency<char>, gl: Adjacency<char>,
                  h: Adjacency<char>, i: Adjacency<char>) {
    && Neighbors(g, 'A') == a && Neighbors(g, 'B') == b && Neighbors(g, 'C') == c
    && Neighbors(g, 'D') == d && Neighbors(g, 'E') == e && Neighbors(g, 'F') == f
    && Neighbors(g, 'G') == gl && Neighbors(g, 'H') == h && Neighbors(g, 'I') == i
  }

  /** The heuristic value of every fixture node, as `get_heuristic` returns it. */
  predicate Heuristics(g: Graph<char>, a: real, b: real, c: real, d: real, e: real, f: real, gh: real, h: real, i: real) {
    && Heuristic(g, 'A') == a && Heuristic(g, 'B') == b && Heuristic(g, 'C') == c
    && Heuristic(g, 'D') == d && Heuristic(g, 'E') == e && Heuristic(g, 'F') == f
    && Heuristic(g, 'G') == gh && Heuristic(g, 'H') == h && Heuristic(g, 'I') == i
  }

  /** One more iteration of the `add_node` loop. */
  lemma AddNodesStep(g: Graph<char>, data: seq<(char, real)>, k: nat)
    requires k < |data|
    ensures NodeAdded(AddNodes(g, data, k), AddNodes(g, data, k + 1), data[k].0, data[k].1)
  {
  }

  /** One more iteration of the `add_edge` loop, on a road whose ends do not list each other yet. */
  lemma AddEdgesStep(g: Graph<char>, data: seq<(char, char, real)>, k: nat)
    requires k < |data| && data[k].0 != data[k].1
    requires data[k].1 !in Keys(Neighbors(AddEdges(g, data, k), data[k].0))
    requires data[k].0 !in Keys(Neighbors(AddEdges(g, data, k), data[k].1))
    ensures EdgeAdded(AddEdges(g, data, k), AddEdges(g, data, k + 1), data[k].0, data[k].1, data[k].2)
  {
  }

  /** `add_node` alone never fills a neighbour list. */
  lemma {:induction false} AddNodesEmpty<N(!new)>(g: Graph<N>, data: seq<(N, real)>, k: nat)
    requires k <= |data|
    requires forall x :: Neighbors(g, x) == []
    ensures forall x :: Neighbors(AddNodes(g, data, k), x) == []
  {
    if k > 0 {
      AddNodesEmpty(g, data, k - 1);
    }
  }

  // The fixture is unrolled one `add_node` / `add_edge` call per lemma: one induction over the
  // lists makes the solver loop on `AddEdges`' validity and symmetry postconditions.
  lemma Node0(p: Graph<char>, q: Graph<char>)
    requires Heuristics(p, 0.0, 0.0, 0.0, 0.0, 0.0, 0.0, 0.0, 0.0, 0.0) && p.nodes == {}
    requires NodeAdded(p, q, 'A', 6.1)
    ensures Heuristics(q, 6.1, 0.0, 0.0, 0.0, 0.0, 0.0, 0.0, 0.0, 0.0) && q.nodes == {'A'}
  {
  }

  lemma Node1(p: Graph<char>, q: Graph<char>)
    requires Heuristics(p, 6.1, 0.0, 0.0, 0.0, 0.0, 0.0, 0.0, 0.0, 0.0) && p.nodes == {'A'}
    requires NodeAdded(p, q, 'B', 4.0)
    ensures Heuristics(q, 6.1, 4.0, 0.0, 0.0, 0.0, 0.0, 0.0, 0.0, 0.0) && q.nodes == {'A', 'B'}
  {
  }

  lemma Node2(p: Graph<char>, q: Graph<char>)
    requires Heuristics(p, 6.1, 4.0, 0.0, 0.0, 0.0, 0.0, 0.0, 0.0, 0.0) && p.nodes == {'A', 'B'}
    requires NodeAdded(p, q, 'C', 5.4)
    ensures Heuristics(q, 6.1, 4.0, 5.4, 0.0, 0.0, 0.0, 0.0, 0.0, 0.0) && q.nodes == {'A', 'B', 'C'}
  {
  }

  lemma Node3(p: Graph<char>, q: Graph<char>)
    requires Heuristics(p, 6.1, 4.0, 5.4, 0.0, 0.0, 0.0, 0.0, 0.0, 0.0) && p.nodes == {'A', 'B', 'C'}
    requires NodeAdded(p, q, 'D', 2.2)
    ensures Heuristics(q, 6.1, 4.0, 5.4, 2.2, 0.0, 0.0, 0.0, 0.0, 0.0) && q.nodes == {'A', 'B', 'C', 'D'}
  {
  }

  lemma Node4(p: Graph<char>, q: Graph<char>)
    requires Heuristics(p, 6.1, 4.0, 5.4, 2.2, 0.0, 0.0, 0.0, 0.0, 0.0) && p.nodes == {'A', 'B', 'C', 'D'}
    requires NodeAdded(p, q, 'E', 3.2)
    ensures Heuristics(q, 6.1, 4.0, 5.4, 2.2, 3.2, 0.0, 0.0, 0.0, 0.0) && q.nodes == {'A', 'B', 'C', 'D', 'E'}
  {
  }

  lemma Node5(p: Graph<char>, q: Graph<char>)
    requires Heuristics(p, 6.1, 4.0, 5.4, 2.2, 3.2, 0.0, 0.0, 0.0, 0.0) && p.nodes == {'A', 'B', 'C', 'D', 'E'}
    requires NodeAdded(p, q, 'F', 2.2)
    ensures Heuristics(q, 6.1, 4.0, 5.4, 2.2, 3.2, 2.2, 0.0, 0.0, 0.0) && q.nodes == {'A', 'B', 'C', 'D', 'E', 'F'}
  {
  }

  lemma Node6(p: Graph<char>, q: Graph<char>)
    requires Heuristics(p, 6.1, 4.0, 5.4, 2.2, 3.2, 2.2, 0.0, 0.0, 0.0) && p.nodes == {'A', 'B', 'C', 'D', 'E', 'F'}
    requires NodeAdded(p, q, 'G', 0.0)
    ensures Heuristics(q, 6.1, 4.0, 5.4, 2.2, 3.2, 2.2, 0.0, 0.0, 0.0) && q.nodes == {'A', 'B', 'C', 'D', 'E', 'F', 'G'}
  {
  }

  lemma Node7(p: Graph<char>, q: Graph<char>)
    requires Heuristics(p, 6.1, 4.0, 5.4, 2.2, 3.2, 2.2, 0.0, 0.0, 0.0) && p.nodes == {'A', 'B', 'C', 'D', 'E', 'F', 'G'}
    requires NodeAdded(p, q, 'H', 4.5)
    ensures Heuristics(q, 6.1, 4.0, 5.4, 2.2, 3.2, 2.2, 0.0, 4.5, 0.0) && q.nodes == {'A', 'B', 'C', 'D', 'E', 'F', 'G', 'H'}
  {
  }

  lemma Node8(p: Graph<char>, q: Graph<char>)
    requires Heuristics(p, 6.1, 4.0, 5.4, 2.2, 3.2, 2.2, 0.0, 4.5, 0.0) && p.nodes == {'A', 'B', 'C', 'D', 'E', 'F', 'G', 'H'}
    requires NodeAdded(p, q, 'I', 2.2)
    ensures Heuristics(q, 6.1, 4.0, 5.4, 2.2, 3.2, 2.2, 0.0, 4.5, 2.2) && q.nodes == {'A', 'B', 'C', 'D', 'E', 'F', 'G', 'H', 'I'}
  {
  }

  lemma Nodes0(data: seq<(char, real)>)
    requires data == NodeData
    ensures var g := AddNodes(Empty(), data, 1);
      Heuristics(g, 6.1, 0.0, 0.0, 0.0, 0.0, 0.0, 0.0, 0.0, 0.0) && g.nodes == {'A'}
  {
    assert data[0] == ('A', 6.1);
    AddNodesStep(Empty(), data, 0);
    Node0(AddNodes(Empty(), data, 0), AddNodes(Empty(), data, 1));
  }

  lemma Nodes1(data: seq<(char, real)>)
    requires data == NodeData
    ensures var g := AddNodes(Empty(), data, 2);
      Heuristics(g, 6.1, 4.0, 0.0, 0.0, 0.0, 0.0, 0.0, 0.0, 0.0) && g.nodes == {'A', 'B'}
  {
    assert data[1] == ('B', 4.0);
    Nodes0(data);
    AddNodesStep(Empty(), data, 1);
    Node1(AddNodes(Empty(), data, 1), AddNodes(Empty(), data, 2));
  }

  lemma Nodes2(data: seq<(char, real)>)
    requires data == NodeData
    ensures var g := AddNodes(Empty(), data, 3);
      Heuristics(g, 6.1, 4.0, 5.4, 0.0, 0.0, 0.0, 0.0, 0.0, 0.0) && g.nodes == {'A', 'B', 'C'}
  {
    assert data[2] == ('C', 5.4);
    Nodes1(data);
    AddNodesStep(Empty(), data, 2);
    Node2(AddNodes(Empty(), data, 2), AddNodes(Empty(), data, 3));
  }

  lemma Nodes3(data: seq<(char, real)>)
    requires data == NodeData
    ensures var g := AddNodes(Empty(), data, 4);
      Heuristics(g, 6.1, 4.0, 5.4, 2.2, 0.0, 0.0, 0.0, 0.0, 0.0) && g.nodes == {'A', 'B', 'C', 'D'}
  {
    assert data[3] == ('D', 2.2);
    Nodes2(data);
    AddNodesStep(Empty(), data, 3);
    Node3(AddNodes(Empty(), data, 3), AddNodes(Empty(), data, 4));
  }

  lemma Nodes4(data: seq<(char, real)>)
    requires data == NodeData
    ensures var g := AddNodes(Empty(), data, 5);
      Heuristics(g, 6.1, 4.0, 5.4, 2.2, 3.2, 0.0, 0.0, 0.0, 0.0) && g.nodes == {'A', 'B', 'C', 'D', 'E'}
  {
    assert data[4] == ('E', 3.2);
    Nodes3(data);
    AddNodesStep(Empty(), data, 4);
    Node4(AddNodes(Empty(), data, 4), AddNodes(Empty(), data, 5));
  }

  lemma Nodes5(data: seq<(char, real)>)
    requires data == NodeData
    ensures var g := AddNodes(Empty(), data, 6);
      Heuristics(g, 6.1, 4.0, 5.4, 2.2, 3.2, 2.2, 0.0, 0.0, 0.0) && g.nodes == {'A', 'B', 'C', 'D', 'E', 'F'}
  {
    assert data[5] == ('F', 2.2);
    Nodes4(data);
    AddNodesStep(Empty(), data, 5);
    Node5(AddNodes(Empty(), data, 5), AddNodes(Empty(), data, 6));
  }

  lemma Nodes6(data: seq<(char, real)>)
    requires data == NodeData
    ensures var g := AddNodes(Empty(), data, 7);
      Heuristics(g, 6.1, 4.0, 5.4, 2.2, 3.2, 2.2, 0.0, 0.0, 0.0) && g.nodes == {'A', 'B', 'C', 'D', 'E', 'F', 'G'}
  {
    assert data[6] == ('G', 0.0);
    Nodes5(data);
    AddNodesStep(Empty(), data, 6);
    Node6(AddNodes(Empty(), data, 6), AddNodes(Empty(), data, 7));
  }

  lemma Nodes7(data: seq<(char, real)>)
    requires data == NodeData
    ensures var g := AddNodes(Empty(), data, 8);
      Heuristics(g, 6.1, 4.0, 5.4, 2.2, 3.2, 2.2, 0.0, 4.5, 0.0) && g.nodes == {'A', 'B', 'C', 'D', 'E', 'F', 'G', 'H'}
  {
    assert data[7] == ('H', 4.5);
    Nodes6(data);
    AddNodesStep(Empty(), data, 7);
    Node7(AddNodes(Empty(), data, 7), AddNodes(Empty(), data, 8));
  }

  lemma Nodes8(data: seq<(char, real)>)
    requires data == NodeData
    ensures var g := AddNodes(Empty(), data, 9);
      Heuristics(g, 6.1, 4.0, 5.4, 2.2, 3.2, 2.2, 0.0, 4.5, 2.2) && g.nodes == {'A', 'B', 'C', 'D', 'E', 'F', 'G', 'H', 'I'}
  {
    assert data[8] == ('I', 2.2);
    Nodes7(data);
    AddNodesStep(Empty(), data, 8);
    Node8(AddNodes(Empty(), data, 8), AddNodes(Empty(), data, 9));
  }

  lemma Road0(p: Graph<char>, q: Graph<char>)
    requires Lists(p, [], [], [], [], [], [], [], [], [])
    ensures 'B' !in Keys(Neighbors(p, 'A')) && 'A' !in Keys(Neighbors(p, 'B'))
    ensures EdgeAdded(p, q, 'A', 'B', 2.2) ==> Lists(q, [('B', 2.2)], [('A', 2.2)], [], [], [], [], [], [], [])
  {
    assert 'B' !in Keys([]) && 'A' !in Keys([]);
  }

  lemma Road1(p: Graph<char>, q: Graph<char>)
    requires Lists(p, [('B', 2.2)], [('A', 2.2)], [], [], [], [], [], [], [])
    ensures 'H' !in Keys(Neighbors(p, 'A')) && 'A' !in Keys(Neighbors(p, 'H'))
    ensures EdgeAdded(p, q, 'A', 'H', 2.2) ==> Lists(q, [('B', 2.2), ('H', 2.2)], [('A', 2.2)], [], [], [], [], [], [('A', 2.2)], [])
  {
    assert 'H' !in Keys([('B', 2.2)]) && 'A' !in Keys([]);
  }

  lemma Road2(p: Graph<char>, q: Graph<char>)
    requires Lists(p, [('B', 2.2), ('H', 2.2)], [('A', 2.2)], [], [], [], [], [], [('A', 2.2)], [])
    ensures 'C' !in Keys(Neighbors(p, 'A')) && 'A' !in Keys(Neighbors(p, 'C'))
    ensures EdgeAdded(p, q, 'A', 'C', 3.2) ==> Lists(q, [('B', 2.2), ('H', 2.2), ('C', 3.2)], [('A', 2.2)], [('A', 3.2)], [], [], [], [], [('A', 2.2)], [])
  {
    assert 'C' !in Keys([('B', 2.2), ('H', 2.2)]) && 'A' !in Keys([]);
  }

  lemma Road3(p: Graph<char>, q: Graph<char>)
    requires Lists(p, [('B', 2.2), ('H', 2.2), ('C', 3.2)], [('A', 2.2)], [('A', 3.2)], [], [], [], [], [('A', 2.2)], [])
    ensures 'C' !in Keys(Neighbors(p, 'B')) && 'B' !in Keys(Neighbors(p, 'C'))
    ensures EdgeAdded(p, q, 'B', 'C', 2.2) ==> Lists(q, [('B', 2.2), ('H', 2.2), ('C', 3.2)], [('A', 2.2), ('C', 2.2)], [('A', 3.2), ('B', 2.2)], [], [], [], [], [('A', 2.2)], [])
  {
    assert 'C' !in Keys([('A', 2.2)]) && 'B' !in Keys([('A', 3.2)]);
  }

  lemma Road4(p: Graph<char>, q: Graph<char>)
    requires Lists(p, [('B', 2.2), ('H', 2.2), ('C', 3.2)], [('A', 2.2), ('C', 2.2)], [('A', 3.2), ('B', 2.2)], [], [], [], [], [('A', 2.2)], [])
    ensures 'E' !in Keys(Neighbors(p, 'B')) && 'B' !in Keys(Neighbors(p, 'E'))
    ensures EdgeAdded(p, q, 'B', 'E', 1.4) ==> Lists(q, [('B', 2.2), ('H', 2.2), ('C', 3.2)], [('A', 2.2), ('C', 2.2), ('E', 1.4)], [('A', 3.2), ('B', 2.2)], [], [('B', 1.4)], [], [], [('A', 2.2)], [])
  {
    assert 'E' !in Keys([('A', 2.2), ('C', 2.2)]) && 'B' !in Keys([]);
  }

  lemma Road5(p: Graph<char>, q: Graph<char>)
    requires Lists(p, [('B', 2.2), ('H', 2.2), ('C', 3.2)], [('A', 2.2), ('C', 2.2), ('E', 1.4)], [('A', 3.2), ('B', 2.2)], [], [('B', 1.4)], [], [], [('A', 2.2)], [])
    ensures 'H' !in Keys(Neighbors(p, 'B')) && 'B' !in Keys(Neighbors(p, 'H'))
    ensures EdgeAdded(p, q, 'B', 'H', 2.2) ==> Lists(q, [('B', 2.2), ('H', 2.2), ('C', 3.2)], [('A', 2.2), ('C', 2.2), ('E', 1.4), ('H', 2.2)], [('A', 3.2), ('B', 2.2)], [], [('B', 1.4)], [], [], [('A', 2.2), ('B', 2.2)], [])
  {
    assert 'H' !in Keys([('A', 2.2), ('C', 2.2), ('E', 1.4)]) && 'B' !in Keys([('A', 2.2)]);
  }

  lemma Road6(p: Graph<char>, q: Graph<char>)
    requires Lists(p, [('B', 2.2), ('H', 2.2), ('C', 3.2)], [('A', 2.2), ('C', 2.2), ('E', 1.4), ('H', 2.2)], [('A', 3.2), ('B', 2.2)], [], [('B', 1.4)], [], [], [('A', 2.2), ('B', 2.2)], [])
    ensures 'D' !in Keys(Neighbors(p, 'B')) && 'B' !in Keys(Neighbors(p, 'D'))
    ensures EdgeAdded(p, q, 'B', 'D', 2.2) ==> Lists(q, [('B', 2.2), ('H', 2.2), ('C', 3.2)], [('A', 2.2), ('C', 2.2), ('E', 1.4), ('H', 2.2), ('D', 2.2)], [('A', 3.2), ('B', 2.2)], [('B', 2.2)], [('B', 1.4)], [], [], [('A', 2.2), ('B', 2.2)], [])
  {
    assert 'D' !in Keys([('A', 2.2), ('C', 2.2), ('E', 1.4), ('H', 2.2)]) && 'B' !in Keys([]);
  }

  lemma Road7(p: Graph<char>, q: Graph<char>)
    requires Lists(p, [('B', 2.2), ('H', 2.2), ('C', 3.2)], [('A', 2.2), ('C', 2.2), ('E', 1.4), ('H', 2.2), ('D', 2.2)], [('A', 3.2), ('B', 2.2)], [('B', 2.2)], [('B', 1.4)], [], [], [('A', 2.2), ('B', 2.2)], [])
    ensures 'E' !in Keys(Neighbors(p, 'C')) && 'C' !in Keys(Neighbors(p, 'E'))
    ensures EdgeAdded(p, q, 'C', 'E', 2.2) ==> Lists(q, [('B', 2.2), ('H', 2.2), ('C', 3.2)], [('A', 2.2), ('C', 2.2), ('E', 1.4), ('H', 2.2), ('D', 2.2)], [('A', 3.2), ('B', 2.2), ('E', 2.2)], [('B', 2.2)], [('B', 1.4), ('C', 2.2)], [], [], [('A', 2.2), ('B', 2.2)], [])
  {
    assert 'E' !in Keys([('A', 3.2), ('B', 2.2)]) && 'C' !in Keys([('B', 1.4)]);
  }

  lemma Road8(p: Graph<char>, q: Graph<char>)
    requires Lists(p, [('B', 2.2), ('H', 2.2), ('C', 3.2)], [('A', 2.2), ('C', 2.2), ('E', 1.4), ('H', 2.2), ('D', 2.2)], [('A', 3.2), ('B', 2.2), ('E', 2.2)], [('B', 2.2)], [('B', 1.4), ('C', 2.2)], [], [], [('A', 2.2), ('B', 2.2)], [])
    ensures 'E' !in Keys(Neighbors(p, 'D')) && 'D' !in Keys(Neighbors(p, 'E'))
    ensures EdgeAdded(p, q, 'D', 'E', 2.2) ==> Lists(q, [('B', 2.2), ('H', 2.2), ('C', 3.2)], [('A', 2.2), ('C', 2.2), ('E', 1.4), ('H', 2.2), ('D', 2.2)], [('A', 3.2), ('B', 2.2), ('E', 2.2)], [('B', 2.2), ('E', 2.2)], [('B', 1.4), ('C', 2.2), ('D', 2.2)], [], [], [('A', 2.2), ('B', 2.2)], [])
  {
    assert 'E' !in Keys([('B', 2.2)]) && 'D' !in Keys([('B', 1.4), ('C', 2.2)]);
  }

  lemma Road9(p: Graph<char>, q: Graph<char>)
    requires Lists(p, [('B', 2.2), ('H', 2.2), ('C', 3.2)], [('A', 2.2), ('C', 2.2), ('E', 1.4), ('H', 2.2), ('D', 2.2)], [('A', 3.2), ('B', 2.2), ('E', 2.2)], [('B', 2.2), ('E', 2.2)], [('B', 1.4), ('C', 2.2), ('D', 2.2)], [], [], [('A', 2.2), ('B', 2.2)], [])
    ensures 'I' !in Keys(Neighbors(p, 'D')) && 'D' !in Keys(Neighbors(p, 'I'))
    ensures EdgeAdded(p, q, 'D', 'I', 2.2) ==> Lists(q, [('B', 2.2), ('H', 2.2), ('C', 3.2)], [('A', 2.2), ('C', 2.2), ('E', 1.4), ('H', 2.2), ('D', 2.2)], [('A', 3.2), ('B', 2.2), ('E', 2.2)], [('B', 2.2), ('E', 2.2), ('I', 2.2)], [('B', 1.4), ('C', 2.2), ('D', 2.2)], [], [], [('A', 2.2), ('B', 2.2)], [('D', 2.2)])
  {
    assert 'I' !in Keys([('B', 2.2), ('E', 2.2)]) && 'D' !in Keys([]);
  }

  lemma Road10(p: Graph<char>, q: Graph<char>)
    requires Lists(p, [('B', 2.2), ('H', 2.2), ('C', 3.2)], [('A', 2.2), ('C', 2.2), ('E', 1.4), ('H', 2.2), ('D', 2.2)], [('A', 3.2), ('B', 2.2), ('E', 2.2)], [('B', 2.2), ('E', 2.2), ('I', 2.2)], [('B', 1.4), ('C', 2.2), ('D', 2.2)], [], [], [('A', 2.2), ('B', 2.2)], [('D', 2.2)])
    ensures 'G' !in Keys(Neighbors(p, 'D')) && 'D' !in Keys(Neighbors(p, 'G'))
    ensures EdgeAdded(p, q, 'D', 'G', 2.2) ==> Lists(q, [('B', 2.2), ('H', 2.2), ('C', 3.2)], [('A', 2.2), ('C', 2.2), ('E', 1.4), ('H', 2.2), ('D', 2.2)], [('A', 3.2), ('B', 2.2), ('E', 2.2)], [('B', 2.2), ('E', 2.2), ('I', 2.2), ('G', 2.2)], [('B', 1.4), ('C', 2.2), ('D', 2.2)], [], [('D', 2.2)], [('A', 2.2), ('B', 2.2)], [('D', 2.2)])
  {
    assert 'G' !in Keys([('B', 2.2), ('E', 2.2), ('I', 2.2)]) && 'D' !in Keys([]);
  }

  lemma Road11(p: Graph<char>, q: Graph<char>)
    requires Lists(p, [('B', 2.2), ('H', 2.2), ('C', 3.2)], [('A', 2.2), ('C', 2.2), ('E', 1.4), ('H', 2.2), ('D', 2.2)], [('A', 3.2), ('B', 2.2), ('E', 2.2)], [('B', 2.2), ('E', 2.2), ('I', 2.2), ('G', 2.2)], [('B', 1.4), ('C', 2.2), ('D', 2.2)], [], [('D', 2.2)], [('A', 2.2), ('B', 2.2)], [('D', 2.2)])
    ensures 'H' !in Keys(Neighbors(p, 'D')) && 'D' !in Keys(Neighbors(p, 'H'))
    ensures EdgeAdded(p, q, 'D', 'H', 2.2) ==> Lists(q, [('B', 2.2), ('H', 2.2), ('C', 3.2)], [('A', 2.2), ('C', 2.2), ('E', 1.4), ('H', 2.2), ('D', 2.2)], [('A', 3.2), ('B', 2.2), ('E', 2.2)], [('B', 2.2), ('E', 2.2), ('I', 2.2), ('G', 2.2), ('H', 2.2)], [('B', 1.4), ('C', 2.2), ('D', 2.2)], [], [('D', 2.2)], [('A', 2.2), ('B', 2.2), ('D', 2.2)], [('D', 2.2)])
  {
    assert 'H' !in Keys([('B', 2.2), ('E', 2.2), ('I', 2.2), ('G', 2.2)]) && 'D' !in Keys([('A', 2.2), ('B', 2.2)]);
  }

  lemma Road12(p: Graph<char>, q: Graph<char>)
    requires Lists(p, [('B', 2.2), ('H', 2.2), ('C', 3.2)], [('A', 2.2), ('C', 2.2), ('E', 1.4), ('H', 2.2), ('D', 2.2)], [('A', 3.2), ('B', 2.2), ('E', 2.2)], [('B', 2.2), ('E', 2.2), ('I', 2.2), ('G', 2.2), ('H', 2.2)], [('B', 1.4), ('C', 2.2), ('D', 2.2)], [], [('D', 2.2)], [('A', 2.2), ('B', 2.2), ('D', 2.2)], [('D', 2.2)])
    ensures 'F' !in Keys(Neighbors(p, 'E')) && 'E' !in Keys(Neighbors(p, 'F'))
    ensures EdgeAdded(p, q, 'E', 'F', 2.2) ==> Lists(q, [('B', 2.2), ('H', 2.2), ('C', 3.2)], [('A', 2.2), ('C', 2.2), ('E', 1.4), ('H', 2.2), ('D', 2.2)], [('A', 3.2), ('B', 2.2), ('E', 2.2)], [('B', 2.2), ('E', 2.2), ('I', 2.2), ('G', 2.2), ('H', 2.2)], [('B', 1.4), ('C', 2.2), ('D', 2.2), ('F', 2.2)], [('E', 2.2)], [('D', 2.2)], [('A', 2.2), ('B', 2.2), ('D', 2.2)], [('D', 2.2)])
  {
    assert 'F' !in Keys([('B', 1.4), ('C', 2.2), ('D', 2.2)]) && 'E' !in Keys([]);
  }

  lemma Road13(p: Graph<char>, q: Graph<char>)
    requires Lists(p, [('B', 2.2), ('H', 2.2), ('C', 3.2)], [('A', 2.2), ('C', 2.2), ('E', 1.4), ('H', 2.2), ('D', 2.2)], [('A', 3.2), ('B', 2.2), ('E', 2.2)], [('B', 2.2), ('E', 2.2), ('I', 2.2), ('G', 2.2), ('H', 2.2)], [('B', 1.4), ('C', 2.2), ('D', 2.2), ('F', 2.2)], [('E', 2.2)], [('D', 2.2)], [('A', 2.2), ('B', 2.2), ('D', 2.2)], [('D', 2.2)])
    ensures 'I' !in Keys(Neighbors(p, 'E')) && 'E' !in Keys(Neighbors(p, 'I'))
    ensures EdgeAdded(p, q, 'E', 'I', 1.4) ==> Lists(q, [('B', 2.2), ('H', 2.2), ('C', 3.2)], [('A', 2.2), ('C', 2.2), ('E', 1.4), ('H', 2.2), ('D', 2.2)], [('A', 3.2), ('B', 2.2), ('E', 2.2)], [('B', 2.2), ('E', 2.2), ('I', 2.2), ('G', 2.2), ('H', 2.2)], [('B', 1.4), ('C', 2.2), ('D', 2.2), ('F', 2.2), ('I', 1.4)], [('E', 2.2)], [('D', 2.2)], [('A', 2.2), ('B', 2.2), ('D', 2.2)], [('D', 2.2), ('E', 1.4)])
  {
    assert 'I' !in Keys([('B', 1.4), ('C', 2.2), ('D', 2.2), ('F', 2.2)]) && 'E' !in Keys([('D', 2.2)]);
  }

  lemma Road14(p: Graph<char>, q: Graph<char>)
    requires Lists(p, [('B', 2.2), ('H', 2.2), ('C', 3.2)], [('A', 2.2), ('C', 2.2), ('E', 1.4), ('H', 2.2), ('D', 2.2)], [('A', 3.2), ('B', 2.2), ('E', 2.2)], [('B', 2.2), ('E', 2.2), ('I', 2.2), ('G', 2.2), ('H', 2.2)], [('B', 1.4), ('C', 2.2), ('D', 2.2), ('F', 2.2), ('I', 1.4)], [('E', 2.2)], [('D', 2.2)], [('A', 2.2), ('B', 2.2), ('D', 2.2)], [('D', 2.2), ('E', 1.4)])
    ensures 'I' !in Keys(Neighbors(p, 'F')) && 'F' !in Keys(Neighbors(p, 'I'))
    ensures EdgeAdded(p, q, 'F', 'I', 1.4) ==> Lists(q, [('B', 2.2), ('H', 2.2), ('C', 3.2)], [('A', 2.2), ('C', 2.2), ('E', 1.4), ('H', 2.2), ('D', 2.2)], [('A', 3.2), ('B', 2.2), ('E', 2.2)], [('B', 2.2), ('E', 2.2), ('I', 2.2), ('G', 2.2), ('H', 2.2)], [('B', 1.4), ('C', 2.2), ('D', 2.2), ('F', 2.2), ('I', 1.4)], [('E', 2.2), ('I', 1.4)], [('D', 2.2)], [('A', 2.2), ('B', 2.2), ('D', 2.2)], [('D', 2.2), ('E', 1.4), ('F', 1.4)])
  {
    assert 'I' !in Keys([('E', 2.2)]) && 'F' !in Keys([('D', 2.2), ('E', 1.4)]);
  }

  lemma Road15(p: Graph<char>, q: Graph<char>)
    requires Lists(p, [('B', 2.2), ('H', 2.2), ('C', 3.2)], [('A', 2.2), ('C', 2.2), ('E', 1.4), ('H', 2.2), ('D', 2.2)], [('A', 3.2), ('B', 2.2), ('E', 2.2)], [('B', 2.2), ('E', 2.2), ('I', 2.2), ('G', 2.2), ('H', 2.2)], [('B', 1.4), ('C', 2.2), ('D', 2.2), ('F', 2.2), ('I', 1.4)], [('E', 2.2), ('I', 1.4)], [('D', 2.2)], [('A', 2.2), ('B', 2.2), ('D', 2.2)], [('D', 2.2), ('E', 1.4), ('F', 1.4)])
    ensures 'G' !in Keys(Neighbors(p, 'F')) && 'F' !in Keys(Neighbors(p, 'G'))
    ensures EdgeAdded(p, q, 'F', 'G', 2.2) ==> Lists(q, [('B', 2.2), ('H', 2.2), ('C', 3.2)], [('A', 2.2), ('C', 2.2), ('E', 1.4), ('H', 2.2), ('D', 2.2)], [('A', 3.2), ('B', 2.2), ('E', 2.2)], [('B', 2.2), ('E', 2.2), ('I', 2.2), ('G', 2.2), ('H', 2.2)], [('B', 1.4), ('C', 2.2), ('D', 2.2), ('F', 2.2), ('I', 1.4)], [('E', 2.2), ('I', 1.4), ('G', 2.2)], [('D', 2.2), ('F', 2.2)], [('A', 2.2), ('B', 2.2), ('D', 2.2)], [('D', 2.2), ('E', 1.4), ('F', 1.4)])
  {
    assert 'G' !in Keys([('E', 2.2), ('I', 1.4)]) && 'F' !in Keys([('D', 2.2)]);
  }

  lemma Road16(p: Graph<char>, q: Graph<char>)
    requires Lists(p, [('B', 2.2), ('H', 2.2), ('C', 3.2)], [('A', 2.2), ('C', 2.2), ('E', 1.4), ('H', 2.2), ('D', 2.2)], [('A', 3.2), ('B', 2.2), ('E', 2.2)], [('B', 2.2), ('E', 2.2), ('I', 2.2), ('G', 2.2), ('H', 2.2)], [('B', 1.4), ('C', 2.2), ('D', 2.2), ('F', 2.2), ('I', 1.4)], [('E', 2.2), ('I', 1.4), ('G', 2.2)], [('D', 2.2), ('F', 2.2)], [('A', 2.2), ('B', 2.2), ('D', 2.2)], [('D', 2.2), ('E', 1.4), ('F', 1.4)])
    ensures 'G' !in Keys(Neighbors(p, 'I')) && 'I' !in Keys(Neighbors(p, 'G'))
    ensures EdgeAdded(p, q, 'I', 'G', 2.2) ==> Lists(q, [('B', 2.2), ('H', 2.2), ('C', 3.2)], [('A', 2.2), ('C', 2.2), ('E', 1.4), ('H', 2.2), ('D', 2.2)], [('A', 3.2), ('B', 2.2), ('E', 2.2)], [('B', 2.2), ('E', 2.2), ('I', 2.2), ('G', 2.2), ('H', 2.2)], [('B', 1.4), ('C', 2.2), ('D', 2.2), ('F', 2.2), ('I', 1.4)], [('E', 2.2), ('I', 1.4), ('G', 2.2)], [('D', 2.2), ('F', 2.2), ('I', 2.2)], [('A', 2.2), ('B', 2.2), ('D', 2.2)], [('D', 2.2), ('E', 1.4), ('F', 1.4), ('G', 2.2)])
  {
    assert 'G' !in Keys([('D', 2.2), ('E', 1.4), ('F', 1.4)]) && 'I' !in Keys([('D', 2.2), ('F', 2.2)]);
  }

  lemma Roads0(g: Graph<char>, data: seq<(char, char, real)>)
    requires data == EdgeData && Lists(g, [], [], [], [], [], [], [], [], [])
    ensures Lists(AddEdges(g, data, 1), [('B', 2.2)], [('A', 2.2)], [], [], [], [], [], [], [])
  {
    assert data[0] == ('A', 'B', 2.2);
    var p, q := AddEdges(g, data, 0), AddEdges(g, data, 1);
    Road0(p, q);
    AddEdgesStep(g, data, 0);
  }

  lemma Roads1(g: Graph<char>, data: seq<(char, char, real)>)
    requires data == EdgeData && Lists(g, [], [], [], [], [], [], [], [], [])
    ensures Lists(AddEdges(g, data, 2), [('B', 2.2), ('H', 2.2)], [('A', 2.2)], [], [], [], [], [], [('A', 2.2)], [])
  {
    assert data[1] == ('A', 'H', 2.2);
    Roads0(g, data);
    var p, q := AddEdges(g, data, 1), AddEdges(g, data, 2);
    Road1(p, q);
    AddEdgesStep(g, data, 1);
  }

  lemma Roads2(g: Graph<char>, data: seq<(char, char, real)>)
    requires data == EdgeData && Lists(g, [], [], [], [], [], [], [], [], [])
    ensures Lists(AddEdges(g, data, 3), [('B', 2.2), ('H', 2.2), ('C', 3.2)], [('A', 2.2)], [('A', 3.2)], [], [], [], [], [('A', 2.2)], [])
  {
    assert data[2] == ('A', 'C', 3.2);
    Roads1(g, data);
    var p, q := AddEdges(g, data, 2), AddEdges(g, data, 3);
    Road2(p, q);
    AddEdgesStep(g, data, 2);
  }

  lemma Roads3(g: Graph<char>, data: seq<(char, char, real)>)
    requires data == EdgeData && Lists(g, [], [], [], [], [], [], [], [], [])
    ensures Lists(AddEdges(g, data, 4), [('B', 2.2), ('H', 2.2), ('C', 3.2)], [('A', 2.2), ('C', 2.2)], [('A', 3.2), ('B', 2.2)], [], [], [], [], [('A', 2.2)], [])
  {
    assert data[3] == ('B', 'C', 2.2);
    Roads2(g, data);
    var p, q := AddEdges(g, data, 3), AddEdges(g, data, 4);
    Road3(p, q);
    AddEdgesStep(g, data, 3);
  }

  lemma Roads4(g: Graph<char>, data: seq<(char, char, real)>)
    requires data == EdgeData && Lists(g, [], [], [], [], [], [], [], [], [])
    ensures Lists(AddEdges(g, data, 5), [('B', 2.2), ('H', 2.2), ('C', 3.2)], [('A', 2.2), ('C', 2.2), ('E', 1.4)], [('A', 3.2), ('B', 2.2)], [], [('B', 1.4)], [], [], [('A', 2.2)], [])
  {
    assert data[4] == ('B', 'E', 1.4);
    Roads3(g, data);
    var p, q := AddEdges(g, data, 4), AddEdges(g, data, 5);
    Road4(p, q);
    AddEdgesStep(g, data, 4);
  }

  lemma Roads5(g: Graph<char>, data: seq<(char, char, real)>)
    requires data == EdgeData && Lists(g, [], [], [], [], [], [], [], [], [])
    ensures Lists(AddEdges(g, data, 6), [('B', 2.2), ('H', 2.2), ('C', 3.2)], [('A', 2.2), ('C', 2.2), ('E', 1.4), ('H', 2.2)], [('A', 3.2), ('B', 2.2)], [], [('B', 1.4)], [], [], [('A', 2.2), ('B', 2.2)], [])
  {
    assert data[5] == ('B', 'H', 2.2);
    Roads4(g, data);
    var p, q := AddEdges(g, data, 5), AddEdges(g, data, 6);
    Road5(p, q);
    AddEdgesStep(g, data, 5);
  }

  lemma Roads6(g: Graph<char>, data: seq<(char, char, real)>)
    requires data == EdgeData && Lists(g, [], [], [], [], [], [], [], [], [])
    ensures Lists(AddEdges(g, data, 7), [('B', 2.2), ('H', 2.2), ('C', 3.2)], [('A', 2.2), ('C', 2.2), ('E', 1.4), ('H', 2.2), ('D', 2.2)], [('A', 3.2), ('B', 2.2)], [('B', 2.2)], [('B', 1.4)], [], [], [('A', 2.2), ('B', 2.2)], [])
  {
    assert data[6] == ('B', 'D', 2.2);
    Roads5(g, data);
    var p, q := AddEdges(g, data, 6), AddEdges(g, data, 7);
    Road6(p, q);
    AddEdgesStep(g, data, 6);
  }

  lemma Roads7(g: Graph<char>, data: seq<(char, char, real)>)
    requires data == EdgeData && Lists(g, [], [], [], [], [], [], [], [], [])
    ensures Lists(AddEdges(g, data, 8), [('B', 2.2), ('H', 2.2), ('C', 3.2)], [('A', 2.2), ('C', 2.2), ('E', 1.4), ('H', 2.2), ('D', 2.2)], [('A', 3.2), ('B', 2.2), ('E', 2.2)], [('B', 2.2)], [('B', 1.4), ('C', 2.2)], [], [], [('A', 2.2), ('B', 2.2)], [])
  {
    assert data[7] == ('C', 'E', 2.2);
    Roads6(g, data);
    var p, q := AddEdges(g, data, 7), AddEdges(g, data, 8);
    Road7(p, q);
    AddEdgesStep(g, data, 7);
  }

  lemma Roads8(g: Graph<char>, data: seq<(char, char, real)>)
    requires data == EdgeData && Lists(g, [], [], [], [], [], [], [], [], [])
    ensures Lists(AddEdges(g, data, 9), [('B', 2.2), ('H', 2.2), ('C', 3.2)], [('A', 2.2), ('C', 2.2), ('E', 1.4), ('H', 2.2), ('D', 2.2)], [('A', 3.2), ('B', 2.2), ('E', 2.2)], [('B', 2.2), ('E', 2.2)], [('B', 1.4), ('C', 2.2), ('D', 2.2)], [], [], [('A', 2.2), ('B', 2.2)], [])
  {
    assert data[8] == ('D', 'E', 2.2);
    Roads7(g, data);
    var p, q := AddEdges(g, data, 8), AddEdges(g, data, 9);
    Road8(p, q);
    AddEdgesStep(g, data, 8);
  }

  lemma Roads9(g: Graph<char>, data: seq<(char, char, real)>)
    requires data == EdgeData && Lists(g, [], [], [], [], [], [], [], [], [])
    ensures Lists(AddEdges(g, data, 10), [('B', 2.2), ('H', 2.2), ('C', 3.2)], [('A', 2.2), ('C', 2.2), ('E', 1.4), ('H', 2.2), ('D', 2.2)], [('A', 3.2), ('B', 2.2), ('E', 2.2)], [('B', 2.2), ('E', 2.2), ('I', 2.2)], [('B', 1.4), ('C', 2.2), ('D', 2.2)], [], [], [('A', 2.2), ('B', 2.2)], [('D', 2.2)])
  {
    assert data[9] == ('D', 'I', 2.2);
    Roads8(g, data);
    var p, q := AddEdges(g, data, 9), AddEdges(g, data, 10);
    Road9(p, q);
    AddEdgesStep(g, data, 9);
  }

  lemma Roads10(g: Graph<char>, data: seq<(char, char, real)>)
    requires data == EdgeData && Lists(g, [], [], [], [], [], [], [], [], [])
    ensures Lists(AddEdges(g, data, 11), [('B', 2.2), ('H', 2.2), ('C', 3.2)], [('A', 2.2), ('C', 2.2), ('E', 1.4), ('H', 2.2), ('D', 2.2)], [('A', 3.2), ('B', 2.2), ('E', 2.2)], [('B', 2.2), ('E', 2.2), ('I', 2.2), ('G', 2.2)], [('B', 1.4), ('C', 2.2), ('D', 2.2)], [], [('D', 2.2)], [('A', 2.2), ('B', 2.2)], [('D', 2.2)])
  {
    assert data[10] == ('D', 'G', 2.2);
    Roads9(g, data);
    var p, q := AddEdges(g, data, 10), AddEdges(g, data, 11);
    Road10(p, q);
    AddEdgesStep(g, data, 10);
  }

  lemma Roads11(g: Graph<char>, data: seq<(char, char, real)>)
    requires data == EdgeData && Lists(g, [], [], [], [], [], [], [], [], [])
    ensures Lists(AddEdges(g, data, 12), [('B', 2.2), ('H', 2.2), ('C', 3.2)], [('A', 2.2), ('C', 2.2), ('E', 1.4), ('H', 2.2), ('D', 2.2)], [('A', 3.2), ('B', 2.2), ('E', 2.2)], [('B', 2.2), ('E', 2.2), ('I', 2.2), ('G', 2.2), ('H', 2.2)], [('B', 1.4), ('C', 2.2), ('D', 2.2)], [], [('D', 2.2)], [('A', 2.2), ('B', 2.2), ('D', 2.2)], [('D', 2.2)])
  {
    assert data[11] == ('D', 'H', 2.2);
    Roads10(g, data);
    var p, q := AddEdges(g, data, 11), AddEdges(g, data, 12);
    Road11(p, q);
    AddEdgesStep(g, data, 11);
  }

  lemma Roads12(g: Graph<char>, data: seq<(char, char, real)>)
    requires data == EdgeData && Lists(g, [], [], [], [], [], [], [], [], [])
    ensures Lists(AddEdges(g, data, 13), [('B', 2.2), ('H', 2.2), ('C', 3.2)], [('A', 2.2), ('C', 2.2), ('E', 1.4), ('H', 2.2), ('D', 2.2)], [('A', 3.2), ('B', 2.2), ('E', 2.2)], [('B', 2.2), ('E', 2.2), ('I', 2.2), ('G', 2.2), ('H', 2.2)], [('B', 1.4), ('C', 2.2), ('D', 2.2), ('F', 2.2)], [('E', 2.2)], [('D', 2.2)], [('A', 2.2), ('B', 2.2), ('D', 2.2)], [('D', 2.2)])
  {
    assert data[12] == ('E', 'F', 2.2);
    Roads11(g, data);
    var p, q := AddEdges(g, data, 12), AddEdges(g, data, 13);
    Road12(p, q);
    AddEdgesStep(g, data, 12);
  }

  lemma Roads13(g: Graph<char>, data: seq<(char, char, real)>)
    requires data == EdgeData && Lists(g, [], [], [], [], [], [], [], [], [])
    ensures Lists(AddEdges(g, data, 14), [('B', 2.2), ('H', 2.2), ('C', 3.2)], [('A', 2.2), ('C', 2.2), ('E', 1.4), ('H', 2.2), ('D', 2.2)], [('A', 3.2), ('B', 2.2), ('E', 2.2)], [('B', 2.2), ('E', 2.2), ('I', 2.2), ('G', 2.2), ('H', 2.2)], [('B', 1.4), ('C', 2.2), ('D', 2.2), ('F', 2.2), ('I', 1.4)], [('E', 2.2)], [('D', 2.2)], [('A', 2.2), ('B', 2.2), ('D', 2.2)], [('D', 2.2), ('E', 1.4)])
  {
    assert data[13] == ('E', 'I', 1.4);
    Roads12(g, data);
    var p, q := AddEdges(g, data, 13), AddEdges(g, data, 14);
    Road13(p, q);
    AddEdgesStep(g, data, 13);
  }

  lemma Roads14(g: Graph<char>, data: seq<(char, char, real)>)
    requires data == EdgeData && Lists(g, [], [], [], [], [], [], [], [], [])
    ensures Lists(AddEdges(g, data, 15), [('B', 2.2), ('H', 2.2), ('C', 3.2)], [('A', 2.2), ('C', 2.2), ('E', 1.4), ('H', 2.2), ('D', 2.2)], [('A', 3.2), ('B', 2.2), ('E', 2.2)], [('B', 2.2), ('E', 2.2), ('I', 2.2), ('G', 2.2), ('H', 2.2)], [('B', 1.4), ('C', 2.2), ('D', 2.2), ('F', 2.2), ('I', 1.4)], [('E', 2.2), ('I', 1.4)], [('D', 2.2)], [('A', 2.2), ('B', 2.2), ('D', 2.2)], [('D', 2.2), ('E', 1.4), ('F', 1.4)])
  {
    assert data[14] == ('F', 'I', 1.4);
    Roads13(g, data);
    var p, q := AddEdges(g, data, 14), AddEdges(g, data, 15);
    Road14(p, q);
    AddEdgesStep(g, data, 14);
  }

  lemma Roads15(g: Graph<char>, data: seq<(char, char, real)>)
    requires data == EdgeData && Lists(g, [], [], [], [], [], [], [], [], [])
    ensures Lists(AddEdges(g, data, 16), [('B', 2.2), ('H', 2.2), ('C', 3.2)], [('A', 2.2), ('C', 2.2), ('E', 1.4), ('H', 2.2), ('D', 2.2)], [('A', 3.2), ('B', 2.2), ('E', 2.2)], [('B', 2.2), ('E', 2.2), ('I', 2.2), ('G', 2.2), ('H', 2.2)], [('B', 1.4), ('C', 2.2), ('D', 2.2), ('F', 2.2), ('I', 1.4)], [('E', 2.2), ('I', 1.4), ('G', 2.2)], [('D', 2.2), ('F', 2.2)], [('A', 2.2), ('B', 2.2), ('D', 2.2)], [('D', 2.2), ('E', 1.4), ('F', 1.4)])
  {
    assert data[15] == ('F', 'G', 2.2);
    Roads14(g, data);
    var p, q := AddEdges(g, data, 15), AddEdges(g, data, 16);
    Road15(p, q);
    AddEdgesStep(g, data, 15);
  }

  lemma Roads16(g: Graph<char>, data: seq<(char, char, real)>)
    requires data == EdgeData && Lists(g, [], [], [], [], [], [], [], [], [])
    ensures Lists(AddEdges(g, data, 17), [('B', 2.2), ('H', 2.2), ('C', 3.2)], [('A', 2.2), ('C', 2.2), ('E', 1.4), ('H', 2.2), ('D', 2.2)], [('A', 3.2), ('B', 2.2), ('E', 2.2)], [('B', 2.2), ('E', 2.2), ('I', 2.2), ('G', 2.2), ('H', 2.2)], [('B', 1.4), ('C', 2.2), ('D', 2.2), ('F', 2.2), ('I', 1.4)], [('E', 2.2), ('I', 1.4), ('G', 2.2)], [('D', 2.2), ('F', 2.2), ('I', 2.2)], [('A', 2.2), ('B', 2.2), ('D', 2.2)], [('D', 2.2), ('E', 1.4), ('F', 1.4), ('G', 2.2)])
  {
    assert data[16] == ('I', 'G', 2.2);
    Roads15(g, data);
    var p, q := AddEdges(g, data, 16), AddEdges(g, data, 17);
    Road16(p, q);
    AddEdgesStep(g, data, 16);
  }

  /** A graph with the nodes, neighbour lists (in insertion order) and heuristic values of `load_graph()`. */
  predicate Loads(g: Graph<char>) {
    && Lists(g, [('B', 2.2), ('H', 2.2), ('C', 3.2)], [('A', 2.2), ('C', 2.2), ('E', 1.4), ('H', 2.2), ('D', 2.2)], [('A', 3.2), ('B', 2.2), ('E', 2.2)], [('B', 2.2), ('E', 2.2), ('I', 2.2), ('G', 2.2), ('H', 2.2)], [('B', 1.4), ('C', 2.2), ('D', 2.2), ('F', 2.2), ('I', 1.4)], [('E', 2.2), ('I', 1.4), ('G', 2.2)], [('D', 2.2), ('F', 2.2), ('I', 2.2)], [('A', 2.2), ('B', 2.2), ('D', 2.2)], [('D', 2.2), ('E', 1.4), ('F', 1.4), ('G', 2.2)])
    && Heuristics(g, 6.1, 4.0, 5.4, 2.2, 3.2, 2.2, 0.0, 4.5, 2.2)
    && g.nodes == {'A', 'B', 'C', 'D', 'E', 'F', 'G', 'H', 'I'}
  }

  /** `load_graph()` builds exactly that map. */
  lemma Loaded()
    ensures Loads(LoadGraph())
  {
    Nodes8(NodeData);
    AddNodesEmpty(Empty(), NodeData, |NodeData|);
    Roads16(Nodes(), EdgeData);
  }

  /** A graph without any road is undirected. */
  lemma EmptySymmetric<N(!new)>(g: Graph<N>)
    requires forall x :: Neighbors(g, x) == []
    ensures Symmetric(g)
  {
    forall a, b ensures Weight(g, a, b) == Weight(g, b, a) {
      assert Neighbors(g, a) == [] && Neighbors(g, b) == [];
    }
  }

  /** The `add_node` loop keeps every neighbour list a dict. */
  lemma {:induction false} AddNodesValid<N(!new)>(g: Graph<N>, data: seq<(N, real)>, k: nat)
    requires k <= |data| && Valid(g)
    ensures Valid(AddNodes(g, data, k))
  {
    if k > 0 {
      AddNodesValid(g, data, k - 1);
    }
  }

  /** `load_graph()` is a well-formed undirected graph. */
  lemma LoadedWellFormed()
    ensures Valid(LoadGraph()) && Symmetric(LoadGraph())
  {
    AddNodesValid(Empty(), NodeData, |NodeData|);
    AddNodesEmpty(Empty(), NodeData, |NodeData|);
    EmptySymmetric(Nodes());
  }

  /**
   * The links A <- B <- D <- G, which A* and BFS both leave in their parent
   * maps, make `_reconstruct_path` return A, B, D, G.
   */
  lemma ShortestPath(p: map<char, char>, o: seq<char>)
    requires Ranked(p, o) && 'A' !in p && p.Keys >= {'B', 'D', 'G'} && p['B'] == 'A' && p['D'] == 'B' && p['G'] == 'D'
    ensures Reconstruct(p, 'G', o) == ['A', 'B', 'D', 'G']
  {
    assert Reconstruct(p, 'A', o) == ['A'];
    ReconstructLink(p, 'B', o, ['A']);
    ReconstructLink(p, 'D', o, ['A', 'B']);
    ReconstructLink(p, 'G', o, ['A', 'B', 'D']);
  }
}
