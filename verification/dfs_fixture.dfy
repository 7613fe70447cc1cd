/**
 * `DFSSearch(GRAPH, 'A', 'G').search()` on the delivery map, call by call.
 * The recursion is a single descent here: each call skips the neighbours
 * already visited and the first unvisited one leads all the way to G.
 * `DfsEntry<k>` is the search object when the `k`th call starts.
 */
module DfsFixture {
  import opened Graphs
  import opened Paths
  import opened Results
  import Dfs
  import opened Fixture

  /** A listed neighbour is among the nodes a search can touch. */
  lemma Listed(g: Graph<char>, start: char, cur: char, i: nat)
    requires i < |Neighbors(g, cur)|
    ensures Neighbors(g, cur)[i].0 in Universe(g, start)
  {
    assert Neighbors(g, cur)[i].0 in Keys(Neighbors(g, cur));
  }

  /** A call on a node other than the goal marks it, counts it as expanded and runs its neighbour loop. */
  lemma Enter(g: Graph<char>, start: char, goal: char, node: char, st: Dfs.State<char>)
    requires node in Universe(g, start) && node !in st.visited && node in st.cost && node != goal
    ensures Dfs.Visit(g, start, goal, node, st) ==
            Dfs.Explore(g, start, goal, node, st.cost[node], Neighbors(g, node), Dfs.Mark(node, st).(expanded := st.expanded + 1))
  {
  }

  /** The neighbour loop passes over a visited neighbour. */
  lemma Skip(g: Graph<char>, start: char, goal: char, cur: char, curCost: real, a: char, w: real,
             rest: Adjacency<char>, st: Dfs.State<char>)
    requires (a, w) in Neighbors(g, cur) && (forall p :: p in rest ==> p in Neighbors(g, cur))
    requires a in st.visited
    ensures Dfs.Explore(g, start, goal, cur, curCost, [(a, w)] + rest, st) == Dfs.Explore(g, start, goal, cur, curCost, rest, st)
  {
    assert ([(a, w)] + rest)[1..] == rest;
  }

  /** The neighbour loop links an unvisited neighbour, visits it, and stops when that call finds the goal. */
  lemma Descend(g: Graph<char>, start: char, goal: char, cur: char, curCost: real, a: char, w: real,
                rest: Adjacency<char>, st: Dfs.State<char>)
    requires (a, w) in Neighbors(g, cur) && (forall p :: p in rest ==> p in Neighbors(g, cur))
    requires a !in st.visited && a in Universe(g, start)
    requires Dfs.Visit(g, start, goal, a, Dfs.Link(cur, curCost, a, w, st)).found
    ensures Dfs.Explore(g, start, goal, cur, curCost, [(a, w)] + rest, st) == Dfs.Visit(g, start, goal, a, Dfs.Link(cur, curCost, a, w, st))
  {
    assert ([(a, w)] + rest)[1..] == rest;
  }

  // --- DFS from A to G ------------------------------------------------------

  /** The state when the call that reaches G returns. */
  function DfsFinal(): Dfs.State<char> {
    Dfs.State({'A', 'B', 'C', 'E', 'D', 'I', 'F', 'G'}, map['B' := 'A', 'C' := 'B', 'E' := 'C', 'D' := 'E', 'I' := 'D', 'F' := 'I', 'G' := 'F'], map['A' := 0.0, 'B' := 2.2, 'C' := 4.4, 'E' := 6.6, 'D' := 8.8, 'I' := 11.0, 'F' := 12.4, 'G' := 14.6], [DfsStep(0, 'A', 0.0, 1), DfsStep(1, 'B', 2.2, 2), DfsStep(2, 'C', 4.4, 3), DfsStep(3, 'E', 6.6, 4), DfsStep(4, 'D', 8.8, 5), DfsStep(5, 'I', 11.0, 6), DfsStep(6, 'F', 12.4, 7), DfsStep(7, 'G', 14.6, 8)], 7)
  }

  function DfsEntry0(): Dfs.State<char> {
    Dfs.State({}, map[], map['A' := 0.0], [], 0)
  }

  function DfsEntry1(): Dfs.State<char> {
    Dfs.State({'A'}, map['B' := 'A'], map['A' := 0.0, 'B' := 2.2], [DfsStep(0, 'A', 0.0, 1)], 1)
  }

  function DfsEntry2(): Dfs.State<char> {
    Dfs.State({'A', 'B'}, map['B' := 'A', 'C' := 'B'], map['A' := 0.0, 'B' := 2.2, 'C' := 4.4], [DfsStep(0, 'A', 0.0, 1), DfsStep(1, 'B', 2.2, 2)], 2)
  }

  function DfsEntry3(): Dfs.State<char> {
    Dfs.State({'A', 'B', 'C'}, map['B' := 'A', 'C' := 'B', 'E' := 'C'], map['A' := 0.0, 'B' := 2.2, 'C' := 4.4, 'E' := 6.6], [DfsStep(0, 'A', 0.0, 1), DfsStep(1, 'B', 2.2, 2), DfsStep(2, 'C', 4.4, 3)], 3)
  }

  function DfsEntry4(): Dfs.State<char> {
    Dfs.State({'A', 'B', 'C', 'E'}, map['B' := 'A', 'C' := 'B', 'E' := 'C', 'D' := 'E'], map['A' := 0.0, 'B' := 2.2, 'C' := 4.4, 'E' := 6.6, 'D' := 8.8], [DfsStep(0, 'A', 0.0, 1), DfsStep(1, 'B', 2.2, 2), DfsStep(2, 'C', 4.4, 3), DfsStep(3, 'E', 6.6, 4)], 4)
  }

  function DfsEntry5(): Dfs.State<char> {
    Dfs.State({'A', 'B', 'C', 'E', 'D'}, map['B' := 'A', 'C' := 'B', 'E' := 'C', 'D' := 'E', 'I' := 'D'], map['A' := 0.0, 'B' := 2.2, 'C' := 4.4, 'E' := 6.6, 'D' := 8.8, 'I' := 11.0], [DfsStep(0, 'A', 0.0, 1), DfsStep(1, 'B', 2.2, 2), DfsStep(2, 'C', 4.4, 3), DfsStep(3, 'E', 6.6, 4), DfsStep(4, 'D', 8.8, 5)], 5)
  }

  function DfsEntry6(): Dfs.State<char> {
    Dfs.State({'A', 'B', 'C', 'E', 'D', 'I'}, map['B' := 'A', 'C' := 'B', 'E' := 'C', 'D' := 'E', 'I' := 'D', 'F' := 'I'], map['A' := 0.0, 'B' := 2.2, 'C' := 4.4, 'E' := 6.6, 'D' := 8.8, 'I' := 11.0, 'F' := 12.4], [DfsStep(0, 'A', 0.0, 1), DfsStep(1, 'B', 2.2, 2), DfsStep(2, 'C', 4.4, 3), DfsStep(3, 'E', 6.6, 4), DfsStep(4, 'D', 8.8, 5), DfsStep(5, 'I', 11.0, 6)], 6)
  }

  function DfsEntry7(): Dfs.State<char> {
    Dfs.State({'A', 'B', 'C', 'E', 'D', 'I', 'F'}, map['B' := 'A', 'C' := 'B', 'E' := 'C', 'D' := 'E', 'I' := 'D', 'F' := 'I', 'G' := 'F'], map['A' := 0.0, 'B' := 2.2, 'C' := 4.4, 'E' := 6.6, 'D' := 8.8, 'I' := 11.0, 'F' := 12.4, 'G' := 14.6], [DfsStep(0, 'A', 0.0, 1), DfsStep(1, 'B', 2.2, 2), DfsStep(2, 'C', 4.4, 3), DfsStep(3, 'E', 6.6, 4), DfsStep(4, 'D', 8.8, 5), DfsStep(5, 'I', 11.0, 6), DfsStep(6, 'F', 12.4, 7)], 7)
  }

  lemma DfsMark0(st: Dfs.State<char>)
    requires st == DfsEntry0()
    ensures 'A' in st.cost && Dfs.Mark('A', st).(expanded := st.expanded + 1) == Dfs.State({'A'}, map[], map['A' := 0.0], [DfsStep(0, 'A', 0.0, 1)], 1)
  {
  }

  lemma DfsLink0(st: Dfs.State<char>)
    requires st == Dfs.State({'A'}, map[], map['A' := 0.0], [DfsStep(0, 'A', 0.0, 1)], 1)
    ensures Dfs.Link('A', 0.0, 'B', 2.2, st) == DfsEntry1()
  {
  }

  lemma DfsExplore0x0(g: Graph<char>, st: Dfs.State<char>)
    requires Loads(g) && st == Dfs.State({'A'}, map[], map['A' := 0.0], [DfsStep(0, 'A', 0.0, 1)], 1)
    ensures Dfs.Explore(g, 'A', 'G', 'A', 0.0, [('B', 2.2), ('H', 2.2), ('C', 3.2)], st) == Dfs.Outcome(true, DfsFinal())
  {
    DfsLink0(st);
    Listed(g, 'A', 'A', 0);
    DfsVisit1(g, Dfs.Link('A', 0.0, 'B', 2.2, st));
    Descend(g, 'A', 'G', 'A', 0.0, 'B', 2.2, [('H', 2.2), ('C', 3.2)], st);
  }

  lemma DfsVisit0(g: Graph<char>, st: Dfs.State<char>)
    requires Loads(g) && st == DfsEntry0()
    requires 'A' in Universe(g, 'A')
    ensures Dfs.Visit(g, 'A', 'G', 'A', st) == Dfs.Outcome(true, DfsFinal())
  {
    DfsMark0(st);
    DfsExplore0x0(g, Dfs.Mark('A', st).(expanded := st.expanded + 1));
    Enter(g, 'A', 'G', 'A', st);
  }

  lemma DfsMark1(st: Dfs.State<char>)
    requires st == DfsEntry1()
    ensures 'B' in st.cost && Dfs.Mark('B', st).(expanded := st.expanded + 1) == Dfs.State({'A', 'B'}, map['B' := 'A'], map['A' := 0.0, 'B' := 2.2], [DfsStep(0, 'A', 0.0, 1), DfsStep(1, 'B', 2.2, 2)], 2)
  {
  }

  lemma DfsLink1(st: Dfs.State<char>)
    requires st == Dfs.State({'A', 'B'}, map['B' := 'A'], map['A' := 0.0, 'B' := 2.2], [DfsStep(0, 'A', 0.0, 1), DfsStep(1, 'B', 2.2, 2)], 2)
    ensures Dfs.Link('B', 2.2, 'C', 2.2, st) == DfsEntry2()
  {
  }

  lemma DfsExplore1x1(g: Graph<char>, st: Dfs.State<char>)
    requires Loads(g) && st == Dfs.State({'A', 'B'}, map['B' := 'A'], map['A' := 0.0, 'B' := 2.2], [DfsStep(0, 'A', 0.0, 1), DfsStep(1, 'B', 2.2, 2)], 2)
    ensures Dfs.Explore(g, 'A', 'G', 'B', 2.2, [('C', 2.2), ('E', 1.4), ('H', 2.2), ('D', 2.2)], st) == Dfs.Outcome(true, DfsFinal())
  {
    DfsLink1(st);
    Listed(g, 'A', 'B', 1);
    DfsVisit2(g, Dfs.Link('B', 2.2, 'C', 2.2, st));
    Descend(g, 'A', 'G', 'B', 2.2, 'C', 2.2, [('E', 1.4), ('H', 2.2), ('D', 2.2)], st);
  }

  lemma DfsExplore1x0(g: Graph<char>, st: Dfs.State<char>)
    requires Loads(g) && st == Dfs.State({'A', 'B'}, map['B' := 'A'], map['A' := 0.0, 'B' := 2.2], [DfsStep(0, 'A', 0.0, 1), DfsStep(1, 'B', 2.2, 2)], 2)
    ensures Dfs.Explore(g, 'A', 'G', 'B', 2.2, [('A', 2.2), ('C', 2.2), ('E', 1.4), ('H', 2.2), ('D', 2.2)], st) == Dfs.Outcome(true, DfsFinal())
  {
    DfsExplore1x1(g, st);
    Skip(g, 'A', 'G', 'B', 2.2, 'A', 2.2, [('C', 2.2), ('E', 1.4), ('H', 2.2), ('D', 2.2)], st);
  }

  lemma DfsVisit1(g: Graph<char>, st: Dfs.State<char>)
    requires Loads(g) && st == DfsEntry1()
    requires 'B' in Universe(g, 'A')
    ensures Dfs.Visit(g, 'A', 'G', 'B', st) == Dfs.Outcome(true, DfsFinal())
  {
    DfsMark1(st);
    DfsExplore1x0(g, Dfs.Mark('B', st).(expanded := st.expanded + 1));
    Enter(g, 'A', 'G', 'B', st);
  }

  lemma DfsMark2(st: Dfs.State<char>)
    requires st == DfsEntry2()
    ensures 'C' in st.cost && Dfs.Mark('C', st).(expanded := st.expanded + 1) == Dfs.State({'A', 'B', 'C'}, map['B' := 'A', 'C' := 'B'], map['A' := 0.0, 'B' := 2.2, 'C' := 4.4], [DfsStep(0, 'A', 0.0, 1), DfsStep(1, 'B', 2.2, 2), DfsStep(2, 'C', 4.4, 3)], 3)
  {
  }

  lemma DfsLink2(st: Dfs.State<char>)
    requires st == Dfs.State({'A', 'B', 'C'}, map['B' := 'A', 'C' := 'B'], map['A' := 0.0, 'B' := 2.2, 'C' := 4.4], [DfsStep(0, 'A', 0.0, 1), DfsStep(1, 'B', 2.2, 2), DfsStep(2, 'C', 4.4, 3)], 3)
    ensures Dfs.Link('C', 4.4, 'E', 2.2, st) == DfsEntry3()
  {
  }

  lemma DfsExplore2x2(g: Graph<char>, st: Dfs.State<char>)
    requires Loads(g) && st == Dfs.State({'A', 'B', 'C'}, map['B' := 'A', 'C' := 'B'], map['A' := 0.0, 'B' := 2.2, 'C' := 4.4], [DfsStep(0, 'A', 0.0, 1), DfsStep(1, 'B', 2.2, 2), DfsStep(2, 'C', 4.4, 3)], 3)
    ensures Dfs.Explore(g, 'A', 'G', 'C', 4.4, [('E', 2.2)], st) == Dfs.Outcome(true, DfsFinal())
  {
    DfsLink2(st);
    Listed(g, 'A', 'C', 2);
    DfsVisit3(g, Dfs.Link('C', 4.4, 'E', 2.2, st));
    Descend(g, 'A', 'G', 'C', 4.4, 'E', 2.2, [], st);
  }

  lemma DfsExplore2x1(g: Graph<char>, st: Dfs.State<char>)
    requires Loads(g) && st == Dfs.State({'A', 'B', 'C'}, map['B' := 'A', 'C' := 'B'], map['A' := 0.0, 'B' := 2.2, 'C' := 4.4], [DfsStep(0, 'A', 0.0, 1), DfsStep(1, 'B', 2.2, 2), DfsStep(2, 'C', 4.4, 3)], 3)
    ensures Dfs.Explore(g, 'A', 'G', 'C', 4.4, [('B', 2.2), ('E', 2.2)], st) == Dfs.Outcome(true, DfsFinal())
  {
    DfsExplore2x2(g, st);
    Skip(g, 'A', 'G', 'C', 4.4, 'B', 2.2, [('E', 2.2)], st);
  }

  lemma DfsExplore2x0(g: Graph<char>, st: Dfs.State<char>)
    requires Loads(g) && st == Dfs.State({'A', 'B', 'C'}, map['B' := 'A', 'C' := 'B'], map['A' := 0.0, 'B' := 2.2, 'C' := 4.4], [DfsStep(0, 'A', 0.0, 1), DfsStep(1, 'B', 2.2, 2), DfsStep(2, 'C', 4.4, 3)], 3)
    ensures Dfs.Explore(g, 'A', 'G', 'C', 4.4, [('A', 3.2), ('B', 2.2), ('E', 2.2)], st) == Dfs.Outcome(true, DfsFinal())
  {
    DfsExplore2x1(g, st);
    Skip(g, 'A', 'G', 'C', 4.4, 'A', 3.2, [('B', 2.2), ('E', 2.2)], st);
  }

  lemma DfsVisit2(g: Graph<char>, st: Dfs.State<char>)
    requires Loads(g) && st == DfsEntry2()
    requires 'C' in Universe(g, 'A')
    ensures Dfs.Visit(g, 'A', 'G', 'C', st) == Dfs.Outcome(true, DfsFinal())
  {
    DfsMark2(st);
    DfsExplore2x0(g, Dfs.Mark('C', st).(expanded := st.expanded + 1));
    Enter(g, 'A', 'G', 'C', st);
  }

  lemma DfsMark3(st: Dfs.State<char>)
    requires st == DfsEntry3()
    ensures 'E' in st.cost && Dfs.Mark('E', st).(expanded := st.expanded + 1) == Dfs.State({'A', 'B', 'C', 'E'}, map['B' := 'A', 'C' := 'B', 'E' := 'C'], map['A' := 0.0, 'B' := 2.2, 'C' := 4.4, 'E' := 6.6], [DfsStep(0, 'A', 0.0, 1), DfsStep(1, 'B', 2.2, 2), DfsStep(2, 'C', 4.4, 3), DfsStep(3, 'E', 6.6, 4)], 4)
  {
  }

  lemma DfsLink3(st: Dfs.State<char>)
    requires st == Dfs.State({'A', 'B', 'C', 'E'}, map['B' := 'A', 'C' := 'B', 'E' := 'C'], map['A' := 0.0, 'B' := 2.2, 'C' := 4.4, 'E' := 6.6], [DfsStep(0, 'A', 0.0, 1), DfsStep(1, 'B', 2.2, 2), DfsStep(2, 'C', 4.4, 3), DfsStep(3, 'E', 6.6, 4)], 4)
    ensures Dfs.Link('E', 6.6, 'D', 2.2, st) == DfsEntry4()
  {
  }

  lemma DfsExplore3x2(g: Graph<char>, st: Dfs.State<char>)
    requires Loads(g) && st == Dfs.State({'A', 'B', 'C', 'E'}, map['B' := 'A', 'C' := 'B', 'E' := 'C'], map['A' := 0.0, 'B' := 2.2, 'C' := 4.4, 'E' := 6.6], [DfsStep(0, 'A', 0.0, 1), DfsStep(1, 'B', 2.2, 2), DfsStep(2, 'C', 4.4, 3), DfsStep(3, 'E', 6.6, 4)], 4)
    ensures Dfs.Explore(g, 'A', 'G', 'E', 6.6, [('D', 2.2), ('F', 2.2), ('I', 1.4)], st) == Dfs.Outcome(true, DfsFinal())
  {
    DfsLink3(st);
    Listed(g, 'A', 'E', 2);
    DfsVisit4(g, Dfs.Link('E', 6.6, 'D', 2.2, st));
    Descend(g, 'A', 'G', 'E', 6.6, 'D', 2.2, [('F', 2.2), ('I', 1.4)], st);
  }

  lemma DfsExplore3x1(g: Graph<char>, st: Dfs.State<char>)
    requires Loads(g) && st == Dfs.State({'A', 'B', 'C', 'E'}, map['B' := 'A', 'C' := 'B', 'E' := 'C'], map['A' := 0.0, 'B' := 2.2, 'C' := 4.4, 'E' := 6.6], [DfsStep(0, 'A', 0.0, 1), DfsStep(1, 'B', 2.2, 2), DfsStep(2, 'C', 4.4, 3), DfsStep(3, 'E', 6.6, 4)], 4)
    ensures Dfs.Explore(g, 'A', 'G', 'E', 6.6, [('C', 2.2), ('D', 2.2), ('F', 2.2), ('I', 1.4)], st) == Dfs.Outcome(true, DfsFinal())
  {
    DfsExplore3x2(g, st);
    Skip(g, 'A', 'G', 'E', 6.6, 'C', 2.2, [('D', 2.2), ('F', 2.2), ('I', 1.4)], st);
  }

  lemma DfsExplore3x0(g: Graph<char>, st: Dfs.State<char>)
    requires Loads(g) && st == Dfs.State({'A', 'B', 'C', 'E'}, map['B' := 'A', 'C' := 'B', 'E' := 'C'], map['A' := 0.0, 'B' := 2.2, 'C' := 4.4, 'E' := 6.6], [DfsStep(0, 'A', 0.0, 1), DfsStep(1, 'B', 2.2, 2), DfsStep(2, 'C', 4.4, 3), DfsStep(3, 'E', 6.6, 4)], 4)
    ensures Dfs.Explore(g, 'A', 'G', 'E', 6.6, [('B', 1.4), ('C', 2.2), ('D', 2.2), ('F', 2.2), ('I', 1.4)], st) == Dfs.Outcome(true, DfsFinal())
  {
    DfsExplore3x1(g, st);
    Skip(g, 'A', 'G', 'E', 6.6, 'B', 1.4, [('C', 2.2), ('D', 2.2), ('F', 2.2), ('I', 1.4)], st);
  }

  lemma DfsVisit3(g: Graph<char>, st: Dfs.State<char>)
    requires Loads(g) && st == DfsEntry3()
    requires 'E' in Universe(g, 'A')
    ensures Dfs.Visit(g, 'A', 'G', 'E', st) == Dfs.Outcome(true, DfsFinal())
  {
    DfsMark3(st);
    DfsExplore3x0(g, Dfs.Mark('E', st).(expanded := st.expanded + 1));
    Enter(g, 'A', 'G', 'E', st);
  }

  lemma DfsMark4(st: Dfs.State<char>)
    requires st == DfsEntry4()
    ensures 'D' in st.cost && Dfs.Mark('D', st).(expanded := st.expanded + 1) == Dfs.State({'A', 'B', 'C', 'E', 'D'}, map['B' := 'A', 'C' := 'B', 'E' := 'C', 'D' := 'E'], map['A' := 0.0, 'B' := 2.2, 'C' := 4.4, 'E' := 6.6, 'D' := 8.8], [DfsStep(0, 'A', 0.0, 1), DfsStep(1, 'B', 2.2, 2), DfsStep(2, 'C', 4.4, 3), DfsStep(3, 'E', 6.6, 4), DfsStep(4, 'D', 8.8, 5)], 5)
  {
  }

  lemma DfsLink4(st: Dfs.State<char>)
    requires st == Dfs.State({'A', 'B', 'C', 'E', 'D'}, map['B' := 'A', 'C' := 'B', 'E' := 'C', 'D' := 'E'], map['A' := 0.0, 'B' := 2.2, 'C' := 4.4, 'E' := 6.6, 'D' := 8.8], [DfsStep(0, 'A', 0.0, 1), DfsStep(1, 'B', 2.2, 2), DfsStep(2, 'C', 4.4, 3), DfsStep(3, 'E', 6.6, 4), DfsStep(4, 'D', 8.8, 5)], 5)
    ensures Dfs.Link('D', 8.8, 'I', 2.2, st) == DfsEntry5()
  {
  }

  lemma DfsExplore4x2(g: Graph<char>, st: Dfs.State<char>)
    requires Loads(g) && st == Dfs.State({'A', 'B', 'C', 'E', 'D'}, map['B' := 'A', 'C' := 'B', 'E' := 'C', 'D' := 'E'], map['A' := 0.0, 'B' := 2.2, 'C' := 4.4, 'E' := 6.6, 'D' := 8.8], [DfsStep(0, 'A', 0.0, 1), DfsStep(1, 'B', 2.2, 2), DfsStep(2, 'C', 4.4, 3), DfsStep(3, 'E', 6.6, 4), DfsStep(4, 'D', 8.8, 5)], 5)
    ensures Dfs.Explore(g, 'A', 'G', 'D', 8.8, [('I', 2.2), ('G', 2.2), ('H', 2.2)], st) == Dfs.Outcome(true, DfsFinal())
  {
    DfsLink4(st);
    Listed(g, 'A', 'D', 2);
    DfsVisit5(g, Dfs.Link('D', 8.8, 'I', 2.2, st));
    Descend(g, 'A', 'G', 'D', 8.8, 'I', 2.2, [('G', 2.2), ('H', 2.2)], st);
  }

  lemma DfsExplore4x1(g: Graph<char>, st: Dfs.State<char>)
    requires Loads(g) && st == Dfs.State({'A', 'B', 'C', 'E', 'D'}, map['B' := 'A', 'C' := 'B', 'E' := 'C', 'D' := 'E'], map['A' := 0.0, 'B' := 2.2, 'C' := 4.4, 'E' := 6.6, 'D' := 8.8], [DfsStep(0, 'A', 0.0, 1), DfsStep(1, 'B', 2.2, 2), DfsStep(2, 'C', 4.4, 3), DfsStep(3, 'E', 6.6, 4), DfsStep(4, 'D', 8.8, 5)], 5)
    ensures Dfs.Explore(g, 'A', 'G', 'D', 8.8, [('E', 2.2), ('I', 2.2), ('G', 2.2), ('H', 2.2)], st) == Dfs.Outcome(true, DfsFinal())
  {
    DfsExplore4x2(g, st);
    Skip(g, 'A', 'G', 'D', 8.8, 'E', 2.2, [('I', 2.2), ('G', 2.2), ('H', 2.2)], st);
  }

  lemma DfsExplore4x0(g: Graph<char>, st: Dfs.State<char>)
    requires Loads(g) && st == Dfs.State({'A', 'B', 'C', 'E', 'D'}, map['B' := 'A', 'C' := 'B', 'E' := 'C', 'D' := 'E'], map['A' := 0.0, 'B' := 2.2, 'C' := 4.4, 'E' := 6.6, 'D' := 8.8], [DfsStep(0, 'A', 0.0, 1), DfsStep(1, 'B', 2.2, 2), DfsStep(2, 'C', 4.4, 3), DfsStep(3, 'E', 6.6, 4), DfsStep(4, 'D', 8.8, 5)], 5)
    ensures Dfs.Explore(g, 'A', 'G', 'D', 8.8, [('B', 2.2), ('E', 2.2), ('I', 2.2), ('G', 2.2), ('H', 2.2)], st) == Dfs.Outcome(true, DfsFinal())
  {
    DfsExplore4x1(g, st);
    Skip(g, 'A', 'G', 'D', 8.8, 'B', 2.2, [('E', 2.2), ('I', 2.2), ('G', 2.2), ('H', 2.2)], st);
  }

  lemma DfsVisit4(g: Graph<char>, st: Dfs.State<char>)
    requires Loads(g) && st == DfsEntry4()
    requires 'D' in Universe(g, 'A')
    ensures Dfs.Visit(g, 'A', 'G', 'D', st) == Dfs.Outcome(true, DfsFinal())
  {
    DfsMark4(st);
    DfsExplore4x0(g, Dfs.Mark('D', st).(expanded := st.expanded + 1));
    Enter(g, 'A', 'G', 'D', st);
  }

  lemma DfsMark5(st: Dfs.State<char>)
    requires st == DfsEntry5()
    ensures 'I' in st.cost && Dfs.Mark('I', st).(expanded := st.expanded + 1) == Dfs.State({'A', 'B', 'C', 'E', 'D', 'I'}, map['B' := 'A', 'C' := 'B', 'E' := 'C', 'D' := 'E', 'I' := 'D'], map['A' := 0.0, 'B' := 2.2, 'C' := 4.4, 'E' := 6.6, 'D' := 8.8, 'I' := 11.0], [DfsStep(0, 'A', 0.0, 1), DfsStep(1, 'B', 2.2, 2), DfsStep(2, 'C', 4.4, 3), DfsStep(3, 'E', 6.6, 4), DfsStep(4, 'D', 8.8, 5), DfsStep(5, 'I', 11.0, 6)], 6)
  {
  }

  lemma DfsLink5(st: Dfs.State<char>)
    requires st == Dfs.State({'A', 'B', 'C', 'E', 'D', 'I'}, map['B' := 'A', 'C' := 'B', 'E' := 'C', 'D' := 'E', 'I' := 'D'], map['A' := 0.0, 'B' := 2.2, 'C' := 4.4, 'E' := 6.6, 'D' := 8.8, 'I' := 11.0], [DfsStep(0, 'A', 0.0, 1), DfsStep(1, 'B', 2.2, 2), DfsStep(2, 'C', 4.4, 3), DfsStep(3, 'E', 6.6, 4), DfsStep(4, 'D', 8.8, 5), DfsStep(5, 'I', 11.0, 6)], 6)
    ensures Dfs.Link('I', 11.0, 'F', 1.4, st) == DfsEntry6()
  {
  }

  lemma DfsExplore5x2(g: Graph<char>, st: Dfs.State<char>)
    requires Loads(g) && st == Dfs.State({'A', 'B', 'C', 'E', 'D', 'I'}, map['B' := 'A', 'C' := 'B', 'E' := 'C', 'D' := 'E', 'I' := 'D'], map['A' := 0.0, 'B' := 2.2, 'C' := 4.4, 'E' := 6.6, 'D' := 8.8, 'I' := 11.0], [DfsStep(0, 'A', 0.0, 1), DfsStep(1, 'B', 2.2, 2), DfsStep(2, 'C', 4.4, 3), DfsStep(3, 'E', 6.6, 4), DfsStep(4, 'D', 8.8, 5), DfsStep(5, 'I', 11.0, 6)], 6)
    ensures Dfs.Explore(g, 'A', 'G', 'I', 11.0, [('F', 1.4), ('G', 2.2)], st) == Dfs.Outcome(true, DfsFinal())
  {
    DfsLink5(st);
    Listed(g, 'A', 'I', 2);
    DfsVisit6(g, Dfs.Link('I', 11.0, 'F', 1.4, st));
    Descend(g, 'A', 'G', 'I', 11.0, 'F', 1.4, [('G', 2.2)], st);
  }

  lemma DfsExplore5x1(g: Graph<char>, st: Dfs.State<char>)
    requires Loads(g) && st == Dfs.State({'A', 'B', 'C', 'E', 'D', 'I'}, map['B' := 'A', 'C' := 'B', 'E' := 'C', 'D' := 'E', 'I' := 'D'], map['A' := 0.0, 'B' := 2.2, 'C' := 4.4, 'E' := 6.6, 'D' := 8.8, 'I' := 11.0], [DfsStep(0, 'A', 0.0, 1), DfsStep(1, 'B', 2.2, 2), DfsStep(2, 'C', 4.4, 3), DfsStep(3, 'E', 6.6, 4), DfsStep(4, 'D', 8.8, 5), DfsStep(5, 'I', 11.0, 6)], 6)
    ensures Dfs.Explore(g, 'A', 'G', 'I', 11.0, [('E', 1.4), ('F', 1.4), ('G', 2.2)], st) == Dfs.Outcome(true, DfsFinal())
  {
    DfsExplore5x2(g, st);
    Skip(g, 'A', 'G', 'I', 11.0, 'E', 1.4, [('F', 1.4), ('G', 2.2)], st);
  }

  lemma DfsExplore5x0(g: Graph<char>, st: Dfs.State<char>)
    requires Loads(g) && st == Dfs.State({'A', 'B', 'C', 'E', 'D', 'I'}, map['B' := 'A', 'C' := 'B', 'E' := 'C', 'D' := 'E', 'I' := 'D'], map['A' := 0.0, 'B' := 2.2, 'C' := 4.4, 'E' := 6.6, 'D' := 8.8, 'I' := 11.0], [DfsStep(0, 'A', 0.0, 1), DfsStep(1, 'B', 2.2, 2), DfsStep(2, 'C', 4.4, 3), DfsStep(3, 'E', 6.6, 4), DfsStep(4, 'D', 8.8, 5), DfsStep(5, 'I', 11.0, 6)], 6)
    ensures Dfs.Explore(g, 'A', 'G', 'I', 11.0, [('D', 2.2), ('E', 1.4), ('F', 1.4), ('G', 2.2)], st) == Dfs.Outcome(true, DfsFinal())
  {
    DfsExplore5x1(g, st);
    Skip(g, 'A', 'G', 'I', 11.0, 'D', 2.2, [('E', 1.4), ('F', 1.4), ('G', 2.2)], st);
  }

  lemma DfsVisit5(g: Graph<char>, st: Dfs.State<char>)
    requires Loads(g) && st == DfsEntry5()
    requires 'I' in Universe(g, 'A')
    ensures Dfs.Visit(g, 'A', 'G', 'I', st) == Dfs.Outcome(true, DfsFinal())
  {
    DfsMark5(st);
    DfsExplore5x0(g, Dfs.Mark('I', st).(expanded := st.expanded + 1));
    Enter(g, 'A', 'G', 'I', st);
  }

  lemma DfsMark6(st: Dfs.State<char>)
    requires st == DfsEntry6()
    ensures 'F' in st.cost && Dfs.Mark('F', st).(expanded := st.expanded + 1) == Dfs.State({'A', 'B', 'C', 'E', 'D', 'I', 'F'}, map['B' := 'A', 'C' := 'B', 'E' := 'C', 'D' := 'E', 'I' := 'D', 'F' := 'I'], map['A' := 0.0, 'B' := 2.2, 'C' := 4.4, 'E' := 6.6, 'D' := 8.8, 'I' := 11.0, 'F' := 12.4], [DfsStep(0, 'A', 0.0, 1), DfsStep(1, 'B', 2.2, 2), DfsStep(2, 'C', 4.4, 3), DfsStep(3, 'E', 6.6, 4), DfsStep(4, 'D', 8.8, 5), DfsStep(5, 'I', 11.0, 6), DfsStep(6, 'F', 12.4, 7)], 7)
  {
  }

  lemma DfsLink6(st: Dfs.State<char>)
    requires st == Dfs.State({'A', 'B', 'C', 'E', 'D', 'I', 'F'}, map['B' := 'A', 'C' := 'B', 'E' := 'C', 'D' := 'E', 'I' := 'D', 'F' := 'I'], map['A' := 0.0, 'B' := 2.2, 'C' := 4.4, 'E' := 6.6, 'D' := 8.8, 'I' := 11.0, 'F' := 12.4], [DfsStep(0, 'A', 0.0, 1), DfsStep(1, 'B', 2.2, 2), DfsStep(2, 'C', 4.4, 3), DfsStep(3, 'E', 6.6, 4), DfsStep(4, 'D', 8.8, 5), DfsStep(5, 'I', 11.0, 6), DfsStep(6, 'F', 12.4, 7)], 7)
    ensures Dfs.Link('F', 12.4, 'G', 2.2, st) == DfsEntry7()
  {
  }

  lemma DfsExplore6x2(g: Graph<char>, st: Dfs.State<char>)
    requires Loads(g) && st == Dfs.State({'A', 'B', 'C', 'E', 'D', 'I', 'F'}, map['B' := 'A', 'C' := 'B', 'E' := 'C', 'D' := 'E', 'I' := 'D', 'F' := 'I'], map['A' := 0.0, 'B' := 2.2, 'C' := 4.4, 'E' := 6.6, 'D' := 8.8, 'I' := 11.0, 'F' := 12.4], [DfsStep(0, 'A', 0.0, 1), DfsStep(1, 'B', 2.2, 2), DfsStep(2, 'C', 4.4, 3), DfsStep(3, 'E', 6.6, 4), DfsStep(4, 'D', 8.8, 5), DfsStep(5, 'I', 11.0, 6), DfsStep(6, 'F', 12.4, 7)], 7)
    ensures Dfs.Explore(g, 'A', 'G', 'F', 12.4, [('G', 2.2)], st) == Dfs.Outcome(true, DfsFinal())
  {
    DfsLink6(st);
    Listed(g, 'A', 'F', 2);
    DfsVisit7(g, Dfs.Link('F', 12.4, 'G', 2.2, st));
    Descend(g, 'A', 'G', 'F', 12.4, 'G', 2.2, [], st);
  }

  lemma DfsExplore6x1(g: Graph<char>, st: Dfs.State<char>)
    requires Loads(g) && st == Dfs.State({'A', 'B', 'C', 'E', 'D', 'I', 'F'}, map['B' := 'A', 'C' := 'B', 'E' := 'C', 'D' := 'E', 'I' := 'D', 'F' := 'I'], map['A' := 0.0, 'B' := 2.2, 'C' := 4.4, 'E' := 6.6, 'D' := 8.8, 'I' := 11.0, 'F' := 12.4], [DfsStep(0, 'A', 0.0, 1), DfsStep(1, 'B', 2.2, 2), DfsStep(2, 'C', 4.4, 3), DfsStep(3, 'E', 6.6, 4), DfsStep(4, 'D', 8.8, 5), DfsStep(5, 'I', 11.0, 6), DfsStep(6, 'F', 12.4, 7)], 7)
    ensures Dfs.Explore(g, 'A', 'G', 'F', 12.4, [('I', 1.4), ('G', 2.2)], st) == Dfs.Outcome(true, DfsFinal())
  {
    DfsExplore6x2(g, st);
    Skip(g, 'A', 'G', 'F', 12.4, 'I', 1.4, [('G', 2.2)], st);
  }

  lemma DfsExplore6x0(g: Graph<char>, st: Dfs.State<char>)
    requires Loads(g) && st == Dfs.State({'A', 'B', 'C', 'E', 'D', 'I', 'F'}, map['B' := 'A', 'C' := 'B', 'E' := 'C', 'D' := 'E', 'I' := 'D', 'F' := 'I'], map['A' := 0.0, 'B' := 2.2, 'C' := 4.4, 'E' := 6.6, 'D' := 8.8, 'I' := 11.0, 'F' := 12.4], [DfsStep(0, 'A', 0.0, 1), DfsStep(1, 'B', 2.2, 2), DfsStep(2, 'C', 4.4, 3), DfsStep(3, 'E', 6.6, 4), DfsStep(4, 'D', 8.8, 5), DfsStep(5, 'I', 11.0, 6), DfsStep(6, 'F', 12.4, 7)], 7)
    ensures Dfs.Explore(g, 'A', 'G', 'F', 12.4, [('E', 2.2), ('I', 1.4), ('G', 2.2)], st) == Dfs.Outcome(true, DfsFinal())
  {
    DfsExplore6x1(g, st);
    Skip(g, 'A', 'G', 'F', 12.4, 'E', 2.2, [('I', 1.4), ('G', 2.2)], st);
  }

  lemma DfsVisit6(g: Graph<char>, st: Dfs.State<char>)
    requires Loads(g) && st == DfsEntry6()
    requires 'F' in Universe(g, 'A')
    ensures Dfs.Visit(g, 'A', 'G', 'F', st) == Dfs.Outcome(true, DfsFinal())
  {
    DfsMark6(st);
    DfsExplore6x0(g, Dfs.Mark('F', st).(expanded := st.expanded + 1));
    Enter(g, 'A', 'G', 'F', st);
  }

  lemma DfsVisit7(g: Graph<char>, st: Dfs.State<char>)
    requires Loads(g) && st == DfsEntry7()
    requires 'G' in Universe(g, 'A')
    ensures Dfs.Visit(g, 'A', 'G', 'G', st) == Dfs.Outcome(true, DfsFinal())
  {
  }

  /** What DFS from A to G on the fixture returns. */
  function DfsResult(): SearchResult<char> {
    Found(['A', 'B', 'C', 'E', 'D', 'I', 'F', 'G'], 14.6, 7, DfsFinal().trace)
  }

  /** The parent links along the returned path, read off the final parent map. */
  lemma DfsLinks(p: map<char, char>)
    requires p == map['B' := 'A', 'C' := 'B', 'E' := 'C', 'D' := 'E', 'I' := 'D', 'F' := 'I', 'G' := 'F']
    ensures 'A' !in p && p.Keys >= {'B', 'C', 'E', 'D', 'I', 'F', 'G'} && p['B'] == 'A' && p['C'] == 'B' && p['E'] == 'C' && p['D'] == 'E' && p['I'] == 'D' && p['F'] == 'I' && p['G'] == 'F'
  {
  }

  /** `_reconstruct_path` follows those links back from the goal. */
  lemma DfsPath(p: map<char, char>, o: seq<char>)
    requires Ranked(p, o) && 'A' !in p && p.Keys >= {'B', 'C', 'E', 'D', 'I', 'F', 'G'} && p['B'] == 'A' && p['C'] == 'B' && p['E'] == 'C' && p['D'] == 'E' && p['I'] == 'D' && p['F'] == 'I' && p['G'] == 'F'
    ensures Reconstruct(p, 'G', o) == ['A', 'B', 'C', 'E', 'D', 'I', 'F', 'G']
  {
    assert Reconstruct(p, 'A', o) == ['A'];
    ReconstructLink(p, 'B', o, ['A']);
    ReconstructLink(p, 'C', o, ['A', 'B']);
    ReconstructLink(p, 'E', o, ['A', 'B', 'C']);
    ReconstructLink(p, 'D', o, ['A', 'B', 'C', 'E']);
    ReconstructLink(p, 'I', o, ['A', 'B', 'C', 'E', 'D']);
    ReconstructLink(p, 'F', o, ['A', 'B', 'C', 'E', 'D', 'I']);
    ReconstructLink(p, 'G', o, ['A', 'B', 'C', 'E', 'D', 'I', 'F']);
  }

  /** DFS from A to G on `load_graph()`'s map: visits A, B, C, E, D, I, F, G and returns that path at cost 14.6 after 7 expansions. */
  lemma DfsRun(g: Graph<char>)
    requires Loads(g) && Valid(g)
    ensures Dfs.Search(g, 'A', 'G') == DfsResult()
  {
    assert Dfs.Init('A') == DfsEntry0();
    DfsVisit0(g, Dfs.Init('A'));
    Dfs.InitPre(g, 'A', 'G');
    Dfs.VisitInv(g, 'A', 'G', 'A', Dfs.Init('A'));
    Dfs.SearchSound(g, 'A', 'G', Dfs.Outcome(true, DfsFinal()));
    DfsLinks(DfsFinal().parent);
    DfsPath(DfsFinal().parent, TraceNodes(DfsFinal().trace));
  }
}
