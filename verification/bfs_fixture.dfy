/**
 * `BFSSearch(GRAPH, 'A', 'G').search()` on the delivery map, pass by pass:
 * each state below is the search object after one more dequeue, and the
 * lemmas show that one pass of the loop turns each into the next.
 */
module BfsFixture {
  import opened Graphs
  import opened Paths
  import opened Results
  import Bfs
  import opened Fixture

  /** The neighbour loop takes the first neighbour, then carries on with the rest. */
  lemma ExploreCons(cur: char, curCost: real, a: char, w: real, rest: Adjacency<char>, st: Bfs.State<char>)
    ensures Bfs.Explore(cur, curCost, [(a, w)] + rest, st) == Bfs.Explore(cur, curCost, rest, Bfs.Discover(cur, curCost, a, w, st))
  {
    assert ([(a, w)] + rest)[1..] == rest;
  }

  /** A pass that dequeues a node other than the goal records it and explores its neighbours. */
  lemma StepExpand(g: Graph<char>, goal: char, st: Bfs.State<char>, cur: char, c: real)
    requires |st.queue| > 0 && st.queue[0] == cur && cur in st.cost && st.cost[cur] == c
    requires Ranked(st.parent, Bfs.Order(st)) && cur != goal
    ensures Bfs.Step(g, goal, st) == Bfs.Continue(Bfs.Explore(cur, c, Neighbors(g, cur), Bfs.Expanded(st)))
  {
  }

  /** From a state satisfying the loop invariant, the loop runs on from the state after one pass. */
  lemma LoopNext(g: Graph<char>, start: char, goal: char, st: Bfs.State<char>)
    requires Bfs.Inv(g, start, goal, st) && |st.queue| > 0 && st.queue[0] != goal
    ensures Bfs.Step(g, goal, st).Continue? && Bfs.Inv(g, start, goal, Bfs.Step(g, goal, st).next)
    ensures Bfs.Loop(g, start, goal, st) == Bfs.Loop(g, start, goal, Bfs.Step(g, goal, st).next)
  {
    Bfs.ExpandInv(g, start, goal, st);
  }

  /** Dequeuing the goal ends the loop with what that pass returns. */
  lemma LoopGoal(g: Graph<char>, start: char, goal: char, st: Bfs.State<char>)
    requires Bfs.Inv(g, start, goal, st) && |st.queue| > 0 && st.queue[0] == goal
    ensures Bfs.Step(g, goal, st).Done?
    ensures Bfs.Loop(g, start, goal, st) == Bfs.Step(g, goal, st).result
  {
    Bfs.GoalSound(g, start, goal, st);
  }

  // --- BFS from A to G ------------------------------------------------------

  function BfsS0(): Bfs.State<char> {
    Bfs.State(['A'], {'A'}, map[], map['A' := 0.0], [], 0)
  }

  function BfsS1(): Bfs.State<char> {
    Bfs.State(['B', 'H', 'C'], {'A', 'B', 'H', 'C'}, map['B' := 'A', 'H' := 'A', 'C' := 'A'], map['A' := 0.0, 'B' := 2.2, 'H' := 2.2, 'C' := 3.2], [BfsStep(0, 'A', 0.0, 0, 1)], 1)
  }

  function BfsS2(): Bfs.State<char> {
    Bfs.State(['H', 'C', 'E', 'D'], {'A', 'B', 'H', 'C', 'E', 'D'}, map['B' := 'A', 'H' := 'A', 'C' := 'A', 'E' := 'B', 'D' := 'B'], map['A' := 0.0, 'B' := 2.2, 'H' := 2.2, 'C' := 3.2, 'E' := 3.6, 'D' := 4.4], [BfsStep(0, 'A', 0.0, 0, 1), BfsStep(1, 'B', 2.2, 2, 4)], 2)
  }

  function BfsS3(): Bfs.State<char> {
    Bfs.State(['C', 'E', 'D'], {'A', 'B', 'H', 'C', 'E', 'D'}, map['B' := 'A', 'H' := 'A', 'C' := 'A', 'E' := 'B', 'D' := 'B'], map['A' := 0.0, 'B' := 2.2, 'H' := 2.2, 'C' := 3.2, 'E' := 3.6, 'D' := 4.4], [BfsStep(0, 'A', 0.0, 0, 1), BfsStep(1, 'B', 2.2, 2, 4), BfsStep(2, 'H', 2.2, 3, 6)], 3)
  }

  function BfsS4(): Bfs.State<char> {
    Bfs.State(['E', 'D'], {'A', 'B', 'H', 'C', 'E', 'D'}, map['B' := 'A', 'H' := 'A', 'C' := 'A', 'E' := 'B', 'D' := 'B'], map['A' := 0.0, 'B' := 2.2, 'H' := 2.2, 'C' := 3.2, 'E' := 3.6, 'D' := 4.4], [BfsStep(0, 'A', 0.0, 0, 1), BfsStep(1, 'B', 2.2, 2, 4), BfsStep(2, 'H', 2.2, 3, 6), BfsStep(3, 'C', 3.2, 2, 6)], 4)
  }

  function BfsS5(): Bfs.State<char> {
    Bfs.State(['D', 'F', 'I'], {'A', 'B', 'H', 'C', 'E', 'D', 'F', 'I'}, map['B' := 'A', 'H' := 'A', 'C' := 'A', 'E' := 'B', 'D' := 'B', 'F' := 'E', 'I' := 'E'], map['A' := 0.0, 'B' := 2.2, 'H' := 2.2, 'C' := 3.2, 'E' := 3.6, 'D' := 4.4, 'F' := 5.8, 'I' := 5.0], [BfsStep(0, 'A', 0.0, 0, 1), BfsStep(1, 'B', 2.2, 2, 4), BfsStep(2, 'H', 2.2, 3, 6), BfsStep(3, 'C', 3.2, 2, 6), BfsStep(4, 'E', 3.6, 1, 6)], 5)
  }

  function BfsS6(): Bfs.State<char> {
    Bfs.State(['F', 'I', 'G'], {'A', 'B', 'H', 'C', 'E', 'D', 'F', 'I', 'G'}, map['B' := 'A', 'H' := 'A', 'C' := 'A', 'E' := 'B', 'D' := 'B', 'F' := 'E', 'I' := 'E', 'G' := 'D'], map['A' := 0.0, 'B' := 2.2, 'H' := 2.2, 'C' := 3.2, 'E' := 3.6, 'D' := 4.4, 'F' := 5.8, 'I' := 5.0, 'G' := 6.6], [BfsStep(0, 'A', 0.0, 0, 1), BfsStep(1, 'B', 2.2, 2, 4), BfsStep(2, 'H', 2.2, 3, 6), BfsStep(3, 'C', 3.2, 2, 6), BfsStep(4, 'E', 3.6, 1, 6), BfsStep(5, 'D', 4.4, 2, 8)], 6)
  }

  function BfsS7(): Bfs.State<char> {
    Bfs.State(['I', 'G'], {'A', 'B', 'H', 'C', 'E', 'D', 'F', 'I', 'G'}, map['B' := 'A', 'H' := 'A', 'C' := 'A', 'E' := 'B', 'D' := 'B', 'F' := 'E', 'I' := 'E', 'G' := 'D'], map['A' := 0.0, 'B' := 2.2, 'H' := 2.2, 'C' := 3.2, 'E' := 3.6, 'D' := 4.4, 'F' := 5.8, 'I' := 5.0, 'G' := 6.6], [BfsStep(0, 'A', 0.0, 0, 1), BfsStep(1, 'B', 2.2, 2, 4), BfsStep(2, 'H', 2.2, 3, 6), BfsStep(3, 'C', 3.2, 2, 6), BfsStep(4, 'E', 3.6, 1, 6), BfsStep(5, 'D', 4.4, 2, 8), BfsStep(6, 'F', 5.8, 2, 9)], 7)
  }

  function BfsS8(): Bfs.State<char> {
    Bfs.State(['G'], {'A', 'B', 'H', 'C', 'E', 'D', 'F', 'I', 'G'}, map['B' := 'A', 'H' := 'A', 'C' := 'A', 'E' := 'B', 'D' := 'B', 'F' := 'E', 'I' := 'E', 'G' := 'D'], map['A' := 0.0, 'B' := 2.2, 'H' := 2.2, 'C' := 3.2, 'E' := 3.6, 'D' := 4.4, 'F' := 5.8, 'I' := 5.0, 'G' := 6.6], [BfsStep(0, 'A', 0.0, 0, 1), BfsStep(1, 'B', 2.2, 2, 4), BfsStep(2, 'H', 2.2, 3, 6), BfsStep(3, 'C', 3.2, 2, 6), BfsStep(4, 'E', 3.6, 1, 6), BfsStep(5, 'D', 4.4, 2, 8), BfsStep(6, 'F', 5.8, 2, 9), BfsStep(7, 'I', 5.0, 1, 9)], 8)
  }

  lemma BfsTail0x3(st: Bfs.State<char>)
    requires st == Bfs.State(['B', 'H', 'C'], {'A', 'B', 'H', 'C'}, map['B' := 'A', 'H' := 'A', 'C' := 'A'], map['A' := 0.0, 'B' := 2.2, 'H' := 2.2, 'C' := 3.2], [BfsStep(0, 'A', 0.0, 0, 1)], 1)
    ensures Bfs.Explore('A', 0.0, [], st) == BfsS1()
  {
  }

  lemma BfsTail0x2(st: Bfs.State<char>)
    requires st == Bfs.State(['B', 'H'], {'A', 'B', 'H'}, map['B' := 'A', 'H' := 'A'], map['A' := 0.0, 'B' := 2.2, 'H' := 2.2], [BfsStep(0, 'A', 0.0, 0, 1)], 1)
    ensures Bfs.Explore('A', 0.0, [('C', 3.2)], st) == BfsS1()
  {
    BfsTail0x3(Bfs.Discover('A', 0.0, 'C', 3.2, st));
    ExploreCons('A', 0.0, 'C', 3.2, [], st);
  }

  lemma BfsTail0x1(st: Bfs.State<char>)
    requires st == Bfs.State(['B'], {'A', 'B'}, map['B' := 'A'], map['A' := 0.0, 'B' := 2.2], [BfsStep(0, 'A', 0.0, 0, 1)], 1)
    ensures Bfs.Explore('A', 0.0, [('H', 2.2), ('C', 3.2)], st) == BfsS1()
  {
    BfsTail0x2(Bfs.Discover('A', 0.0, 'H', 2.2, st));
    ExploreCons('A', 0.0, 'H', 2.2, [('C', 3.2)], st);
  }

  lemma BfsTail0x0(st: Bfs.State<char>)
    requires st == Bfs.State([], {'A'}, map[], map['A' := 0.0], [BfsStep(0, 'A', 0.0, 0, 1)], 1)
    ensures Bfs.Explore('A', 0.0, [('B', 2.2), ('H', 2.2), ('C', 3.2)], st) == BfsS1()
  {
    BfsTail0x1(Bfs.Discover('A', 0.0, 'B', 2.2, st));
    ExploreCons('A', 0.0, 'B', 2.2, [('H', 2.2), ('C', 3.2)], st);
  }

  lemma BfsExpanded0(st: Bfs.State<char>)
    requires st == BfsS0()
    ensures st.queue[0] in st.cost && Bfs.Expanded(st) == Bfs.State([], {'A'}, map[], map['A' := 0.0], [BfsStep(0, 'A', 0.0, 0, 1)], 1)
  {
  }

  lemma BfsStep0(g: Graph<char>, st: Bfs.State<char>)
    requires Loads(g) && st == BfsS0() && Ranked(st.parent, Bfs.Order(st))
    ensures st.queue[0] == 'A'
    ensures Bfs.Step(g, 'G', st) == Bfs.Continue(BfsS1())
  {
    StepExpand(g, 'G', st, 'A', 0.0);
    BfsExpanded0(st);
    BfsTail0x0(Bfs.Expanded(st));
  }

  lemma BfsTail1x5(st: Bfs.State<char>)
    requires st == Bfs.State(['H', 'C', 'E', 'D'], {'A', 'B', 'H', 'C', 'E', 'D'}, map['B' := 'A', 'H' := 'A', 'C' := 'A', 'E' := 'B', 'D' := 'B'], map['A' := 0.0, 'B' := 2.2, 'H' := 2.2, 'C' := 3.2, 'E' := 3.6, 'D' := 4.4], [BfsStep(0, 'A', 0.0, 0, 1), BfsStep(1, 'B', 2.2, 2, 4)], 2)
    ensures Bfs.Explore('B', 2.2, [], st) == BfsS2()
  {
  }

  lemma BfsTail1x4(st: Bfs.State<char>)
    requires st == Bfs.State(['H', 'C', 'E'], {'A', 'B', 'H', 'C', 'E'}, map['B' := 'A', 'H' := 'A', 'C' := 'A', 'E' := 'B'], map['A' := 0.0, 'B' := 2.2, 'H' := 2.2, 'C' := 3.2, 'E' := 3.6], [BfsStep(0, 'A', 0.0, 0, 1), BfsStep(1, 'B', 2.2, 2, 4)], 2)
    ensures Bfs.Explore('B', 2.2, [('D', 2.2)], st) == BfsS2()
  {
    BfsTail1x5(Bfs.Discover('B', 2.2, 'D', 2.2, st));
    ExploreCons('B', 2.2, 'D', 2.2, [], st);
  }

  lemma BfsTail1x3(st: Bfs.State<char>)
    requires st == Bfs.State(['H', 'C', 'E'], {'A', 'B', 'H', 'C', 'E'}, map['B' := 'A', 'H' := 'A', 'C' := 'A', 'E' := 'B'], map['A' := 0.0, 'B' := 2.2, 'H' := 2.2, 'C' := 3.2, 'E' := 3.6], [BfsStep(0, 'A', 0.0, 0, 1), BfsStep(1, 'B', 2.2, 2, 4)], 2)
    ensures Bfs.Explore('B', 2.2, [('H', 2.2), ('D', 2.2)], st) == BfsS2()
  {
    BfsTail1x4(Bfs.Discover('B', 2.2, 'H', 2.2, st));
    ExploreCons('B', 2.2, 'H', 2.2, [('D', 2.2)], st);
  }

  lemma BfsTail1x2(st: Bfs.State<char>)
    requires st == Bfs.State(['H', 'C'], {'A', 'B', 'H', 'C'}, map['B' := 'A', 'H' := 'A', 'C' := 'A'], map['A' := 0.0, 'B' := 2.2, 'H' := 2.2, 'C' := 3.2], [BfsStep(0, 'A', 0.0, 0, 1), BfsStep(1, 'B', 2.2, 2, 4)], 2)
    ensures Bfs.Explore('B', 2.2, [('E', 1.4), ('H', 2.2), ('D', 2.2)], st) == BfsS2()
  {
    BfsTail1x3(Bfs.Discover('B', 2.2, 'E', 1.4, st));
    ExploreCons('B', 2.2, 'E', 1.4, [('H', 2.2), ('D', 2.2)], st);
  }

  lemma BfsTail1x1(st: Bfs.State<char>)
    requires st == Bfs.State(['H', 'C'], {'A', 'B', 'H', 'C'}, map['B' := 'A', 'H' := 'A', 'C' := 'A'], map['A' := 0.0, 'B' := 2.2, 'H' := 2.2, 'C' := 3.2], [BfsStep(0, 'A', 0.0, 0, 1), BfsStep(1, 'B', 2.2, 2, 4)], 2)
    ensures Bfs.Explore('B', 2.2, [('C', 2.2), ('E', 1.4), ('H', 2.2), ('D', 2.2)], st) == BfsS2()
  {
    BfsTail1x2(Bfs.Discover('B', 2.2, 'C', 2.2, st));
    ExploreCons('B', 2.2, 'C', 2.2, [('E', 1.4), ('H', 2.2), ('D', 2.2)], st);
  }

  lemma BfsTail1x0(st: Bfs.State<char>)
    requires st == Bfs.State(['H', 'C'], {'A', 'B', 'H', 'C'}, map['B' := 'A', 'H' := 'A', 'C' := 'A'], map['A' := 0.0, 'B' := 2.2, 'H' := 2.2, 'C' := 3.2], [BfsStep(0, 'A', 0.0, 0, 1), BfsStep(1, 'B', 2.2, 2, 4)], 2)
    ensures Bfs.Explore('B', 2.2, [('A', 2.2), ('C', 2.2), ('E', 1.4), ('H', 2.2), ('D', 2.2)], st) == BfsS2()
  {
    BfsTail1x1(Bfs.Discover('B', 2.2, 'A', 2.2, st));
    ExploreCons('B', 2.2, 'A', 2.2, [('C', 2.2), ('E', 1.4), ('H', 2.2), ('D', 2.2)], st);
  }

  lemma BfsExpanded1(st: Bfs.State<char>)
    requires st == BfsS1()
    ensures st.queue[0] in st.cost && Bfs.Expanded(st) == Bfs.State(['H', 'C'], {'A', 'B', 'H', 'C'}, map['B' := 'A', 'H' := 'A', 'C' := 'A'], map['A' := 0.0, 'B' := 2.2, 'H' := 2.2, 'C' := 3.2], [BfsStep(0, 'A', 0.0, 0, 1), BfsStep(1, 'B', 2.2, 2, 4)], 2)
  {
  }

  lemma BfsStep1(g: Graph<char>, st: Bfs.State<char>)
    requires Loads(g) && st == BfsS1() && Ranked(st.parent, Bfs.Order(st))
    ensures st.queue[0] == 'B'
    ensures Bfs.Step(g, 'G', st) == Bfs.Continue(BfsS2())
  {
    StepExpand(g, 'G', st, 'B', 2.2);
    BfsExpanded1(st);
    BfsTail1x0(Bfs.Expanded(st));
  }

  lemma BfsTail2x3(st: Bfs.State<char>)
    requires st == Bfs.State(['C', 'E', 'D'], {'A', 'B', 'H', 'C', 'E', 'D'}, map['B' := 'A', 'H' := 'A', 'C' := 'A', 'E' := 'B', 'D' := 'B'], map['A' := 0.0, 'B' := 2.2, 'H' := 2.2, 'C' := 3.2, 'E' := 3.6, 'D' := 4.4], [BfsStep(0, 'A', 0.0, 0, 1), BfsStep(1, 'B', 2.2, 2, 4), BfsStep(2, 'H', 2.2, 3, 6)], 3)
    ensures Bfs.Explore('H', 2.2, [], st) == BfsS3()
  {
  }

  lemma BfsTail2x2(st: Bfs.State<char>)
    requires st == Bfs.State(['C', 'E', 'D'], {'A', 'B', 'H', 'C', 'E', 'D'}, map['B' := 'A', 'H' := 'A', 'C' := 'A', 'E' := 'B', 'D' := 'B'], map['A' := 0.0, 'B' := 2.2, 'H' := 2.2, 'C' := 3.2, 'E' := 3.6, 'D' := 4.4], [BfsStep(0, 'A', 0.0, 0, 1), BfsStep(1, 'B', 2.2, 2, 4), BfsStep(2, 'H', 2.2, 3, 6)], 3)
    ensures Bfs.Explore('H', 2.2, [('D', 2.2)], st) == BfsS3()
  {
    BfsTail2x3(Bfs.Discover('H', 2.2, 'D', 2.2, st));
    ExploreCons('H', 2.2, 'D', 2.2, [], st);
  }

  lemma BfsTail2x1(st: Bfs.State<char>)
    requires st == Bfs.State(['C', 'E', 'D'], {'A', 'B', 'H', 'C', 'E', 'D'}, map['B' := 'A', 'H' := 'A', 'C' := 'A', 'E' := 'B', 'D' := 'B'], map['A' := 0.0, 'B' := 2.2, 'H' := 2.2, 'C' := 3.2, 'E' := 3.6, 'D' := 4.4], [BfsStep(0, 'A', 0.0, 0, 1), BfsStep(1, 'B', 2.2, 2, 4), BfsStep(2, 'H', 2.2, 3, 6)], 3)
    ensures Bfs.Explore('H', 2.2, [('B', 2.2), ('D', 2.2)], st) == BfsS3()
  {
    BfsTail2x2(Bfs.Discover('H', 2.2, 'B', 2.2, st));
    ExploreCons('H', 2.2, 'B', 2.2, [('D', 2.2)], st);
  }

  lemma BfsTail2x0(st: Bfs.State<char>)
    requires st == Bfs.State(['C', 'E', 'D'], {'A', 'B', 'H', 'C', 'E', 'D'}, map['B' := 'A', 'H' := 'A', 'C' := 'A', 'E' := 'B', 'D' := 'B'], map['A' := 0.0, 'B' := 2.2, 'H' := 2.2, 'C' := 3.2, 'E' := 3.6, 'D' := 4.4], [BfsStep(0, 'A', 0.0, 0, 1), BfsStep(1, 'B', 2.2, 2, 4), BfsStep(2, 'H', 2.2, 3, 6)], 3)
    ensures Bfs.Explore('H', 2.2, [('A', 2.2), ('B', 2.2), ('D', 2.2)], st) == BfsS3()
  {
    BfsTail2x1(Bfs.Discover('H', 2.2, 'A', 2.2, st));
    ExploreCons('H', 2.2, 'A', 2.2, [('B', 2.2), ('D', 2.2)], st);
  }

  lemma BfsExpanded2(st: Bfs.State<char>)
    requires st == BfsS2()
    ensures st.queue[0] in st.cost && Bfs.Expanded(st) == Bfs.State(['C', 'E', 'D'], {'A', 'B', 'H', 'C', 'E', 'D'}, map['B' := 'A', 'H' := 'A', 'C' := 'A', 'E' := 'B', 'D' := 'B'], map['A' := 0.0, 'B' := 2.2, 'H' := 2.2, 'C' := 3.2, 'E' := 3.6, 'D' := 4.4], [BfsStep(0, 'A', 0.0, 0, 1), BfsStep(1, 'B', 2.2, 2, 4), BfsStep(2, 'H', 2.2, 3, 6)], 3)
  {
  }

  lemma BfsStep2(g: Graph<char>, st: Bfs.State<char>)
    requires Loads(g) && st == BfsS2() && Ranked(st.parent, Bfs.Order(st))
    ensures st.queue[0] == 'H'
    ensures Bfs.Step(g, 'G', st) == Bfs.Continue(BfsS3())
  {
    StepExpand(g, 'G', st, 'H', 2.2);
    BfsExpanded2(st);
    BfsTail2x0(Bfs.Expanded(st));
  }

  lemma BfsTail3x3(st: Bfs.State<char>)
    requires st == Bfs.State(['E', 'D'], {'A', 'B', 'H', 'C', 'E', 'D'}, map['B' := 'A', 'H' := 'A', 'C' := 'A', 'E' := 'B', 'D' := 'B'], map['A' := 0.0, 'B' := 2.2, 'H' := 2.2, 'C' := 3.2, 'E' := 3.6, 'D' := 4.4], [BfsStep(0, 'A', 0.0, 0, 1), BfsStep(1, 'B', 2.2, 2, 4), BfsStep(2, 'H', 2.2, 3, 6), BfsStep(3, 'C', 3.2, 2, 6)], 4)
    ensures Bfs.Explore('C', 3.2, [], st) == BfsS4()
  {
  }

  lemma BfsTail3x2(st: Bfs.State<char>)
    requires st == Bfs.State(['E', 'D'], {'A', 'B', 'H', 'C', 'E', 'D'}, map['B' := 'A', 'H' := 'A', 'C' := 'A', 'E' := 'B', 'D' := 'B'], map['A' := 0.0, 'B' := 2.2, 'H' := 2.2, 'C' := 3.2, 'E' := 3.6, 'D' := 4.4], [BfsStep(0, 'A', 0.0, 0, 1), BfsStep(1, 'B', 2.2, 2, 4), BfsStep(2, 'H', 2.2, 3, 6), BfsStep(3, 'C', 3.2, 2, 6)], 4)
    ensures Bfs.Explore('C', 3.2, [('E', 2.2)], st) == BfsS4()
  {
    BfsTail3x3(Bfs.Discover('C', 3.2, 'E', 2.2, st));
    ExploreCons('C', 3.2, 'E', 2.2, [], st);
  }

  lemma BfsTail3x1(st: Bfs.State<char>)
    requires st == Bfs.State(['E', 'D'], {'A', 'B', 'H', 'C', 'E', 'D'}, map['B' := 'A', 'H' := 'A', 'C' := 'A', 'E' := 'B', 'D' := 'B'], map['A' := 0.0, 'B' := 2.2, 'H' := 2.2, 'C' := 3.2, 'E' := 3.6, 'D' := 4.4], [BfsStep(0, 'A', 0.0, 0, 1), BfsStep(1, 'B', 2.2, 2, 4), BfsStep(2, 'H', 2.2, 3, 6), BfsStep(3, 'C', 3.2, 2, 6)], 4)
    ensures Bfs.Explore('C', 3.2, [('B', 2.2), ('E', 2.2)], st) == BfsS4()
  {
    BfsTail3x2(Bfs.Discover('C', 3.2, 'B', 2.2, st));
    ExploreCons('C', 3.2, 'B', 2.2, [('E', 2.2)], st);
  }

  lemma BfsTail3x0(st: Bfs.State<char>)
    requires st == Bfs.State(['E', 'D'], {'A', 'B', 'H', 'C', 'E', 'D'}, map['B' := 'A', 'H' := 'A', 'C' := 'A', 'E' := 'B', 'D' := 'B'], map['A' := 0.0, 'B' := 2.2, 'H' := 2.2, 'C' := 3.2, 'E' := 3.6, 'D' := 4.4], [BfsStep(0, 'A', 0.0, 0, 1), BfsStep(1, 'B', 2.2, 2, 4), BfsStep(2, 'H', 2.2, 3, 6), BfsStep(3, 'C', 3.2, 2, 6)], 4)
    ensures Bfs.Explore('C', 3.2, [('A', 3.2), ('B', 2.2), ('E', 2.2)], st) == BfsS4()
  {
    BfsTail3x1(Bfs.Discover('C', 3.2, 'A', 3.2, st));
    ExploreCons('C', 3.2, 'A', 3.2, [('B', 2.2), ('E', 2.2)], st);
  }

  lemma BfsExpanded3(st: Bfs.State<char>)
    requires st == BfsS3()
    ensures st.queue[0] in st.cost && Bfs.Expanded(st) == Bfs.State(['E', 'D'], {'A', 'B', 'H', 'C', 'E', 'D'}, map['B' := 'A', 'H' := 'A', 'C' := 'A', 'E' := 'B', 'D' := 'B'], map['A' := 0.0, 'B' := 2.2, 'H' := 2.2, 'C' := 3.2, 'E' := 3.6, 'D' := 4.4], [BfsStep(0, 'A', 0.0, 0, 1), BfsStep(1, 'B', 2.2, 2, 4), BfsStep(2, 'H', 2.2, 3, 6), BfsStep(3, 'C', 3.2, 2, 6)], 4)
  {
  }

  lemma BfsStep3(g: Graph<char>, st: Bfs.State<char>)
    requires Loads(g) && st == BfsS3() && Ranked(st.parent, Bfs.Order(st))
    ensures st.queue[0] == 'C'
    ensures Bfs.Step(g, 'G', st) == Bfs.Continue(BfsS4())
  {
    StepExpand(g, 'G', st, 'C', 3.2);
    BfsExpanded3(st);
    BfsTail3x0(Bfs.Expanded(st));
  }

  lemma BfsTail4x5(st: Bfs.State<char>)
    requires st == Bfs.State(['D', 'F', 'I'], {'A', 'B', 'H', 'C', 'E', 'D', 'F', 'I'}, map['B' := 'A', 'H' := 'A', 'C' := 'A', 'E' := 'B', 'D' := 'B', 'F' := 'E', 'I' := 'E'], map['A' := 0.0, 'B' := 2.2, 'H' := 2.2, 'C' := 3.2, 'E' := 3.6, 'D' := 4.4, 'F' := 5.8, 'I' := 5.0], [BfsStep(0, 'A', 0.0, 0, 1), BfsStep(1, 'B', 2.2, 2, 4), BfsStep(2, 'H', 2.2, 3, 6), BfsStep(3, 'C', 3.2, 2, 6), BfsStep(4, 'E', 3.6, 1, 6)], 5)
    ensures Bfs.Explore('E', 3.6, [], st) == BfsS5()
  {
  }

  lemma BfsTail4x4(st: Bfs.State<char>)
    requires st == Bfs.State(['D', 'F'], {'A', 'B', 'H', 'C', 'E', 'D', 'F'}, map['B' := 'A', 'H' := 'A', 'C' := 'A', 'E' := 'B', 'D' := 'B', 'F' := 'E'], map['A' := 0.0, 'B' := 2.2, 'H' := 2.2, 'C' := 3.2, 'E' := 3.6, 'D' := 4.4, 'F' := 5.8], [BfsStep(0, 'A', 0.0, 0, 1), BfsStep(1, 'B', 2.2, 2, 4), BfsStep(2, 'H', 2.2, 3, 6), BfsStep(3, 'C', 3.2, 2, 6), BfsStep(4, 'E', 3.6, 1, 6)], 5)
    ensures Bfs.Explore('E', 3.6, [('I', 1.4)], st) == BfsS5()
  {
    BfsTail4x5(Bfs.Discover('E', 3.6, 'I', 1.4, st));
    ExploreCons('E', 3.6, 'I', 1.4, [], st);
  }

  lemma BfsTail4x3(st: Bfs.State<char>)
    requires st == Bfs.State(['D'], {'A', 'B', 'H', 'C', 'E', 'D'}, map['B' := 'A', 'H' := 'A', 'C' := 'A', 'E' := 'B', 'D' := 'B'], map['A' := 0.0, 'B' := 2.2, 'H' := 2.2, 'C' := 3.2, 'E' := 3.6, 'D' := 4.4], [BfsStep(0, 'A', 0.0, 0, 1), BfsStep(1, 'B', 2.2, 2, 4), BfsStep(2, 'H', 2.2, 3, 6), BfsStep(3, 'C', 3.2, 2, 6), BfsStep(4, 'E', 3.6, 1, 6)], 5)
    ensures Bfs.Explore('E', 3.6, [('F', 2.2), ('I', 1.4)], st) == BfsS5()
  {
    BfsTail4x4(Bfs.Discover('E', 3.6, 'F', 2.2, st));
    ExploreCons('E', 3.6, 'F', 2.2, [('I', 1.4)], st);
  }

  lemma BfsTail4x2(st: Bfs.State<char>)
    requires st == Bfs.State(['D'], {'A', 'B', 'H', 'C', 'E', 'D'}, map['B' := 'A', 'H' := 'A', 'C' := 'A', 'E' := 'B', 'D' := 'B'], map['A' := 0.0, 'B' := 2.2, 'H' := 2.2, 'C' := 3.2, 'E' := 3.6, 'D' := 4.4], [BfsStep(0, 'A', 0.0, 0, 1), BfsStep(1, 'B', 2.2, 2, 4), BfsStep(2, 'H', 2.2, 3, 6), BfsStep(3, 'C', 3.2, 2, 6), BfsStep(4, 'E', 3.6, 1, 6)], 5)
    ensures Bfs.Explore('E', 3.6, [('D', 2.2), ('F', 2.2), ('I', 1.4)], st) == BfsS5()
  {
    BfsTail4x3(Bfs.Discover('E', 3.6, 'D', 2.2, st));
    ExploreCons('E', 3.6, 'D', 2.2, [('F', 2.2), ('I', 1.4)], st);
  }

  lemma BfsTail4x1(st: Bfs.State<char>)
    requires st == Bfs.State(['D'], {'A', 'B', 'H', 'C', 'E', 'D'}, map['B' := 'A', 'H' := 'A', 'C' := 'A', 'E' := 'B', 'D' := 'B'], map['A' := 0.0, 'B' := 2.2, 'H' := 2.2, 'C' := 3.2, 'E' := 3.6, 'D' := 4.4], [BfsStep(0, 'A', 0.0, 0, 1), BfsStep(1, 'B', 2.2, 2, 4), BfsStep(2, 'H', 2.2, 3, 6), BfsStep(3, 'C', 3.2, 2, 6), BfsStep(4, 'E', 3.6, 1, 6)], 5)
    ensures Bfs.Explore('E', 3.6, [('C', 2.2), ('D', 2.2), ('F', 2.2), ('I', 1.4)], st) == BfsS5()
  {
    BfsTail4x2(Bfs.Discover('E', 3.6, 'C', 2.2, st));
    ExploreCons('E', 3.6, 'C', 2.2, [('D', 2.2), ('F', 2.2), ('I', 1.4)], st);
  }

  lemma BfsTail4x0(st: Bfs.State<char>)
    requires st == Bfs.State(['D'], {'A', 'B', 'H', 'C', 'E', 'D'}, map['B' := 'A', 'H' := 'A', 'C' := 'A', 'E' := 'B', 'D' := 'B'], map['A' := 0.0, 'B' := 2.2, 'H' := 2.2, 'C' := 3.2, 'E' := 3.6, 'D' := 4.4], [BfsStep(0, 'A', 0.0, 0, 1), BfsStep(1, 'B', 2.2, 2, 4), BfsStep(2, 'H', 2.2, 3, 6), BfsStep(3, 'C', 3.2, 2, 6), BfsStep(4, 'E', 3.6, 1, 6)], 5)
    ensures Bfs.Explore('E', 3.6, [('B', 1.4), ('C', 2.2), ('D', 2.2), ('F', 2.2), ('I', 1.4)], st) == BfsS5()
  {
    BfsTail4x1(Bfs.Discover('E', 3.6, 'B', 1.4, st));
    ExploreCons('E', 3.6, 'B', 1.4, [('C', 2.2), ('D', 2.2), ('F', 2.2), ('I', 1.4)], st);
  }

  lemma BfsExpanded4(st: Bfs.State<char>)
    requires st == BfsS4()
    ensures st.queue[0] in st.cost && Bfs.Expanded(st) == Bfs.State(['D'], {'A', 'B', 'H', 'C', 'E', 'D'}, map['B' := 'A', 'H' := 'A', 'C' := 'A', 'E' := 'B', 'D' := 'B'], map['A' := 0.0, 'B' := 2.2, 'H' := 2.2, 'C' := 3.2, 'E' := 3.6, 'D' := 4.4], [BfsStep(0, 'A', 0.0, 0, 1), BfsStep(1, 'B', 2.2, 2, 4), BfsStep(2, 'H', 2.2, 3, 6), BfsStep(3, 'C', 3.2, 2, 6), BfsStep(4, 'E', 3.6, 1, 6)], 5)
  {
  }

  lemma BfsStep4(g: Graph<char>, st: Bfs.State<char>)
    requires Loads(g) && st == BfsS4() && Ranked(st.parent, Bfs.Order(st))
    ensures st.queue[0] == 'E'
    ensures Bfs.Step(g, 'G', st) == Bfs.Continue(BfsS5())
  {
    StepExpand(g, 'G', st, 'E', 3.6);
    BfsExpanded4(st);
    BfsTail4x0(Bfs.Expanded(st));
  }

  lemma BfsTail5x5(st: Bfs.State<char>)
    requires st == Bfs.State(['F', 'I', 'G'], {'A', 'B', 'H', 'C', 'E', 'D', 'F', 'I', 'G'}, map['B' := 'A', 'H' := 'A', 'C' := 'A', 'E' := 'B', 'D' := 'B', 'F' := 'E', 'I' := 'E', 'G' := 'D'], map['A' := 0.0, 'B' := 2.2, 'H' := 2.2, 'C' := 3.2, 'E' := 3.6, 'D' := 4.4, 'F' := 5.8, 'I' := 5.0, 'G' := 6.6], [BfsStep(0, 'A', 0.0, 0, 1), BfsStep(1, 'B', 2.2, 2, 4), BfsStep(2, 'H', 2.2, 3, 6), BfsStep(3, 'C', 3.2, 2, 6), BfsStep(4, 'E', 3.6, 1, 6), BfsStep(5, 'D', 4.4, 2, 8)], 6)
    ensures Bfs.Explore('D', 4.4, [], st) == BfsS6()
  {
  }

  lemma BfsTail5x4(st: Bfs.State<char>)
    requires st == Bfs.State(['F', 'I', 'G'], {'A', 'B', 'H', 'C', 'E', 'D', 'F', 'I', 'G'}, map['B' := 'A', 'H' := 'A', 'C' := 'A', 'E' := 'B', 'D' := 'B', 'F' := 'E', 'I' := 'E', 'G' := 'D'], map['A' := 0.0, 'B' := 2.2, 'H' := 2.2, 'C' := 3.2, 'E' := 3.6, 'D' := 4.4, 'F' := 5.8, 'I' := 5.0, 'G' := 6.6], [BfsStep(0, 'A', 0.0, 0, 1), BfsStep(1, 'B', 2.2, 2, 4), BfsStep(2, 'H', 2.2, 3, 6), BfsStep(3, 'C', 3.2, 2, 6), BfsStep(4, 'E', 3.6, 1, 6), BfsStep(5, 'D', 4.4, 2, 8)], 6)
    ensures Bfs.Explore('D', 4.4, [('H', 2.2)], st) == BfsS6()
  {
    BfsTail5x5(Bfs.Discover('D', 4.4, 'H', 2.2, st));
    ExploreCons('D', 4.4, 'H', 2.2, [], st);
  }

  lemma BfsTail5x3(st: Bfs.State<char>)
    requires st == Bfs.State(['F', 'I'], {'A', 'B', 'H', 'C', 'E', 'D', 'F', 'I'}, map['B' := 'A', 'H' := 'A', 'C' := 'A', 'E' := 'B', 'D' := 'B', 'F' := 'E', 'I' := 'E'], map['A' := 0.0, 'B' := 2.2, 'H' := 2.2, 'C' := 3.2, 'E' := 3.6, 'D' := 4.4, 'F' := 5.8, 'I' := 5.0], [BfsStep(0, 'A', 0.0, 0, 1), BfsStep(1, 'B', 2.2, 2, 4), BfsStep(2, 'H', 2.2, 3, 6), BfsStep(3, 'C', 3.2, 2, 6), BfsStep(4, 'E', 3.6, 1, 6), BfsStep(5, 'D', 4.4, 2, 8)], 6)
    ensures Bfs.Explore('D', 4.4, [('G', 2.2), ('H', 2.2)], st) == BfsS6()
  {
    BfsTail5x4(Bfs.Discover('D', 4.4, 'G', 2.2, st));
    ExploreCons('D', 4.4, 'G', 2.2, [('H', 2.2)], st);
  }

  lemma BfsTail5x2(st: Bfs.State<char>)
    requires st == Bfs.State(['F', 'I'], {'A', 'B', 'H', 'C', 'E', 'D', 'F', 'I'}, map['B' := 'A', 'H' := 'A', 'C' := 'A', 'E' := 'B', 'D' := 'B', 'F' := 'E', 'I' := 'E'], map['A' := 0.0, 'B' := 2.2, 'H' := 2.2, 'C' := 3.2, 'E' := 3.6, 'D' := 4.4, 'F' := 5.8, 'I' := 5.0], [BfsStep(0, 'A', 0.0, 0, 1), BfsStep(1, 'B', 2.2, 2, 4), BfsStep(2, 'H', 2.2, 3, 6), BfsStep(3, 'C', 3.2, 2, 6), BfsStep(4, 'E', 3.6, 1, 6), BfsStep(5, 'D', 4.4, 2, 8)], 6)
    ensures Bfs.Explore('D', 4.4, [('I', 2.2), ('G', 2.2), ('H', 2.2)], st) == BfsS6()
  {
    BfsTail5x3(Bfs.Discover('D', 4.4, 'I', 2.2, st));
    ExploreCons('D', 4.4, 'I', 2.2, [('G', 2.2), ('H', 2.2)], st);
  }

  lemma BfsTail5x1(st: Bfs.State<char>)
    requires st == Bfs.State(['F', 'I'], {'A', 'B', 'H', 'C', 'E', 'D', 'F', 'I'}, map['B' := 'A', 'H' := 'A', 'C' := 'A', 'E' := 'B', 'D' := 'B', 'F' := 'E', 'I' := 'E'], map['A' := 0.0, 'B' := 2.2, 'H' := 2.2, 'C' := 3.2, 'E' := 3.6, 'D' := 4.4, 'F' := 5.8, 'I' := 5.0], [BfsStep(0, 'A', 0.0, 0, 1), BfsStep(1, 'B', 2.2, 2, 4), BfsStep(2, 'H', 2.2, 3, 6), BfsStep(3, 'C', 3.2, 2, 6), BfsStep(4, 'E', 3.6, 1, 6), BfsStep(5, 'D', 4.4, 2, 8)], 6)
    ensures Bfs.Explore('D', 4.4, [('E', 2.2), ('I', 2.2), ('G', 2.2), ('H', 2.2)], st) == BfsS6()
  {
    BfsTail5x2(Bfs.Discover('D', 4.4, 'E', 2.2, st));
    ExploreCons('D', 4.4, 'E', 2.2, [('I', 2.2), ('G', 2.2), ('H', 2.2)], st);
  }

  lemma BfsTail5x0(st: Bfs.State<char>)
    requires st == Bfs.State(['F', 'I'], {'A', 'B', 'H', 'C', 'E', 'D', 'F', 'I'}, map['B' := 'A', 'H' := 'A', 'C' := 'A', 'E' := 'B', 'D' := 'B', 'F' := 'E', 'I' := 'E'], map['A' := 0.0, 'B' := 2.2, 'H' := 2.2, 'C' := 3.2, 'E' := 3.6, 'D' := 4.4, 'F' := 5.8, 'I' := 5.0], [BfsStep(0, 'A', 0.0, 0, 1), BfsStep(1, 'B', 2.2, 2, 4), BfsStep(2, 'H', 2.2, 3, 6), BfsStep(3, 'C', 3.2, 2, 6), BfsStep(4, 'E', 3.6, 1, 6), BfsStep(5, 'D', 4.4, 2, 8)], 6)
    ensures Bfs.Explore('D', 4.4, [('B', 2.2), ('E', 2.2), ('I', 2.2), ('G', 2.2), ('H', 2.2)], st) == BfsS6()
  {
    BfsTail5x1(Bfs.Discover('D', 4.4, 'B', 2.2, st));
    ExploreCons('D', 4.4, 'B', 2.2, [('E', 2.2), ('I', 2.2), ('G', 2.2), ('H', 2.2)], st);
  }

  lemma BfsExpanded5(st: Bfs.State<char>)
    requires st == BfsS5()
    ensures st.queue[0] in st.cost && Bfs.Expanded(st) == Bfs.State(['F', 'I'], {'A', 'B', 'H', 'C', 'E', 'D', 'F', 'I'}, map['B' := 'A', 'H' := 'A', 'C' := 'A', 'E' := 'B', 'D' := 'B', 'F' := 'E', 'I' := 'E'], map['A' := 0.0, 'B' := 2.2, 'H' := 2.2, 'C' := 3.2, 'E' := 3.6, 'D' := 4.4, 'F' := 5.8, 'I' := 5.0], [BfsStep(0, 'A', 0.0, 0, 1), BfsStep(1, 'B', 2.2, 2, 4), BfsStep(2, 'H', 2.2, 3, 6), BfsStep(3, 'C', 3.2, 2, 6), BfsStep(4, 'E', 3.6, 1, 6), BfsStep(5, 'D', 4.4, 2, 8)], 6)
  {
  }

  lemma BfsStep5(g: Graph<char>, st: Bfs.State<char>)
    requires Loads(g) && st == BfsS5() && Ranked(st.parent, Bfs.Order(st))
    ensures st.queue[0] == 'D'
    ensures Bfs.Step(g, 'G', st) == Bfs.Continue(BfsS6())
  {
    StepExpand(g, 'G', st, 'D', 4.4);
    BfsExpanded5(st);
    BfsTail5x0(Bfs.Expanded(st));
  }

  lemma BfsTail6x3(st: Bfs.State<char>)
    requires st == Bfs.State(['I', 'G'], {'A', 'B', 'H', 'C', 'E', 'D', 'F', 'I', 'G'}, map['B' := 'A', 'H' := 'A', 'C' := 'A', 'E' := 'B', 'D' := 'B', 'F' := 'E', 'I' := 'E', 'G' := 'D'], map['A' := 0.0, 'B' := 2.2, 'H' := 2.2, 'C' := 3.2, 'E' := 3.6, 'D' := 4.4, 'F' := 5.8, 'I' := 5.0, 'G' := 6.6], [BfsStep(0, 'A', 0.0, 0, 1), BfsStep(1, 'B', 2.2, 2, 4), BfsStep(2, 'H', 2.2, 3, 6), BfsStep(3, 'C', 3.2, 2, 6), BfsStep(4, 'E', 3.6, 1, 6), BfsStep(5, 'D', 4.4, 2, 8), BfsStep(6, 'F', 5.8, 2, 9)], 7)
    ensures Bfs.Explore('F', 5.8, [], st) == BfsS7()
  {
  }

  lemma BfsTail6x2(st: Bfs.State<char>)
    requires st == Bfs.State(['I', 'G'], {'A', 'B', 'H', 'C', 'E', 'D', 'F', 'I', 'G'}, map['B' := 'A', 'H' := 'A', 'C' := 'A', 'E' := 'B', 'D' := 'B', 'F' := 'E', 'I' := 'E', 'G' := 'D'], map['A' := 0.0, 'B' := 2.2, 'H' := 2.2, 'C' := 3.2, 'E' := 3.6, 'D' := 4.4, 'F' := 5.8, 'I' := 5.0, 'G' := 6.6], [BfsStep(0, 'A', 0.0, 0, 1), BfsStep(1, 'B', 2.2, 2, 4), BfsStep(2, 'H', 2.2, 3, 6), BfsStep(3, 'C', 3.2, 2, 6), BfsStep(4, 'E', 3.6, 1, 6), BfsStep(5, 'D', 4.4, 2, 8), BfsStep(6, 'F', 5.8, 2, 9)], 7)
    ensures Bfs.Explore('F', 5.8, [('G', 2.2)], st) == BfsS7()
  {
    BfsTail6x3(Bfs.Discover('F', 5.8, 'G', 2.2, st));
    ExploreCons('F', 5.8, 'G', 2.2, [], st);
  }

  lemma BfsTail6x1(st: Bfs.State<char>)
    requires st == Bfs.State(['I', 'G'], {'A', 'B', 'H', 'C', 'E', 'D', 'F', 'I', 'G'}, map['B' := 'A', 'H' := 'A', 'C' := 'A', 'E' := 'B', 'D' := 'B', 'F' := 'E', 'I' := 'E', 'G' := 'D'], map['A' := 0.0, 'B' := 2.2, 'H' := 2.2, 'C' := 3.2, 'E' := 3.6, 'D' := 4.4, 'F' := 5.8, 'I' := 5.0, 'G' := 6.6], [BfsStep(0, 'A', 0.0, 0, 1), BfsStep(1, 'B', 2.2, 2, 4), BfsStep(2, 'H', 2.2, 3, 6), BfsStep(3, 'C', 3.2, 2, 6), BfsStep(4, 'E', 3.6, 1, 6), BfsStep(5, 'D', 4.4, 2, 8), BfsStep(6, 'F', 5.8, 2, 9)], 7)
    ensures Bfs.Explore('F', 5.8, [('I', 1.4), ('G', 2.2)], st) == BfsS7()
  {
    BfsTail6x2(Bfs.Discover('F', 5.8, 'I', 1.4, st));
    ExploreCons('F', 5.8, 'I', 1.4, [('G', 2.2)], st);
  }

  lemma BfsTail6x0(st: Bfs.State<char>)
    requires st == Bfs.State(['I', 'G'], {'A', 'B', 'H', 'C', 'E', 'D', 'F', 'I', 'G'}, map['B' := 'A', 'H' := 'A', 'C' := 'A', 'E' := 'B', 'D' := 'B', 'F' := 'E', 'I' := 'E', 'G' := 'D'], map['A' := 0.0, 'B' := 2.2, 'H' := 2.2, 'C' := 3.2, 'E' := 3.6, 'D' := 4.4, 'F' := 5.8, 'I' := 5.0, 'G' := 6.6], [BfsStep(0, 'A', 0.0, 0, 1), BfsStep(1, 'B', 2.2, 2, 4), BfsStep(2, 'H', 2.2, 3, 6), BfsStep(3, 'C', 3.2, 2, 6), BfsStep(4, 'E', 3.6, 1, 6), BfsStep(5, 'D', 4.4, 2, 8), BfsStep(6, 'F', 5.8, 2, 9)], 7)
    ensures Bfs.Explore('F', 5.8, [('E', 2.2), ('I', 1.4), ('G', 2.2)], st) == BfsS7()
  {
    BfsTail6x1(Bfs.Discover('F', 5.8, 'E', 2.2, st));
    ExploreCons('F', 5.8, 'E', 2.2, [('I', 1.4), ('G', 2.2)], st);
  }

  lemma BfsExpanded6(st: Bfs.State<char>)
    requires st == BfsS6()
    ensures st.queue[0] in st.cost && Bfs.Expanded(st) == Bfs.State(['I', 'G'], {'A', 'B', 'H', 'C', 'E', 'D', 'F', 'I', 'G'}, map['B' := 'A', 'H' := 'A', 'C' := 'A', 'E' := 'B', 'D' := 'B', 'F' := 'E', 'I' := 'E', 'G' := 'D'], map['A' := 0.0, 'B' := 2.2, 'H' := 2.2, 'C' := 3.2, 'E' := 3.6, 'D' := 4.4, 'F' := 5.8, 'I' := 5.0, 'G' := 6.6], [BfsStep(0, 'A', 0.0, 0, 1), BfsStep(1, 'B', 2.2, 2, 4), BfsStep(2, 'H', 2.2, 3, 6), BfsStep(3, 'C', 3.2, 2, 6), BfsStep(4, 'E', 3.6, 1, 6), BfsStep(5, 'D', 4.4, 2, 8), BfsStep(6, 'F', 5.8, 2, 9)], 7)
  {
  }

  lemma BfsStep6(g: Graph<char>, st: Bfs.State<char>)
    requires Loads(g) && st == BfsS6() && Ranked(st.parent, Bfs.Order(st))
    ensures st.queue[0] == 'F'
    ensures Bfs.Step(g, 'G', st) == Bfs.Continue(BfsS7())
  {
    StepExpand(g, 'G', st, 'F', 5.8);
    BfsExpanded6(st);
    BfsTail6x0(Bfs.Expanded(st));
  }

  lemma BfsTail7x4(st: Bfs.State<char>)
    requires st == Bfs.State(['G'], {'A', 'B', 'H', 'C', 'E', 'D', 'F', 'I', 'G'}, map['B' := 'A', 'H' := 'A', 'C' := 'A', 'E' := 'B', 'D' := 'B', 'F' := 'E', 'I' := 'E', 'G' := 'D'], map['A' := 0.0, 'B' := 2.2, 'H' := 2.2, 'C' := 3.2, 'E' := 3.6, 'D' := 4.4, 'F' := 5.8, 'I' := 5.0, 'G' := 6.6], [BfsStep(0, 'A', 0.0, 0, 1), BfsStep(1, 'B', 2.2, 2, 4), BfsStep(2, 'H', 2.2, 3, 6), BfsStep(3, 'C', 3.2, 2, 6), BfsStep(4, 'E', 3.6, 1, 6), BfsStep(5, 'D', 4.4, 2, 8), BfsStep(6, 'F', 5.8, 2, 9), BfsStep(7, 'I', 5.0, 1, 9)], 8)
    ensures Bfs.Explore('I', 5.0, [], st) == BfsS8()
  {
  }

  lemma BfsTail7x3(st: Bfs.State<char>)
    requires st == Bfs.State(['G'], {'A', 'B', 'H', 'C', 'E', 'D', 'F', 'I', 'G'}, map['B' := 'A', 'H' := 'A', 'C' := 'A', 'E' := 'B', 'D' := 'B', 'F' := 'E', 'I' := 'E', 'G' := 'D'], map['A' := 0.0, 'B' := 2.2, 'H' := 2.2, 'C' := 3.2, 'E' := 3.6, 'D' := 4.4, 'F' := 5.8, 'I' := 5.0, 'G' := 6.6], [BfsStep(0, 'A', 0.0, 0, 1), BfsStep(1, 'B', 2.2, 2, 4), BfsStep(2, 'H', 2.2, 3, 6), BfsStep(3, 'C', 3.2, 2, 6), BfsStep(4, 'E', 3.6, 1, 6), BfsStep(5, 'D', 4.4, 2, 8), BfsStep(6, 'F', 5.8, 2, 9), BfsStep(7, 'I', 5.0, 1, 9)], 8)
    ensures Bfs.Explore('I', 5.0, [('G', 2.2)], st) == BfsS8()
  {
    BfsTail7x4(Bfs.Discover('I', 5.0, 'G', 2.2, st));
    ExploreCons('I', 5.0, 'G', 2.2, [], st);
  }

  lemma BfsTail7x2(st: Bfs.State<char>)
    requires st == Bfs.State(['G'], {'A', 'B', 'H', 'C', 'E', 'D', 'F', 'I', 'G'}, map['B' := 'A', 'H' := 'A', 'C' := 'A', 'E' := 'B', 'D' := 'B', 'F' := 'E', 'I' := 'E', 'G' := 'D'], map['A' := 0.0, 'B' := 2.2, 'H' := 2.2, 'C' := 3.2, 'E' := 3.6, 'D' := 4.4, 'F' := 5.8, 'I' := 5.0, 'G' := 6.6], [BfsStep(0, 'A', 0.0, 0, 1), BfsStep(1, 'B', 2.2, 2, 4), BfsStep(2, 'H', 2.2, 3, 6), BfsStep(3, 'C', 3.2, 2, 6), BfsStep(4, 'E', 3.6, 1, 6), BfsStep(5, 'D', 4.4, 2, 8), BfsStep(6, 'F', 5.8, 2, 9), BfsStep(7, 'I', 5.0, 1, 9)], 8)
    ensures Bfs.Explore('I', 5.0, [('F', 1.4), ('G', 2.2)], st) == BfsS8()
  {
    BfsTail7x3(Bfs.Discover('I', 5.0, 'F', 1.4, st));
    ExploreCons('I', 5.0, 'F', 1.4, [('G', 2.2)], st);
  }

  lemma BfsTail7x1(st: Bfs.State<char>)
    requires st == Bfs.State(['G'], {'A', 'B', 'H', 'C', 'E', 'D', 'F', 'I', 'G'}, map['B' := 'A', 'H' := 'A', 'C' := 'A', 'E' := 'B', 'D' := 'B', 'F' := 'E', 'I' := 'E', 'G' := 'D'], map['A' := 0.0, 'B' := 2.2, 'H' := 2.2, 'C' := 3.2, 'E' := 3.6, 'D' := 4.4, 'F' := 5.8, 'I' := 5.0, 'G' := 6.6], [BfsStep(0, 'A', 0.0, 0, 1), BfsStep(1, 'B', 2.2, 2, 4), BfsStep(2, 'H', 2.2, 3, 6), BfsStep(3, 'C', 3.2, 2, 6), BfsStep(4, 'E', 3.6, 1, 6), BfsStep(5, 'D', 4.4, 2, 8), BfsStep(6, 'F', 5.8, 2, 9), BfsStep(7, 'I', 5.0, 1, 9)], 8)
    ensures Bfs.Explore('I', 5.0, [('E', 1.4), ('F', 1.4), ('G', 2.2)], st) == BfsS8()
  {
    BfsTail7x2(Bfs.Discover('I', 5.0, 'E', 1.4, st));
    ExploreCons('I', 5.0, 'E', 1.4, [('F', 1.4), ('G', 2.2)], st);
  }

  lemma BfsTail7x0(st: Bfs.State<char>)
    requires st == Bfs.State(['G'], {'A', 'B', 'H', 'C', 'E', 'D', 'F', 'I', 'G'}, map['B' := 'A', 'H' := 'A', 'C' := 'A', 'E' := 'B', 'D' := 'B', 'F' := 'E', 'I' := 'E', 'G' := 'D'], map['A' := 0.0, 'B' := 2.2, 'H' := 2.2, 'C' := 3.2, 'E' := 3.6, 'D' := 4.4, 'F' := 5.8, 'I' := 5.0, 'G' := 6.6], [BfsStep(0, 'A', 0.0, 0, 1), BfsStep(1, 'B', 2.2, 2, 4), BfsStep(2, 'H', 2.2, 3, 6), BfsStep(3, 'C', 3.2, 2, 6), BfsStep(4, 'E', 3.6, 1, 6), BfsStep(5, 'D', 4.4, 2, 8), BfsStep(6, 'F', 5.8, 2, 9), BfsStep(7, 'I', 5.0, 1, 9)], 8)
    ensures Bfs.Explore('I', 5.0, [('D', 2.2), ('E', 1.4), ('F', 1.4), ('G', 2.2)], st) == BfsS8()
  {
    BfsTail7x1(Bfs.Discover('I', 5.0, 'D', 2.2, st));
    ExploreCons('I', 5.0, 'D', 2.2, [('E', 1.4), ('F', 1.4), ('G', 2.2)], st);
  }

  lemma BfsExpanded7(st: Bfs.State<char>)
    requires st == BfsS7()
    ensures st.queue[0] in st.cost && Bfs.Expanded(st) == Bfs.State(['G'], {'A', 'B', 'H', 'C', 'E', 'D', 'F', 'I', 'G'}, map['B' := 'A', 'H' := 'A', 'C' := 'A', 'E' := 'B', 'D' := 'B', 'F' := 'E', 'I' := 'E', 'G' := 'D'], map['A' := 0.0, 'B' := 2.2, 'H' := 2.2, 'C' := 3.2, 'E' := 3.6, 'D' := 4.4, 'F' := 5.8, 'I' := 5.0, 'G' := 6.6], [BfsStep(0, 'A', 0.0, 0, 1), BfsStep(1, 'B', 2.2, 2, 4), BfsStep(2, 'H', 2.2, 3, 6), BfsStep(3, 'C', 3.2, 2, 6), BfsStep(4, 'E', 3.6, 1, 6), BfsStep(5, 'D', 4.4, 2, 8), BfsStep(6, 'F', 5.8, 2, 9), BfsStep(7, 'I', 5.0, 1, 9)], 8)
  {
  }

  lemma BfsStep7(g: Graph<char>, st: Bfs.State<char>)
    requires Loads(g) && st == BfsS7() && Ranked(st.parent, Bfs.Order(st))
    ensures st.queue[0] == 'I'
    ensures Bfs.Step(g, 'G', st) == Bfs.Continue(BfsS8())
  {
    StepExpand(g, 'G', st, 'I', 5.0);
    BfsExpanded7(st);
    BfsTail7x0(Bfs.Expanded(st));
  }

  /** What BFS from A to G on the fixture returns. */
  function BfsResult(): SearchResult<char> {
    Found(['A', 'B', 'D', 'G'], 6.6, 8, [BfsStep(0, 'A', 0.0, 0, 1), BfsStep(1, 'B', 2.2, 2, 4), BfsStep(2, 'H', 2.2, 3, 6), BfsStep(3, 'C', 3.2, 2, 6), BfsStep(4, 'E', 3.6, 1, 6), BfsStep(5, 'D', 4.4, 2, 8), BfsStep(6, 'F', 5.8, 2, 9), BfsStep(7, 'I', 5.0, 1, 9), BfsStep(8, 'G', 6.6, 0, 9)])
  }

  /** The parent links along the returned path, read off the final parent map. */
  lemma BfsLinks(p: map<char, char>)
    requires p == map['B' := 'A', 'H' := 'A', 'C' := 'A', 'E' := 'B', 'D' := 'B', 'F' := 'E', 'I' := 'E', 'G' := 'D']
    ensures 'A' !in p && p.Keys >= {'B', 'D', 'G'} && p['B'] == 'A' && p['D'] == 'B' && p['G'] == 'D'
  {
  }

  lemma BfsTrace8(st: Bfs.State<char>)
    requires st == BfsS8()
    ensures st.trace + [Bfs.Record(st)] == BfsResult().trace
  {
  }

  lemma BfsGoal(g: Graph<char>, st: Bfs.State<char>)
    requires st == BfsS8() && Ranked(st.parent, Bfs.Order(st))
    ensures st.queue[0] == 'G'
    ensures Bfs.Step(g, 'G', st) == Bfs.Done(BfsResult())
  {
    BfsTrace8(st);
    BfsLinks(st.parent);
    ShortestPath(st.parent, Bfs.Order(st));
  }

  lemma BfsFrom8(g: Graph<char>)
    requires Loads(g) && Bfs.Inv(g, 'A', 'G', BfsS8())
    ensures Bfs.Loop(g, 'A', 'G', BfsS8()) == BfsResult()
  {
    BfsGoal(g, BfsS8());
    LoopGoal(g, 'A', 'G', BfsS8());
  }

  lemma BfsFrom7(g: Graph<char>)
    requires Loads(g) && Bfs.Inv(g, 'A', 'G', BfsS7())
    ensures Bfs.Loop(g, 'A', 'G', BfsS7()) == BfsResult()
  {
    BfsStep7(g, BfsS7());
    LoopNext(g, 'A', 'G', BfsS7());
    BfsFrom8(g);
  }

  lemma BfsFrom6(g: Graph<char>)
    requires Loads(g) && Bfs.Inv(g, 'A', 'G', BfsS6())
    ensures Bfs.Loop(g, 'A', 'G', BfsS6()) == BfsResult()
  {
    BfsStep6(g, BfsS6());
    LoopNext(g, 'A', 'G', BfsS6());
    BfsFrom7(g);
  }

  lemma BfsFrom5(g: Graph<char>)
    requires Loads(g) && Bfs.Inv(g, 'A', 'G', BfsS5())
    ensures Bfs.Loop(g, 'A', 'G', BfsS5()) == BfsResult()
  {
    BfsStep5(g, BfsS5());
    LoopNext(g, 'A', 'G', BfsS5());
    BfsFrom6(g);
  }

  lemma BfsFrom4(g: Graph<char>)
    requires Loads(g) && Bfs.Inv(g, 'A', 'G', BfsS4())
    ensures Bfs.Loop(g, 'A', 'G', BfsS4()) == BfsResult()
  {
    BfsStep4(g, BfsS4());
    LoopNext(g, 'A', 'G', BfsS4());
    BfsFrom5(g);
  }

  lemma BfsFrom3(g: Graph<char>)
    requires Loads(g) && Bfs.Inv(g, 'A', 'G', BfsS3())
    ensures Bfs.Loop(g, 'A', 'G', BfsS3()) == BfsResult()
  {
    BfsStep3(g, BfsS3());
    LoopNext(g, 'A', 'G', BfsS3());
    BfsFrom4(g);
  }

  lemma BfsFrom2(g: Graph<char>)
    requires Loads(g) && Bfs.Inv(g, 'A', 'G', BfsS2())
    ensures Bfs.Loop(g, 'A', 'G', BfsS2()) == BfsResult()
  {
    BfsStep2(g, BfsS2());
    LoopNext(g, 'A', 'G', BfsS2());
    BfsFrom3(g);
  }

  lemma BfsFrom1(g: Graph<char>)
    requires Loads(g) && Bfs.Inv(g, 'A', 'G', BfsS1())
    ensures Bfs.Loop(g, 'A', 'G', BfsS1()) == BfsResult()
  {
    BfsStep1(g, BfsS1());
    LoopNext(g, 'A', 'G', BfsS1());
    BfsFrom2(g);
  }

  lemma BfsFrom0(g: Graph<char>)
    requires Loads(g) && Bfs.Inv(g, 'A', 'G', BfsS0())
    ensures Bfs.Loop(g, 'A', 'G', BfsS0()) == BfsResult()
  {
    BfsStep0(g, BfsS0());
    LoopNext(g, 'A', 'G', BfsS0());
    BfsFrom1(g);
  }

  /** BFS from A to G on `load_graph()`'s map: dequeues A, B, H, C, E, D, F, I, G and returns A-B-D-G at cost 6.6 after 8 expansions. */
  lemma BfsRun(g: Graph<char>)
    requires Loads(g) && Valid(g)
    ensures Bfs.Search(g, 'A', 'G') == BfsResult()
  {
    Bfs.InitInv(g, 'A', 'G');
    assert Bfs.Init('A') == BfsS0();
    BfsFrom0(g);
  }
}
