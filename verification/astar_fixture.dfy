/**
 * `AStarSearch(GRAPH, 'A', 'G').search()` on the delivery map, pass by
 * pass: `AStarS<k>` is the search object after `k` expansions, and the
 * lemmas show that one pass of the loop turns each into the next.
 */
module AStarFixture {
  import opened Wrappers
  import opened Graphs
  import opened Paths
  import opened Results
  import AStar
  import opened Fixture

  /** `heappop` takes the entry that comes before every other one. */
  lemma PopAt(open: seq<AStar.Entry<char>>, m: nat)
    requires m < |open|
    requires forall j :: 0 <= j < |open| && j != m ==> AStar.Before(open[m], open[j])
    ensures AStar.MinIndex(open) == m
  {
    assert !AStar.Before(open[m], open[AStar.MinIndex(open)]);
  }

  /** The neighbour loop relaxes the first neighbour, then carries on with the rest. */
  lemma RelaxCons(g: Graph<char>, cur: char, curG: real, a: char, w: real, rest: Adjacency<char>, st: AStar.State<char>)
    ensures AStar.Relax(g, cur, curG, [(a, w)] + rest, st) == AStar.Relax(g, cur, curG, rest, AStar.RelaxOne(g, cur, curG, a, w, st))
  {
    assert ([(a, w)] + rest)[1..] == rest;
  }


  /** A pass that pops a node neither closed nor the goal closes it and relaxes its neighbours. */
  lemma StepExpand(g: Graph<char>, goal: char, st: AStar.State<char>, e: AStar.Entry<char>)
    requires |st.open| > 0 && Ranked(st.parent, TraceNodes(st.trace))
    requires AStar.Popped(st) == e && e.node !in st.closed && e.node != goal
    ensures AStar.Step(g, goal, st) == AStar.Continue(AStar.Relax(g, e.node, e.g, Neighbors(g, e.node), AStar.Closed(st)))
  {
  }

  /** From a state satisfying the loop invariant, the loop runs on from the state after one pass. */
  lemma LoopNext(g: Graph<char>, start: char, goal: char, st: AStar.State<char>)
    requires AStar.Inv(g, start, goal, st) && |st.open| > 0
    requires AStar.Popped(st).node !in st.closed && AStar.Popped(st).node != goal
    ensures AStar.Step(g, goal, st).Continue? && AStar.Inv(g, start, goal, AStar.Step(g, goal, st).next)
    ensures AStar.Loop(g, start, goal, st) == AStar.Loop(g, start, goal, AStar.Step(g, goal, st).next)
  {
    AStar.ExpandInv(g, start, goal, st);
  }

  /** Popping the goal ends the loop with what that pass returns. */
  lemma LoopGoal(g: Graph<char>, start: char, goal: char, st: AStar.State<char>)
    requires AStar.Inv(g, start, goal, st) && |st.open| > 0
    requires AStar.Popped(st).node !in st.closed && AStar.Popped(st).node == goal
    ensures AStar.Step(g, goal, st).Done?
    ensures AStar.Loop(g, start, goal, st) == AStar.Step(g, goal, st).result
  {
  }
  // --- A* from A to G -------------------------------------------------------

  function AStarS0(): AStar.State<char> {
    AStar.State([AStar.Entry(6.1, 0, 'A', 0.0, 6.1)], {}, map[], map['A' := 0.0], [], 0, 1)
  }

  function AStarS1(): AStar.State<char> {
    AStar.State([AStar.Entry(6.2, 1, 'B', 2.2, 4.0), AStar.Entry(6.7, 2, 'H', 2.2, 4.5), AStar.Entry(8.6, 3, 'C', 3.2, 5.4)], {'A'}, map['B' := 'A', 'H' := 'A', 'C' := 'A'], map['A' := 0.0, 'B' := 2.2, 'H' := 2.2, 'C' := 3.2], [AStarStep(0, 'A', 0.0, 6.1, 6.1, 0, 0)], 1, 4)
  }

  function AStarS2(): AStar.State<char> {
    AStar.State([AStar.Entry(6.7, 2, 'H', 2.2, 4.5), AStar.Entry(8.6, 3, 'C', 3.2, 5.4), AStar.Entry(6.8, 4, 'E', 3.6, 3.2), AStar.Entry(6.6, 5, 'D', 4.4, 2.2)], {'A', 'B'}, map['B' := 'A', 'H' := 'A', 'C' := 'A', 'E' := 'B', 'D' := 'B'], map['A' := 0.0, 'B' := 2.2, 'H' := 2.2, 'C' := 3.2, 'E' := 3.6, 'D' := 4.4], [AStarStep(0, 'A', 0.0, 6.1, 6.1, 0, 0), AStarStep(1, 'B', 2.2, 4.0, 6.2, 2, 1)], 2, 6)
  }

  function AStarS3(): AStar.State<char> {
    AStar.State([AStar.Entry(6.7, 2, 'H', 2.2, 4.5), AStar.Entry(8.6, 3, 'C', 3.2, 5.4), AStar.Entry(6.8, 4, 'E', 3.6, 3.2), AStar.Entry(8.8, 6, 'I', 6.6, 2.2), AStar.Entry(6.6, 7, 'G', 6.6, 0.0)], {'A', 'B', 'D'}, map['B' := 'A', 'H' := 'A', 'C' := 'A', 'E' := 'B', 'D' := 'B', 'I' := 'D', 'G' := 'D'], map['A' := 0.0, 'B' := 2.2, 'H' := 2.2, 'C' := 3.2, 'E' := 3.6, 'D' := 4.4, 'I' := 6.6, 'G' := 6.6], [AStarStep(0, 'A', 0.0, 6.1, 6.1, 0, 0), AStarStep(1, 'B', 2.2, 4.0, 6.2, 2, 1), AStarStep(2, 'D', 4.4, 2.2, 6.6, 3, 2)], 3, 8)
  }

  lemma AStarPop0()
    ensures AStar.MinIndex(AStarS0().open) == 0
  {
    PopAt(AStarS0().open, 0);
  }

  lemma AStarClose0()
    ensures AStar.MinIndex(AStarS0().open) == 0
    ensures AStar.Closed(AStarS0()) == AStar.State([], {'A'}, map[], map['A' := 0.0], [AStarStep(0, 'A', 0.0, 6.1, 6.1, 0, 0)], 1, 1)
  {
    AStarPop0();
  }

  lemma AStarRelax0x0(g: Graph<char>, st: AStar.State<char>)
    requires Loads(g) && st == AStar.State([], {'A'}, map[], map['A' := 0.0], [AStarStep(0, 'A', 0.0, 6.1, 6.1, 0, 0)], 1, 1)
    ensures AStar.RelaxOne(g, 'A', 0.0, 'B', 2.2, st) == AStar.State([AStar.Entry(6.2, 1, 'B', 2.2, 4.0)], {'A'}, map['B' := 'A'], map['A' := 0.0, 'B' := 2.2], [AStarStep(0, 'A', 0.0, 6.1, 6.1, 0, 0)], 1, 2)
  {
  }

  lemma AStarRelax0x1(g: Graph<char>, st: AStar.State<char>)
    requires Loads(g) && st == AStar.State([AStar.Entry(6.2, 1, 'B', 2.2, 4.0)], {'A'}, map['B' := 'A'], map['A' := 0.0, 'B' := 2.2], [AStarStep(0, 'A', 0.0, 6.1, 6.1, 0, 0)], 1, 2)
    ensures AStar.RelaxOne(g, 'A', 0.0, 'H', 2.2, st) == AStar.State([AStar.Entry(6.2, 1, 'B', 2.2, 4.0), AStar.Entry(6.7, 2, 'H', 2.2, 4.5)], {'A'}, map['B' := 'A', 'H' := 'A'], map['A' := 0.0, 'B' := 2.2, 'H' := 2.2], [AStarStep(0, 'A', 0.0, 6.1, 6.1, 0, 0)], 1, 3)
  {
  }

  lemma AStarRelax0x2(g: Graph<char>, st: AStar.State<char>)
    requires Loads(g) && st == AStar.State([AStar.Entry(6.2, 1, 'B', 2.2, 4.0), AStar.Entry(6.7, 2, 'H', 2.2, 4.5)], {'A'}, map['B' := 'A', 'H' := 'A'], map['A' := 0.0, 'B' := 2.2, 'H' := 2.2], [AStarStep(0, 'A', 0.0, 6.1, 6.1, 0, 0)], 1, 3)
    ensures AStar.RelaxOne(g, 'A', 0.0, 'C', 3.2, st) == AStar.State([AStar.Entry(6.2, 1, 'B', 2.2, 4.0), AStar.Entry(6.7, 2, 'H', 2.2, 4.5), AStar.Entry(8.6, 3, 'C', 3.2, 5.4)], {'A'}, map['B' := 'A', 'H' := 'A', 'C' := 'A'], map['A' := 0.0, 'B' := 2.2, 'H' := 2.2, 'C' := 3.2], [AStarStep(0, 'A', 0.0, 6.1, 6.1, 0, 0)], 1, 4)
  {
  }

  lemma AStarTail0x3(g: Graph<char>, st: AStar.State<char>)
    requires Loads(g) && st == AStar.State([AStar.Entry(6.2, 1, 'B', 2.2, 4.0), AStar.Entry(6.7, 2, 'H', 2.2, 4.5), AStar.Entry(8.6, 3, 'C', 3.2, 5.4)], {'A'}, map['B' := 'A', 'H' := 'A', 'C' := 'A'], map['A' := 0.0, 'B' := 2.2, 'H' := 2.2, 'C' := 3.2], [AStarStep(0, 'A', 0.0, 6.1, 6.1, 0, 0)], 1, 4)
    ensures AStar.Relax(g, 'A', 0.0, [], st) == AStarS1()
  {
  }

  lemma AStarTail0x2(g: Graph<char>, st: AStar.State<char>)
    requires Loads(g) && st == AStar.State([AStar.Entry(6.2, 1, 'B', 2.2, 4.0), AStar.Entry(6.7, 2, 'H', 2.2, 4.5)], {'A'}, map['B' := 'A', 'H' := 'A'], map['A' := 0.0, 'B' := 2.2, 'H' := 2.2], [AStarStep(0, 'A', 0.0, 6.1, 6.1, 0, 0)], 1, 3)
    ensures AStar.Relax(g, 'A', 0.0, [('C', 3.2)], st) == AStarS1()
  {
    RelaxCons(g, 'A', 0.0, 'C', 3.2, [], st);
    AStarRelax0x2(g, st);
    AStarTail0x3(g, AStar.RelaxOne(g, 'A', 0.0, 'C', 3.2, st));
  }

  lemma AStarTail0x1(g: Graph<char>, st: AStar.State<char>)
    requires Loads(g) && st == AStar.State([AStar.Entry(6.2, 1, 'B', 2.2, 4.0)], {'A'}, map['B' := 'A'], map['A' := 0.0, 'B' := 2.2], [AStarStep(0, 'A', 0.0, 6.1, 6.1, 0, 0)], 1, 2)
    ensures AStar.Relax(g, 'A', 0.0, [('H', 2.2), ('C', 3.2)], st) == AStarS1()
  {
    RelaxCons(g, 'A', 0.0, 'H', 2.2, [('C', 3.2)], st);
    AStarRelax0x1(g, st);
    AStarTail0x2(g, AStar.RelaxOne(g, 'A', 0.0, 'H', 2.2, st));
  }

  lemma AStarTail0x0(g: Graph<char>, st: AStar.State<char>)
    requires Loads(g) && st == AStar.State([], {'A'}, map[], map['A' := 0.0], [AStarStep(0, 'A', 0.0, 6.1, 6.1, 0, 0)], 1, 1)
    ensures AStar.Relax(g, 'A', 0.0, [('B', 2.2), ('H', 2.2), ('C', 3.2)], st) == AStarS1()
  {
    RelaxCons(g, 'A', 0.0, 'B', 2.2, [('H', 2.2), ('C', 3.2)], st);
    AStarRelax0x0(g, st);
    AStarTail0x1(g, AStar.RelaxOne(g, 'A', 0.0, 'B', 2.2, st));
  }

  lemma AStarStep0(g: Graph<char>, st: AStar.State<char>)
    requires Loads(g) && st == AStarS0() && Ranked(st.parent, TraceNodes(st.trace))
    ensures AStar.Popped(st).node == 'A'
    ensures AStar.Step(g, 'G', st) == AStar.Continue(AStarS1())
  {
    AStarClose0();
    StepExpand(g, 'G', st, AStar.Entry(6.1, 0, 'A', 0.0, 6.1));
    AStarTail0x0(g, AStar.Closed(st));
  }

  lemma AStarPop1()
    ensures AStar.MinIndex(AStarS1().open) == 0
  {
    PopAt(AStarS1().open, 0);
  }

  lemma AStarClose1()
    ensures AStar.MinIndex(AStarS1().open) == 0
    ensures AStar.Closed(AStarS1()) == AStar.State([AStar.Entry(6.7, 2, 'H', 2.2, 4.5), AStar.Entry(8.6, 3, 'C', 3.2, 5.4)], {'A', 'B'}, map['B' := 'A', 'H' := 'A', 'C' := 'A'], map['A' := 0.0, 'B' := 2.2, 'H' := 2.2, 'C' := 3.2], [AStarStep(0, 'A', 0.0, 6.1, 6.1, 0, 0), AStarStep(1, 'B', 2.2, 4.0, 6.2, 2, 1)], 2, 4)
  {
    AStarPop1();
  }

  lemma AStarRelax1x0(g: Graph<char>, st: AStar.State<char>)
    requires Loads(g) && st == AStar.State([AStar.Entry(6.7, 2, 'H', 2.2, 4.5), AStar.Entry(8.6, 3, 'C', 3.2, 5.4)], {'A', 'B'}, map['B' := 'A', 'H' := 'A', 'C' := 'A'], map['A' := 0.0, 'B' := 2.2, 'H' := 2.2, 'C' := 3.2], [AStarStep(0, 'A', 0.0, 6.1, 6.1, 0, 0), AStarStep(1, 'B', 2.2, 4.0, 6.2, 2, 1)], 2, 4)
    ensures AStar.RelaxOne(g, 'B', 2.2, 'A', 2.2, st) == AStar.State([AStar.Entry(6.7, 2, 'H', 2.2, 4.5), AStar.Entry(8.6, 3, 'C', 3.2, 5.4)], {'A', 'B'}, map['B' := 'A', 'H' := 'A', 'C' := 'A'], map['A' := 0.0, 'B' := 2.2, 'H' := 2.2, 'C' := 3.2], [AStarStep(0, 'A', 0.0, 6.1, 6.1, 0, 0), AStarStep(1, 'B', 2.2, 4.0, 6.2, 2, 1)], 2, 4)
  {
  }

  lemma AStarRelax1x1(g: Graph<char>, st: AStar.State<char>)
    requires Loads(g) && st == AStar.State([AStar.Entry(6.7, 2, 'H', 2.2, 4.5), AStar.Entry(8.6, 3, 'C', 3.2, 5.4)], {'A', 'B'}, map['B' := 'A', 'H' := 'A', 'C' := 'A'], map['A' := 0.0, 'B' := 2.2, 'H' := 2.2, 'C' := 3.2], [AStarStep(0, 'A', 0.0, 6.1, 6.1, 0, 0), AStarStep(1, 'B', 2.2, 4.0, 6.2, 2, 1)], 2, 4)
    ensures AStar.RelaxOne(g, 'B', 2.2, 'C', 2.2, st) == AStar.State([AStar.Entry(6.7, 2, 'H', 2.2, 4.5), AStar.Entry(8.6, 3, 'C', 3.2, 5.4)], {'A', 'B'}, map['B' := 'A', 'H' := 'A', 'C' := 'A'], map['A' := 0.0, 'B' := 2.2, 'H' := 2.2, 'C' := 3.2], [AStarStep(0, 'A', 0.0, 6.1, 6.1, 0, 0), AStarStep(1, 'B', 2.2, 4.0, 6.2, 2, 1)], 2, 4)
  {
  }

  lemma AStarRelax1x2(g: Graph<char>, st: AStar.State<char>)
    requires Loads(g) && st == AStar.State([AStar.Entry(6.7, 2, 'H', 2.2, 4.5), AStar.Entry(8.6, 3, 'C', 3.2, 5.4)], {'A', 'B'}, map['B' := 'A', 'H' := 'A', 'C' := 'A'], map['A' := 0.0, 'B' := 2.2, 'H' := 2.2, 'C' := 3.2], [AStarStep(0, 'A', 0.0, 6.1, 6.1, 0, 0), AStarStep(1, 'B', 2.2, 4.0, 6.2, 2, 1)], 2, 4)
    ensures AStar.RelaxOne(g, 'B', 2.2, 'E', 1.4, st) == AStar.State([AStar.Entry(6.7, 2, 'H', 2.2, 4.5), AStar.Entry(8.6, 3, 'C', 3.2, 5.4), AStar.Entry(6.8, 4, 'E', 3.6, 3.2)], {'A', 'B'}, map['B' := 'A', 'H' := 'A', 'C' := 'A', 'E' := 'B'], map['A' := 0.0, 'B' := 2.2, 'H' := 2.2, 'C' := 3.2, 'E' := 3.6], [AStarStep(0, 'A', 0.0, 6.1, 6.1, 0, 0), AStarStep(1, 'B', 2.2, 4.0, 6.2, 2, 1)], 2, 5)
  {
  }

  lemma AStarRelax1x3(g: Graph<char>, st: AStar.State<char>)
    requires Loads(g) && st == AStar.State([AStar.Entry(6.7, 2, 'H', 2.2, 4.5), AStar.Entry(8.6, 3, 'C', 3.2, 5.4), AStar.Entry(6.8, 4, 'E', 3.6, 3.2)], {'A', 'B'}, map['B' := 'A', 'H' := 'A', 'C' := 'A', 'E' := 'B'], map['A' := 0.0, 'B' := 2.2, 'H' := 2.2, 'C' := 3.2, 'E' := 3.6], [AStarStep(0, 'A', 0.0, 6.1, 6.1, 0, 0), AStarStep(1, 'B', 2.2, 4.0, 6.2, 2, 1)], 2, 5)
    ensures AStar.RelaxOne(g, 'B', 2.2, 'H', 2.2, st) == AStar.State([AStar.Entry(6.7, 2, 'H', 2.2, 4.5), AStar.Entry(8.6, 3, 'C', 3.2, 5.4), AStar.Entry(6.8, 4, 'E', 3.6, 3.2)], {'A', 'B'}, map['B' := 'A', 'H' := 'A', 'C' := 'A', 'E' := 'B'], map['A' := 0.0, 'B' := 2.2, 'H' := 2.2, 'C' := 3.2, 'E' := 3.6], [AStarStep(0, 'A', 0.0, 6.1, 6.1, 0, 0), AStarStep(1, 'B', 2.2, 4.0, 6.2, 2, 1)], 2, 5)
  {
  }

  lemma AStarRelax1x4(g: Graph<char>, st: AStar.State<char>)
    requires Loads(g) && st == AStar.State([AStar.Entry(6.7, 2, 'H', 2.2, 4.5), AStar.Entry(8.6, 3, 'C', 3.2, 5.4), AStar.Entry(6.8, 4, 'E', 3.6, 3.2)], {'A', 'B'}, map['B' := 'A', 'H' := 'A', 'C' := 'A', 'E' := 'B'], map['A' := 0.0, 'B' := 2.2, 'H' := 2.2, 'C' := 3.2, 'E' := 3.6], [AStarStep(0, 'A', 0.0, 6.1, 6.1, 0, 0), AStarStep(1, 'B', 2.2, 4.0, 6.2, 2, 1)], 2, 5)
    ensures AStar.RelaxOne(g, 'B', 2.2, 'D', 2.2, st) == AStar.State([AStar.Entry(6.7, 2, 'H', 2.2, 4.5), AStar.Entry(8.6, 3, 'C', 3.2, 5.4), AStar.Entry(6.8, 4, 'E', 3.6, 3.2), AStar.Entry(6.6, 5, 'D', 4.4, 2.2)], {'A', 'B'}, map['B' := 'A', 'H' := 'A', 'C' := 'A', 'E' := 'B', 'D' := 'B'], map['A' := 0.0, 'B' := 2.2, 'H' := 2.2, 'C' := 3.2, 'E' := 3.6, 'D' := 4.4], [AStarStep(0, 'A', 0.0, 6.1, 6.1, 0, 0), AStarStep(1, 'B', 2.2, 4.0, 6.2, 2, 1)], 2, 6)
  {
  }

  lemma AStarTail1x5(g: Graph<char>, st: AStar.State<char>)
    requires Loads(g) && st == AStar.State([AStar.Entry(6.7, 2, 'H', 2.2, 4.5), AStar.Entry(8.6, 3, 'C', 3.2, 5.4), AStar.Entry(6.8, 4, 'E', 3.6, 3.2), AStar.Entry(6.6, 5, 'D', 4.4, 2.2)], {'A', 'B'}, map['B' := 'A', 'H' := 'A', 'C' := 'A', 'E' := 'B', 'D' := 'B'], map['A' := 0.0, 'B' := 2.2, 'H' := 2.2, 'C' := 3.2, 'E' := 3.6, 'D' := 4.4], [AStarStep(0, 'A', 0.0, 6.1, 6.1, 0, 0), AStarStep(1, 'B', 2.2, 4.0, 6.2, 2, 1)], 2, 6)
    ensures AStar.Relax(g, 'B', 2.2, [], st) == AStarS2()
  {
  }

  lemma AStarTail1x4(g: Graph<char>, st: AStar.State<char>)
    requires Loads(g) && st == AStar.State([AStar.Entry(6.7, 2, 'H', 2.2, 4.5), AStar.Entry(8.6, 3, 'C', 3.2, 5.4), AStar.Entry(6.8, 4, 'E', 3.6, 3.2)], {'A', 'B'}, map['B' := 'A', 'H' := 'A', 'C' := 'A', 'E' := 'B'], map['A' := 0.0, 'B' := 2.2, 'H' := 2.2, 'C' := 3.2, 'E' := 3.6], [AStarStep(0, 'A', 0.0, 6.1, 6.1, 0, 0), AStarStep(1, 'B', 2.2, 4.0, 6.2, 2, 1)], 2, 5)
    ensures AStar.Relax(g, 'B', 2.2, [('D', 2.2)], st) == AStarS2()
  {
    RelaxCons(g, 'B', 2.2, 'D', 2.2, [], st);
    AStarRelax1x4(g, st);
    AStarTail1x5(g, AStar.RelaxOne(g, 'B', 2.2, 'D', 2.2, st));
  }

  lemma AStarTail1x3(g: Graph<char>, st: AStar.State<char>)
    requires Loads(g) && st == AStar.State([AStar.Entry(6.7, 2, 'H', 2.2, 4.5), AStar.Entry(8.6, 3, 'C', 3.2, 5.4), AStar.Entry(6.8, 4, 'E', 3.6, 3.2)], {'A', 'B'}, map['B' := 'A', 'H' := 'A', 'C' := 'A', 'E' := 'B'], map['A' := 0.0, 'B' := 2.2, 'H' := 2.2, 'C' := 3.2, 'E' := 3.6], [AStarStep(0, 'A', 0.0, 6.1, 6.1, 0, 0), AStarStep(1, 'B', 2.2, 4.0, 6.2, 2, 1)], 2, 5)
    ensures AStar.Relax(g, 'B', 2.2, [('H', 2.2), ('D', 2.2)], st) == AStarS2()
  {
    RelaxCons(g, 'B', 2.2, 'H', 2.2, [('D', 2.2)], st);
    AStarRelax1x3(g, st);
    AStarTail1x4(g, AStar.RelaxOne(g, 'B', 2.2, 'H', 2.2, st));
  }

  lemma AStarTail1x2(g: Graph<char>, st: AStar.State<char>)
    requires Loads(g) && st == AStar.State([AStar.Entry(6.7, 2, 'H', 2.2, 4.5), AStar.Entry(8.6, 3, 'C', 3.2, 5.4)], {'A', 'B'}, map['B' := 'A', 'H' := 'A', 'C' := 'A'], map['A' := 0.0, 'B' := 2.2, 'H' := 2.2, 'C' := 3.2], [AStarStep(0, 'A', 0.0, 6.1, 6.1, 0, 0), AStarStep(1, 'B', 2.2, 4.0, 6.2, 2, 1)], 2, 4)
    ensures AStar.Relax(g, 'B', 2.2, [('E', 1.4), ('H', 2.2), ('D', 2.2)], st) == AStarS2()
  {
    RelaxCons(g, 'B', 2.2, 'E', 1.4, [('H', 2.2), ('D', 2.2)], st);
    AStarRelax1x2(g, st);
    AStarTail1x3(g, AStar.RelaxOne(g, 'B', 2.2, 'E', 1.4, st));
  }

  lemma AStarTail1x1(g: Graph<char>, st: AStar.State<char>)
    requires Loads(g) && st == AStar.State([AStar.Entry(6.7, 2, 'H', 2.2, 4.5), AStar.Entry(8.6, 3, 'C', 3.2, 5.4)], {'A', 'B'}, map['B' := 'A', 'H' := 'A', 'C' := 'A'], map['A' := 0.0, 'B' := 2.2, 'H' := 2.2, 'C' := 3.2], [AStarStep(0, 'A', 0.0, 6.1, 6.1, 0, 0), AStarStep(1, 'B', 2.2, 4.0, 6.2, 2, 1)], 2, 4)
    ensures AStar.Relax(g, 'B', 2.2, [('C', 2.2), ('E', 1.4), ('H', 2.2), ('D', 2.2)], st) == AStarS2()
  {
    RelaxCons(g, 'B', 2.2, 'C', 2.2, [('E', 1.4), ('H', 2.2), ('D', 2.2)], st);
    AStarRelax1x1(g, st);
    AStarTail1x2(g, AStar.RelaxOne(g, 'B', 2.2, 'C', 2.2, st));
  }

  lemma AStarTail1x0(g: Graph<char>, st: AStar.State<char>)
    requires Loads(g) && st == AStar.State([AStar.Entry(6.7, 2, 'H', 2.2, 4.5), AStar.Entry(8.6, 3, 'C', 3.2, 5.4)], {'A', 'B'}, map['B' := 'A', 'H' := 'A', 'C' := 'A'], map['A' := 0.0, 'B' := 2.2, 'H' := 2.2, 'C' := 3.2], [AStarStep(0, 'A', 0.0, 6.1, 6.1, 0, 0), AStarStep(1, 'B', 2.2, 4.0, 6.2, 2, 1)], 2, 4)
    ensures AStar.Relax(g, 'B', 2.2, [('A', 2.2), ('C', 2.2), ('E', 1.4), ('H', 2.2), ('D', 2.2)], st) == AStarS2()
  {
    RelaxCons(g, 'B', 2.2, 'A', 2.2, [('C', 2.2), ('E', 1.4), ('H', 2.2), ('D', 2.2)], st);
    AStarRelax1x0(g, st);
    AStarTail1x1(g, AStar.RelaxOne(g, 'B', 2.2, 'A', 2.2, st));
  }

  lemma AStarStep1(g: Graph<char>, st: AStar.State<char>)
    requires Loads(g) && st == AStarS1() && Ranked(st.parent, TraceNodes(st.trace))
    ensures AStar.Popped(st).node == 'B'
    ensures AStar.Step(g, 'G', st) == AStar.Continue(AStarS2())
  {
    AStarClose1();
    StepExpand(g, 'G', st, AStar.Entry(6.2, 1, 'B', 2.2, 4.0));
    AStarTail1x0(g, AStar.Closed(st));
  }

  lemma AStarPop2()
    ensures AStar.MinIndex(AStarS2().open) == 3
  {
    PopAt(AStarS2().open, 3);
  }

  lemma AStarClose2()
    ensures AStar.MinIndex(AStarS2().open) == 3
    ensures AStar.Closed(AStarS2()) == AStar.State([AStar.Entry(6.7, 2, 'H', 2.2, 4.5), AStar.Entry(8.6, 3, 'C', 3.2, 5.4), AStar.Entry(6.8, 4, 'E', 3.6, 3.2)], {'A', 'B', 'D'}, map['B' := 'A', 'H' := 'A', 'C' := 'A', 'E' := 'B', 'D' := 'B'], map['A' := 0.0, 'B' := 2.2, 'H' := 2.2, 'C' := 3.2, 'E' := 3.6, 'D' := 4.4], [AStarStep(0, 'A', 0.0, 6.1, 6.1, 0, 0), AStarStep(1, 'B', 2.2, 4.0, 6.2, 2, 1), AStarStep(2, 'D', 4.4, 2.2, 6.6, 3, 2)], 3, 6)
  {
    AStarPop2();
  }

  lemma AStarRelax2x0(g: Graph<char>, st: AStar.State<char>)
    requires Loads(g) && st == AStar.State([AStar.Entry(6.7, 2, 'H', 2.2, 4.5), AStar.Entry(8.6, 3, 'C', 3.2, 5.4), AStar.Entry(6.8, 4, 'E', 3.6, 3.2)], {'A', 'B', 'D'}, map['B' := 'A', 'H' := 'A', 'C' := 'A', 'E' := 'B', 'D' := 'B'], map['A' := 0.0, 'B' := 2.2, 'H' := 2.2, 'C' := 3.2, 'E' := 3.6, 'D' := 4.4], [AStarStep(0, 'A', 0.0, 6.1, 6.1, 0, 0), AStarStep(1, 'B', 2.2, 4.0, 6.2, 2, 1), AStarStep(2, 'D', 4.4, 2.2, 6.6, 3, 2)], 3, 6)
    ensures AStar.RelaxOne(g, 'D', 4.4, 'B', 2.2, st) == AStar.State([AStar.Entry(6.7, 2, 'H', 2.2, 4.5), AStar.Entry(8.6, 3, 'C', 3.2, 5.4), AStar.Entry(6.8, 4, 'E', 3.6, 3.2)], {'A', 'B', 'D'}, map['B' := 'A', 'H' := 'A', 'C' := 'A', 'E' := 'B', 'D' := 'B'], map['A' := 0.0, 'B' := 2.2, 'H' := 2.2, 'C' := 3.2, 'E' := 3.6, 'D' := 4.4], [AStarStep(0, 'A', 0.0, 6.1, 6.1, 0, 0), AStarStep(1, 'B', 2.2, 4.0, 6.2, 2, 1), AStarStep(2, 'D', 4.4, 2.2, 6.6, 3, 2)], 3, 6)
  {
  }

  lemma AStarRelax2x1(g: Graph<char>, st: AStar.State<char>)
    requires Loads(g) && st == AStar.State([AStar.Entry(6.7, 2, 'H', 2.2, 4.5), AStar.Entry(8.6, 3, 'C', 3.2, 5.4), AStar.Entry(6.8, 4, 'E', 3.6, 3.2)], {'A', 'B', 'D'}, map['B' := 'A', 'H' := 'A', 'C' := 'A', 'E' := 'B', 'D' := 'B'], map['A' := 0.0, 'B' := 2.2, 'H' := 2.2, 'C' := 3.2, 'E' := 3.6, 'D' := 4.4], [AStarStep(0, 'A', 0.0, 6.1, 6.1, 0, 0), AStarStep(1, 'B', 2.2, 4.0, 6.2, 2, 1), AStarStep(2, 'D', 4.4, 2.2, 6.6, 3, 2)], 3, 6)
    ensures AStar.RelaxOne(g, 'D', 4.4, 'E', 2.2, st) == AStar.State([AStar.Entry(6.7, 2, 'H', 2.2, 4.5), AStar.Entry(8.6, 3, 'C', 3.2, 5.4), AStar.Entry(6.8, 4, 'E', 3.6, 3.2)], {'A', 'B', 'D'}, map['B' := 'A', 'H' := 'A', 'C' := 'A', 'E' := 'B', 'D' := 'B'], map['A' := 0.0, 'B' := 2.2, 'H' := 2.2, 'C' := 3.2, 'E' := 3.6, 'D' := 4.4], [AStarStep(0, 'A', 0.0, 6.1, 6.1, 0, 0), AStarStep(1, 'B', 2.2, 4.0, 6.2, 2, 1), AStarStep(2, 'D', 4.4, 2.2, 6.6, 3, 2)], 3, 6)
  {
  }

  lemma AStarRelax2x2(g: Graph<char>, st: AStar.State<char>)
    requires Loads(g) && st == AStar.State([AStar.Entry(6.7, 2, 'H', 2.2, 4.5), AStar.Entry(8.6, 3, 'C', 3.2, 5.4), AStar.Entry(6.8, 4, 'E', 3.6, 3.2)], {'A', 'B', 'D'}, map['B' := 'A', 'H' := 'A', 'C' := 'A', 'E' := 'B', 'D' := 'B'], map['A' := 0.0, 'B' := 2.2, 'H' := 2.2, 'C' := 3.2, 'E' := 3.6, 'D' := 4.4], [AStarStep(0, 'A', 0.0, 6.1, 6.1, 0, 0), AStarStep(1, 'B', 2.2, 4.0, 6.2, 2, 1), AStarStep(2, 'D', 4.4, 2.2, 6.6, 3, 2)], 3, 6)
    ensures AStar.RelaxOne(g, 'D', 4.4, 'I', 2.2, st) == AStar.State([AStar.Entry(6.7, 2, 'H', 2.2, 4.5), AStar.Entry(8.6, 3, 'C', 3.2, 5.4), AStar.Entry(6.8, 4, 'E', 3.6, 3.2), AStar.Entry(8.8, 6, 'I', 6.6, 2.2)], {'A', 'B', 'D'}, map['B' := 'A', 'H' := 'A', 'C' := 'A', 'E' := 'B', 'D' := 'B', 'I' := 'D'], map['A' := 0.0, 'B' := 2.2, 'H' := 2.2, 'C' := 3.2, 'E' := 3.6, 'D' := 4.4, 'I' := 6.6], [AStarStep(0, 'A', 0.0, 6.1, 6.1, 0, 0), AStarStep(1, 'B', 2.2, 4.0, 6.2, 2, 1), AStarStep(2, 'D', 4.4, 2.2, 6.6, 3, 2)], 3, 7)
  {
  }

  lemma AStarRelax2x3(g: Graph<char>, st: AStar.State<char>)
    requires Loads(g) && st == AStar.State([AStar.Entry(6.7, 2, 'H', 2.2, 4.5), AStar.Entry(8.6, 3, 'C', 3.2, 5.4), AStar.Entry(6.8, 4, 'E', 3.6, 3.2), AStar.Entry(8.8, 6, 'I', 6.6, 2.2)], {'A', 'B', 'D'}, map['B' := 'A', 'H' := 'A', 'C' := 'A', 'E' := 'B', 'D' := 'B', 'I' := 'D'], map['A' := 0.0, 'B' := 2.2, 'H' := 2.2, 'C' := 3.2, 'E' := 3.6, 'D' := 4.4, 'I' := 6.6], [AStarStep(0, 'A', 0.0, 6.1, 6.1, 0, 0), AStarStep(1, 'B', 2.2, 4.0, 6.2, 2, 1), AStarStep(2, 'D', 4.4, 2.2, 6.6, 3, 2)], 3, 7)
    ensures AStar.RelaxOne(g, 'D', 4.4, 'G', 2.2, st) == AStar.State([AStar.Entry(6.7, 2, 'H', 2.2, 4.5), AStar.Entry(8.6, 3, 'C', 3.2, 5.4), AStar.Entry(6.8, 4, 'E', 3.6, 3.2), AStar.Entry(8.8, 6, 'I', 6.6, 2.2), AStar.Entry(6.6, 7, 'G', 6.6, 0.0)], {'A', 'B', 'D'}, map['B' := 'A', 'H' := 'A', 'C' := 'A', 'E' := 'B', 'D' := 'B', 'I' := 'D', 'G' := 'D'], map['A' := 0.0, 'B' := 2.2, 'H' := 2.2, 'C' := 3.2, 'E' := 3.6, 'D' := 4.4, 'I' := 6.6, 'G' := 6.6], [AStarStep(0, 'A', 0.0, 6.1, 6.1, 0, 0), AStarStep(1, 'B', 2.2, 4.0, 6.2, 2, 1), AStarStep(2, 'D', 4.4, 2.2, 6.6, 3, 2)], 3, 8)
  {
  }

  lemma AStarRelax2x4(g: Graph<char>, st: AStar.State<char>)
    requires Loads(g) && st == AStar.State([AStar.Entry(6.7, 2, 'H', 2.2, 4.5), AStar.Entry(8.6, 3, 'C', 3.2, 5.4), AStar.Entry(6.8, 4, 'E', 3.6, 3.2), AStar.Entry(8.8, 6, 'I', 6.6, 2.2), AStar.Entry(6.6, 7, 'G', 6.6, 0.0)], {'A', 'B', 'D'}, map['B' := 'A', 'H' := 'A', 'C' := 'A', 'E' := 'B', 'D' := 'B', 'I' := 'D', 'G' := 'D'], map['A' := 0.0, 'B' := 2.2, 'H' := 2.2, 'C' := 3.2, 'E' := 3.6, 'D' := 4.4, 'I' := 6.6, 'G' := 6.6], [AStarStep(0, 'A', 0.0, 6.1, 6.1, 0, 0), AStarStep(1, 'B', 2.2, 4.0, 6.2, 2, 1), AStarStep(2, 'D', 4.4, 2.2, 6.6, 3, 2)], 3, 8)
    ensures AStar.RelaxOne(g, 'D', 4.4, 'H', 2.2, st) == AStar.State([AStar.Entry(6.7, 2, 'H', 2.2, 4.5), AStar.Entry(8.6, 3, 'C', 3.2, 5.4), AStar.Entry(6.8, 4, 'E', 3.6, 3.2), AStar.Entry(8.8, 6, 'I', 6.6, 2.2), AStar.Entry(6.6, 7, 'G', 6.6, 0.0)], {'A', 'B', 'D'}, map['B' := 'A', 'H' := 'A', 'C' := 'A', 'E' := 'B', 'D' := 'B', 'I' := 'D', 'G' := 'D'], map['A' := 0.0, 'B' := 2.2, 'H' := 2.2, 'C' := 3.2, 'E' := 3.6, 'D' := 4.4, 'I' := 6.6, 'G' := 6.6], [AStarStep(0, 'A', 0.0, 6.1, 6.1, 0, 0), AStarStep(1, 'B', 2.2, 4.0, 6.2, 2, 1), AStarStep(2, 'D', 4.4, 2.2, 6.6, 3, 2)], 3, 8)
  {
  }

  lemma AStarTail2x5(g: Graph<char>, st: AStar.State<char>)
    requires Loads(g) && st == AStar.State([AStar.Entry(6.7, 2, 'H', 2.2, 4.5), AStar.Entry(8.6, 3, 'C', 3.2, 5.4), AStar.Entry(6.8, 4, 'E', 3.6, 3.2), AStar.Entry(8.8, 6, 'I', 6.6, 2.2), AStar.Entry(6.6, 7, 'G', 6.6, 0.0)], {'A', 'B', 'D'}, map['B' := 'A', 'H' := 'A', 'C' := 'A', 'E' := 'B', 'D' := 'B', 'I' := 'D', 'G' := 'D'], map['A' := 0.0, 'B' := 2.2, 'H' := 2.2, 'C' := 3.2, 'E' := 3.6, 'D' := 4.4, 'I' := 6.6, 'G' := 6.6], [AStarStep(0, 'A', 0.0, 6.1, 6.1, 0, 0), AStarStep(1, 'B', 2.2, 4.0, 6.2, 2, 1), AStarStep(2, 'D', 4.4, 2.2, 6.6, 3, 2)], 3, 8)
    ensures AStar.Relax(g, 'D', 4.4, [], st) == AStarS3()
  {
  }

  lemma AStarTail2x4(g: Graph<char>, st: AStar.State<char>)
    requires Loads(g) && st == AStar.State([AStar.Entry(6.7, 2, 'H', 2.2, 4.5), AStar.Entry(8.6, 3, 'C', 3.2, 5.4), AStar.Entry(6.8, 4, 'E', 3.6, 3.2), AStar.Entry(8.8, 6, 'I', 6.6, 2.2), AStar.Entry(6.6, 7, 'G', 6.6, 0.0)], {'A', 'B', 'D'}, map['B' := 'A', 'H' := 'A', 'C' := 'A', 'E' := 'B', 'D' := 'B', 'I' := 'D', 'G' := 'D'], map['A' := 0.0, 'B' := 2.2, 'H' := 2.2, 'C' := 3.2, 'E' := 3.6, 'D' := 4.4, 'I' := 6.6, 'G' := 6.6], [AStarStep(0, 'A', 0.0, 6.1, 6.1, 0, 0), AStarStep(1, 'B', 2.2, 4.0, 6.2, 2, 1), AStarStep(2, 'D', 4.4, 2.2, 6.6, 3, 2)], 3, 8)
    ensures AStar.Relax(g, 'D', 4.4, [('H', 2.2)], st) == AStarS3()
  {
    RelaxCons(g, 'D', 4.4, 'H', 2.2, [], st);
    AStarRelax2x4(g, st);
    AStarTail2x5(g, AStar.RelaxOne(g, 'D', 4.4, 'H', 2.2, st));
  }

  lemma AStarTail2x3(g: Graph<char>, st: AStar.State<char>)
    requires Loads(g) && st == AStar.State([AStar.Entry(6.7, 2, 'H', 2.2, 4.5), AStar.Entry(8.6, 3, 'C', 3.2, 5.4), AStar.Entry(6.8, 4, 'E', 3.6, 3.2), AStar.Entry(8.8, 6, 'I', 6.6, 2.2)], {'A', 'B', 'D'}, map['B' := 'A', 'H' := 'A', 'C' := 'A', 'E' := 'B', 'D' := 'B', 'I' := 'D'], map['A' := 0.0, 'B' := 2.2, 'H' := 2.2, 'C' := 3.2, 'E' := 3.6, 'D' := 4.4, 'I' := 6.6], [AStarStep(0, 'A', 0.0, 6.1, 6.1, 0, 0), AStarStep(1, 'B', 2.2, 4.0, 6.2, 2, 1), AStarStep(2, 'D', 4.4, 2.2, 6.6, 3, 2)], 3, 7)
    ensures AStar.Relax(g, 'D', 4.4, [('G', 2.2), ('H', 2.2)], st) == AStarS3()
  {
    RelaxCons(g, 'D', 4.4, 'G', 2.2, [('H', 2.2)], st);
    AStarRelax2x3(g, st);
    AStarTail2x4(g, AStar.RelaxOne(g, 'D', 4.4, 'G', 2.2, st));
  }

  lemma AStarTail2x2(g: Graph<char>, st: AStar.State<char>)
    requires Loads(g) && st == AStar.State([AStar.Entry(6.7, 2, 'H', 2.2, 4.5), AStar.Entry(8.6, 3, 'C', 3.2, 5.4), AStar.Entry(6.8, 4, 'E', 3.6, 3.2)], {'A', 'B', 'D'}, map['B' := 'A', 'H' := 'A', 'C' := 'A', 'E' := 'B', 'D' := 'B'], map['A' := 0.0, 'B' := 2.2, 'H' := 2.2, 'C' := 3.2, 'E' := 3.6, 'D' := 4.4], [AStarStep(0, 'A', 0.0, 6.1, 6.1, 0, 0), AStarStep(1, 'B', 2.2, 4.0, 6.2, 2, 1), AStarStep(2, 'D', 4.4, 2.2, 6.6, 3, 2)], 3, 6)
    ensures AStar.Relax(g, 'D', 4.4, [('I', 2.2), ('G', 2.2), ('H', 2.2)], st) == AStarS3()
  {
    RelaxCons(g, 'D', 4.4, 'I', 2.2, [('G', 2.2), ('H', 2.2)], st);
    AStarRelax2x2(g, st);
    AStarTail2x3(g, AStar.RelaxOne(g, 'D', 4.4, 'I', 2.2, st));
  }

  lemma AStarTail2x1(g: Graph<char>, st: AStar.State<char>)
    requires Loads(g) && st == AStar.State([AStar.Entry(6.7, 2, 'H', 2.2, 4.5), AStar.Entry(8.6, 3, 'C', 3.2, 5.4), AStar.Entry(6.8, 4, 'E', 3.6, 3.2)], {'A', 'B', 'D'}, map['B' := 'A', 'H' := 'A', 'C' := 'A', 'E' := 'B', 'D' := 'B'], map['A' := 0.0, 'B' := 2.2, 'H' := 2.2, 'C' := 3.2, 'E' := 3.6, 'D' := 4.4], [AStarStep(0, 'A', 0.0, 6.1, 6.1, 0, 0), AStarStep(1, 'B', 2.2, 4.0, 6.2, 2, 1), AStarStep(2, 'D', 4.4, 2.2, 6.6, 3, 2)], 3, 6)
    ensures AStar.Relax(g, 'D', 4.4, [('E', 2.2), ('I', 2.2), ('G', 2.2), ('H', 2.2)], st) == AStarS3()
  {
    RelaxCons(g, 'D', 4.4, 'E', 2.2, [('I', 2.2), ('G', 2.2), ('H', 2.2)], st);
    AStarRelax2x1(g, st);
    AStarTail2x2(g, AStar.RelaxOne(g, 'D', 4.4, 'E', 2.2, st));
  }

  lemma AStarTail2x0(g: Graph<char>, st: AStar.State<char>)
    requires Loads(g) && st == AStar.State([AStar.Entry(6.7, 2, 'H', 2.2, 4.5), AStar.Entry(8.6, 3, 'C', 3.2, 5.4), AStar.Entry(6.8, 4, 'E', 3.6, 3.2)], {'A', 'B', 'D'}, map['B' := 'A', 'H' := 'A', 'C' := 'A', 'E' := 'B', 'D' := 'B'], map['A' := 0.0, 'B' := 2.2, 'H' := 2.2, 'C' := 3.2, 'E' := 3.6, 'D' := 4.4], [AStarStep(0, 'A', 0.0, 6.1, 6.1, 0, 0), AStarStep(1, 'B', 2.2, 4.0, 6.2, 2, 1), AStarStep(2, 'D', 4.4, 2.2, 6.6, 3, 2)], 3, 6)
    ensures AStar.Relax(g, 'D', 4.4, [('B', 2.2), ('E', 2.2), ('I', 2.2), ('G', 2.2), ('H', 2.2)], st) == AStarS3()
  {
    RelaxCons(g, 'D', 4.4, 'B', 2.2, [('E', 2.2), ('I', 2.2), ('G', 2.2), ('H', 2.2)], st);
    AStarRelax2x0(g, st);
    AStarTail2x1(g, AStar.RelaxOne(g, 'D', 4.4, 'B', 2.2, st));
  }

  lemma AStarStep2(g: Graph<char>, st: AStar.State<char>)
    requires Loads(g) && st == AStarS2() && Ranked(st.parent, TraceNodes(st.trace))
    ensures AStar.Popped(st).node == 'D'
    ensures AStar.Step(g, 'G', st) == AStar.Continue(AStarS3())
  {
    AStarClose2();
    StepExpand(g, 'G', st, AStar.Entry(6.6, 5, 'D', 4.4, 2.2));
    AStarTail2x0(g, AStar.Closed(st));
  }

  /** What A* from A to G on the fixture returns. */
  function AStarResult(): SearchResult<char> {
    Found(['A', 'B', 'D', 'G'], 6.6, 3, [AStarStep(0, 'A', 0.0, 6.1, 6.1, 0, 0), AStarStep(1, 'B', 2.2, 4.0, 6.2, 2, 1), AStarStep(2, 'D', 4.4, 2.2, 6.6, 3, 2), AStarStep(3, 'G', 6.6, 0.0, 6.6, 4, 3)])
  }

  /** The parent links along the returned path, read off the final parent map. */
  lemma AStarLinks(p: map<char, char>)
    requires p == map['B' := 'A', 'H' := 'A', 'C' := 'A', 'E' := 'B', 'D' := 'B', 'I' := 'D', 'G' := 'D']
    ensures 'A' !in p && p.Keys >= {'B', 'D', 'G'} && p['B'] == 'A' && p['D'] == 'B' && p['G'] == 'D'
  {
  }

  lemma AStarTrace3(st: AStar.State<char>)
    requires st == AStarS3()
    ensures AStar.MinIndex(st.open) == 4
    ensures st.trace + [AStar.Record(st)] == AStarResult().trace
  {
    PopAt(st.open, 4);
  }

  lemma AStarGoal(g: Graph<char>, st: AStar.State<char>)
    requires Loads(g) && st == AStarS3() && Ranked(st.parent, TraceNodes(st.trace))
    ensures AStar.Popped(st).node == 'G'
    ensures AStar.Step(g, 'G', st) == AStar.Done(AStarResult())
  {
    AStarTrace3(st);
    AStarLinks(st.parent);
    ShortestPath(st.parent, TraceNodes(st.trace));
  }

  lemma AStarFrom3(g: Graph<char>)
    requires Loads(g) && AStar.Inv(g, 'A', 'G', AStarS3())
    ensures AStar.Loop(g, 'A', 'G', AStarS3()) == AStarResult()
  {
    AStarGoal(g, AStarS3());
    LoopGoal(g, 'A', 'G', AStarS3());
  }

  lemma AStarFrom2(g: Graph<char>)
    requires Loads(g) && AStar.Inv(g, 'A', 'G', AStarS2())
    ensures AStar.Loop(g, 'A', 'G', AStarS2()) == AStarResult()
  {
    AStarStep2(g, AStarS2());
    LoopNext(g, 'A', 'G', AStarS2());
    AStarFrom3(g);
  }

  lemma AStarFrom1(g: Graph<char>)
    requires Loads(g) && AStar.Inv(g, 'A', 'G', AStarS1())
    ensures AStar.Loop(g, 'A', 'G', AStarS1()) == AStarResult()
  {
    AStarStep1(g, AStarS1());
    LoopNext(g, 'A', 'G', AStarS1());
    AStarFrom2(g);
  }

  lemma AStarFrom0(g: Graph<char>)
    requires Loads(g) && AStar.Inv(g, 'A', 'G', AStarS0())
    ensures AStar.Loop(g, 'A', 'G', AStarS0()) == AStarResult()
  {
    AStarStep0(g, AStarS0());
    LoopNext(g, 'A', 'G', AStarS0());
    AStarFrom1(g);
  }

  /** A* from A to G on `load_graph()`'s map: pops A, B, D, G and returns A-B-D-G at cost 6.6 after 3 expansions. */
  lemma AStarRun(g: Graph<char>)
    requires Loads(g) && Valid(g)
    ensures AStar.Search(g, 'A', 'G') == AStarResult()
  {
    AStar.InitInv(g, 'A', 'G');
    assert AStar.Init(g, 'A') == AStarS0();
    AStarFrom0(g);
  }
}
