/**
 * `BFSSearch.search` (backend/app.py): breadth-first search over a FIFO
 * queue. A node is marked visited, given its parent and its cost, and
 * enqueued the first time it is seen; nothing about it changes afterwards,
 * so each node is dequeued and expanded at most once. The reported cost is
 * the cost accumulated along the discovery links, which is the weight of
 * the returned path.
 */
module Bfs {
  import opened Wrappers
  import opened Graphs
  import opened Seqs
  import opened Paths
  import opened Results
  import opened Outcomes

  /** The fields of `BFSSearch`. */
  datatype State<N> = State(
    queue: seq<N>,
    visited: set<N>,
    parent: map<N, N>,
    cost: map<N, real>,
    trace: seq<Step<N>>,
    expanded: nat)

  /** `__init__`: the queue and the visited set hold the start, whose cost is 0. */
  function Init<N(==,!new)>(start: N): (r: State<N>)
    ensures r.queue == [start] && r.visited == {start} && start in r.cost && r.cost[start] == 0.0
    ensures start !in r.parent && |r.trace| == 0 && r.expanded == 0
  {
    State([start], {start}, map[], map[start := 0.0], [], 0)
  }

  /** Discovery order: the dequeued nodes, then the queue. Parents are discovered before their children. */
  function Order<N>(st: State<N>): seq<N> {
    TraceNodes(st.trace) + st.queue
  }

  /** One iteration of the neighbour loop: an unvisited neighbour is visited, linked to `cur`, costed and enqueued. */
  function Discover<N(==,!new)>(cur: N, curCost: real, nb: N, w: real, st: State<N>): (r: State<N>)
    ensures nb in st.visited ==> r == st
    ensures nb !in st.visited ==>
              && r.visited == st.visited + {nb} && Order(r) == Order(st) + [nb]
              && r.parent == st.parent[nb := cur] && r.cost == st.cost[nb := curCost + w]
              && r.trace == st.trace && r.expanded == st.expanded
  {
    if nb in st.visited then st
    else
      st.(visited := st.visited + {nb},
          parent := st.parent[nb := cur],
          cost := st.cost[nb := curCost + w],
          queue := st.queue + [nb])
  }

  /**
   * The whole neighbour loop over `nbrs`. Visited nodes keep their cost and
   * parent, the queue only grows at the back, and afterwards every listed
   * neighbour is visited.
   */
  function Explore<N(==,!new)>(cur: N, curCost: real, nbrs: Adjacency<N>, st: State<N>): (r: State<N>)
    ensures r.trace == st.trace && r.expanded == st.expanded
    ensures st.visited <= r.visited && st.queue <= r.queue
    ensures forall n :: n in st.visited ==>
              && (n in r.cost <==> n in st.cost) && (n in st.cost ==> r.cost[n] == st.cost[n])
              && (n in r.parent <==> n in st.parent) && (n in st.parent ==> r.parent[n] == st.parent[n])
    ensures forall i :: 0 <= i < |nbrs| ==> nbrs[i].0 in r.visited
    decreases |nbrs|
  {
    if |nbrs| == 0 then st
    else Explore(cur, curCost, nbrs[1..], Discover(cur, curCost, nbrs[0].0, nbrs[0].1, st))
  }

  /** What one pass of the `while` loop leads to. */
  datatype Progress<N> = Continue(next: State<N>) | Done(result: SearchResult<N>)

  /** The trace record of the dequeued node: its cost and the queue and visited sizes after the pop. */
  function Record<N>(st: State<N>): Step<N>
    requires |st.queue| > 0 && st.queue[0] in st.cost
  {
    BfsStep(|st.trace|, st.queue[0], st.cost[st.queue[0]], |st.queue| - 1, |st.visited|)
  }

  /** The state after `popleft` and counting the node as expanded. */
  function Expanded<N>(st: State<N>): State<N>
    requires |st.queue| > 0 && st.queue[0] in st.cost
  {
    st.(queue := st.queue[1..], trace := st.trace + [Record(st)], expanded := st.expanded + 1)
  }

  /**
   * One pass of the loop body on a non-empty queue: dequeue the front node
   * and record it; the goal ends the search with its cost; any other node
   * is counted as expanded and its unvisited neighbours are discovered.
   */
  function Step<N(==,!new)>(g: Graph<N>, goal: N, st: State<N>): (p: Progress<N>)
    requires |st.queue| > 0 && st.queue[0] in st.cost
    requires Ranked(st.parent, Order(st))
    ensures var cur := st.queue[0];
            var rec := BfsStep(|st.trace|, cur, st.cost[cur], |st.queue| - 1, |st.visited|);
            cur == goal ==>
              p.Done? && p.result.Found? && p.result.path == Reconstruct(st.parent, goal, Order(st)) &&
              p.result.cost == st.cost[cur] &&
              p.result.nodesExpanded == st.expanded && p.result.trace == st.trace + [rec]
    ensures var cur := st.queue[0];
            var rec := BfsStep(|st.trace|, cur, st.cost[cur], |st.queue| - 1, |st.visited|);
            cur != goal ==>
              p.Continue? && p.next.expanded == st.expanded + 1 && p.next.trace == st.trace + [rec] &&
              st.queue[1..] <= p.next.queue
  {
    var cur := st.queue[0];
    if cur == goal then
      Done(Found(Reconstruct(st.parent, goal, Order(st)), st.cost[cur], st.expanded, st.trace + [Record(st)]))
    else
      Continue(Explore(cur, st.cost[cur], Neighbors(g, cur), Expanded(st)))
  }

  // ---------------------------------------------------------------------
  // The loop invariant.
  // ---------------------------------------------------------------------

  /** Every trace record is a BFS record. */
  ghost predicate TraceOk<N>(trace: seq<Step<N>>) {
    forall i :: 0 <= i < |trace| ==> trace[i].BfsStep?
  }

  /**
   * The visited set is exactly the discovered nodes, each discovered once;
   * the trace is numbered, one record per expansion, and has not reached
   * the goal.
   */
  ghost predicate Bookkeeping<N(!new)>(start: N, goal: N, u: set<N>, st: State<N>) {
    && Distinct(Order(st)) && Elems(Order(st)) == st.visited && st.visited <= u && start in st.visited
    && StepsNumbered(st.trace) && TraceOk(st.trace) && st.expanded == |st.trace|
    && goal !in TraceNodes(st.trace)
  }

  /** Costs and parent links form a tree rooted at the start over exactly the visited nodes. */
  ghost predicate TreeOk<N(!new)>(g: Graph<N>, start: N, st: State<N>) {
    && ParentTree(g, st.parent, st.cost, start, Order(st))
    && st.cost.Keys == st.visited
  }

  /** Every neighbour of a dequeued node (other than `except`) is visited. */
  ghost predicate FrontierVisited<N(!new)>(g: Graph<N>, st: State<N>, except: set<N>) {
    forall c :: c in TraceNodes(st.trace) && c !in except ==> Keys(Neighbors(g, c)) <= st.visited
  }

  ghost predicate CoreInv<N(!new)>(g: Graph<N>, start: N, goal: N, st: State<N>) {
    && Valid(g)
    && Bookkeeping(start, goal, Universe(g, start), st)
    && TreeOk(g, start, st)
  }

  /** The invariant of the `while` loop at the top of each pass. */
  ghost predicate Inv<N(!new)>(g: Graph<N>, start: N, goal: N, st: State<N>) {
    CoreInv(g, start, goal, st) && FrontierVisited(g, st, {})
  }

  /** The invariant while the neighbours of the just-dequeued node `cur` are being discovered. */
  ghost predicate ExploreInv<N(!new)>(g: Graph<N>, start: N, goal: N, cur: N, curCost: real, st: State<N>) {
    && CoreInv(g, start, goal, st)
    && FrontierVisited(g, st, {cur})
    && cur in TraceNodes(st.trace) && cur in st.cost && st.cost[cur] == curCost
  }

  // ---------------------------------------------------------------------
  // Proofs that the invariant holds initially and is preserved.
  // ---------------------------------------------------------------------

  lemma InitInv<N(!new)>(g: Graph<N>, start: N, goal: N)
    requires Valid(g)
    ensures Inv(g, start, goal, Init(start))
  {
    assert Order(Init(start)) == [start];
  }

  /** Dequeuing moves the front node from the queue to the trace, so the discovery order stays the same. */
  lemma DequeueOrder<N(!new)>(st: State<N>)
    requires |st.queue| > 0 && st.queue[0] in st.cost
    ensures TraceNodes(Expanded(st).trace) == TraceNodes(st.trace) + [st.queue[0]]
    ensures Order(Expanded(st)) == Order(st)
  {
    TraceNodesAppend(st.trace, Record(st));
    assert st.queue == [st.queue[0]] + st.queue[1..];
  }

  /** The dequeued node is new to the trace, so the trace stays distinct and grows by one node. */
  lemma DequeueTrace<N(!new)>(start: N, goal: N, u: set<N>, st: State<N>)
    requires Bookkeeping(start, goal, u, st) && |st.queue| > 0 && st.queue[0] in st.cost
    ensures var tn := TraceNodes(Expanded(st).trace);
            && tn == TraceNodes(st.trace) + [st.queue[0]]
            && st.queue[0] !in Elems(TraceNodes(st.trace))
            && Elems(tn) == Elems(TraceNodes(st.trace)) + {st.queue[0]}
            && Distinct(tn) && Elems(tn) <= u
            && StepsNumbered(Expanded(st).trace) && TraceOk(Expanded(st).trace)
  {
    DequeueOrder(st);
    var tn := TraceNodes(Expanded(st).trace);
    DistinctSplit(tn, st.queue[1..]);
    DistinctSplit(TraceNodes(st.trace), st.queue);
    ElemsAppend(TraceNodes(st.trace), st.queue[0]);
    assert st.queue[0] in Order(st);
    assert Elems(tn) <= Elems(Order(st));
  }

  /** Dequeuing a node other than the goal sets up the exploration invariant. */
  lemma ExpandStartInv<N(!new)>(g: Graph<N>, start: N, goal: N, st: State<N>)
    requires Inv(g, start, goal, st) && |st.queue| > 0 && st.queue[0] != goal
    ensures st.queue[0] in st.cost
    ensures ExploreInv(g, start, goal, st.queue[0], st.cost[st.queue[0]], Expanded(st))
  {
    assert st.queue[0] in Order(st);
    DequeueOrder(st);
    BookkeepingExpand(start, goal, Universe(g, start), st);
    FrontierExpand(g, st);
  }

  lemma BookkeepingExpand<N(!new)>(start: N, goal: N, u: set<N>, st: State<N>)
    requires Bookkeeping(start, goal, u, st) && |st.queue| > 0 && st.queue[0] in st.cost && st.queue[0] != goal
    requires Order(Expanded(st)) == Order(st)
    requires TraceNodes(Expanded(st).trace) == TraceNodes(st.trace) + [st.queue[0]]
    ensures Bookkeeping(start, goal, u, Expanded(st))
  {
  }

  lemma FrontierExpand<N(!new)>(g: Graph<N>, st: State<N>)
    requires FrontierVisited(g, st, {}) && |st.queue| > 0 && st.queue[0] in st.cost
    requires TraceNodes(Expanded(st).trace) == TraceNodes(st.trace) + [st.queue[0]]
    ensures FrontierVisited(g, Expanded(st), {st.queue[0]})
  {
  }

  /** Discovering `nb` appends it to the discovery order. */
  lemma DiscoverOrder<N(!new)>(cur: N, curCost: real, nb: N, w: real, st: State<N>)
    requires nb !in st.visited
    ensures Order(Discover(cur, curCost, nb, w, st)) == Order(st) + [nb]
  {
  }

  lemma BookkeepingDiscover<N(!new)>(start: N, goal: N, u: set<N>, cur: N, curCost: real, nb: N, w: real, st: State<N>)
    requires Bookkeeping(start, goal, u, st) && nb !in st.visited && nb in u
    ensures Bookkeeping(start, goal, u, Discover(cur, curCost, nb, w, st))
  {
    DiscoverOrder(cur, curCost, nb, w, st);
    DistinctAppend(Order(st), nb);
    ElemsAppend(Order(st), nb);
  }

  /** The tree after discovering `nb`, stated on the updated maps. */
  lemma TreeLink<N(!new)>(g: Graph<N>, parent: map<N, N>, cost: map<N, real>, start: N, order: seq<N>,
                          cur: N, curCost: real, nb: N, w: real)
    requires ParentTree(g, parent, cost, start, order)
    requires Elems(order) == cost.Keys && nb !in cost && cur in cost
    requires cost[cur] == curCost && Weight(g, cur, nb) == Some(w)
    ensures ParentTree(g, parent[nb := cur], cost[nb := curCost + w], start, order + [nb])
  {
    ParentTreeGrow(g, parent, cost, start, order, [nb]);
    PositionAppend(order, [nb], cur);
    PositionAppend(order, [nb], nb);
    assert cur in order;
    ParentTreeExtend(g, parent, cost, start, order + [nb], cur, curCost, nb, w);
  }

  lemma TreeDiscover<N(!new)>(g: Graph<N>, start: N, cur: N, curCost: real, nb: N, w: real, st: State<N>)
    requires TreeOk(g, start, st) && Elems(Order(st)) == st.visited
    requires nb !in st.visited && cur in st.cost && st.cost[cur] == curCost && Weight(g, cur, nb) == Some(w)
    ensures TreeOk(g, start, Discover(cur, curCost, nb, w, st))
  {
    TreeLink(g, st.parent, st.cost, start, Order(st), cur, curCost, nb, w);
    DiscoverOrder(cur, curCost, nb, w, st);
  }

  lemma FrontierDiscover<N(!new)>(g: Graph<N>, cur: N, curCost: real, nb: N, w: real, st: State<N>)
    requires FrontierVisited(g, st, {cur}) && cur in TraceNodes(st.trace) && cur in st.cost && st.cost[cur] == curCost
    requires cur in st.visited
    ensures var r := Discover(cur, curCost, nb, w, st);
            FrontierVisited(g, r, {cur}) && cur in TraceNodes(r.trace) && cur in r.cost && r.cost[cur] == curCost
  {
    var r := Discover(cur, curCost, nb, w, st);
    assert r.trace == st.trace && st.visited <= r.visited;
  }

  /** Discovering one listed neighbour of the dequeued node keeps the exploration invariant. */
  lemma DiscoverInv<N(!new)>(g: Graph<N>, start: N, goal: N, cur: N, curCost: real, nb: N, w: real, st: State<N>)
    requires ExploreInv(g, start, goal, cur, curCost, st)
    requires (nb, w) in Neighbors(g, cur)
    ensures ExploreInv(g, start, goal, cur, curCost, Discover(cur, curCost, nb, w, st))
  {
    if nb !in st.visited {
      var u := Universe(g, start);
      assert nb in Keys(Neighbors(g, cur));
      assert cur in Order(st);
      BookkeepingDiscover(start, goal, u, cur, curCost, nb, w, st);
      LookupOfMember(Neighbors(g, cur), nb, w);
      TreeDiscover(g, start, cur, curCost, nb, w, st);
      FrontierDiscover(g, cur, curCost, nb, w, st);
    }
  }

  /** Discovering all listed neighbours keeps the exploration invariant. */
  lemma {:induction false} ExploreInvAll<N(!new)>(g: Graph<N>, start: N, goal: N, cur: N, curCost: real,
                                                 nbrs: Adjacency<N>, st: State<N>)
    requires ExploreInv(g, start, goal, cur, curCost, st)
    requires forall p :: p in nbrs ==> p in Neighbors(g, cur)
    ensures ExploreInv(g, start, goal, cur, curCost, Explore(cur, curCost, nbrs, st))
    decreases |nbrs|
  {
    if |nbrs| > 0 {
      DiscoverInv(g, start, goal, cur, curCost, nbrs[0].0, nbrs[0].1, st);
      assert forall p :: p in nbrs[1..] ==> p in nbrs;
      ExploreInvAll(g, start, goal, cur, curCost, nbrs[1..], Discover(cur, curCost, nbrs[0].0, nbrs[0].1, st));
    }
  }

  /** Once every neighbour of `cur` is visited, the loop invariant holds again. */
  lemma ExploreDone<N(!new)>(g: Graph<N>, start: N, goal: N, cur: N, curCost: real, r: State<N>)
    requires ExploreInv(g, start, goal, cur, curCost, r)
    requires forall i :: 0 <= i < |Neighbors(g, cur)| ==> Neighbors(g, cur)[i].0 in r.visited
    ensures Inv(g, start, goal, r)
  {
  }

  /** Expanding a node other than the goal restores the loop invariant. */
  lemma ExpandInv<N(!new)>(g: Graph<N>, start: N, goal: N, st: State<N>)
    requires Inv(g, start, goal, st) && |st.queue| > 0 && st.queue[0] != goal
    ensures st.queue[0] in st.cost
    ensures Step(g, goal, st).Continue? && Inv(g, start, goal, Step(g, goal, st).next)
  {
    var cur := st.queue[0];
    ExpandStartInv(g, start, goal, st);
    var c := st.cost[cur];
    ExploreInvAll(g, start, goal, cur, c, Neighbors(g, cur), Expanded(st));
    ExploreDone(g, start, goal, cur, c, Explore(cur, c, Neighbors(g, cur), Expanded(st)));
  }

  // --- the two ways the loop ends ------------------------------------------

  /** The path returned when the goal is dequeued is a simple path to the goal whose weight is the goal's cost. */
  lemma GoalPath<N(!new)>(g: Graph<N>, start: N, goal: N, st: State<N>)
    requires Inv(g, start, goal, st) && |st.queue| > 0 && st.queue[0] == goal
    ensures goal in st.cost
    ensures var r := Step(g, goal, st).result;
            && Step(g, goal, st).Done? && r.Found?
            && IsPath(g, r.path, start, goal) && r.cost == PathCost(g, r.path) && Distinct(r.path)
  {
    assert goal in Order(st);
    ReconstructIsPath(g, st.parent, st.cost, start, Order(st), goal);
    ReconstructCost(g, st.parent, st.cost, start, Order(st), goal);
    ReconstructSimple(st.parent, goal, Order(st));
  }

  lemma GoalSound<N(!new)>(g: Graph<N>, start: N, goal: N, st: State<N>)
    requires Inv(g, start, goal, st) && |st.queue| > 0 && st.queue[0] == goal
    ensures goal in st.cost
    ensures Step(g, goal, st).Done? && Sound(g, start, goal, Step(g, goal, st).result)
    ensures TraceOk(Step(g, goal, st).result.trace)
  {
    GoalPath(g, start, goal, st);
    DequeueTrace(start, goal, Universe(g, start), st);
  }

  /** An empty queue means the goal is unreachable: the visited set is closed under neighbours and lacks the goal. */
  lemma ExhaustedSound<N(!new)>(g: Graph<N>, start: N, goal: N, st: State<N>)
    requires Inv(g, start, goal, st) && |st.queue| == 0
    ensures Sound(g, start, goal, NotFound(st.expanded, st.trace))
  {
    assert Order(st) == TraceNodes(st.trace);
    assert goal !in st.visited;
    ClosedSetSeparates(g, st.visited, start, goal);
  }

  /** Each pass traces one more node the search can reach. */
  lemma StepShrinks<N(!new)>(g: Graph<N>, start: N, goal: N, st: State<N>)
    requires Inv(g, start, goal, st) && |st.queue| > 0 && st.queue[0] != goal
    ensures st.queue[0] in st.cost
    ensures var next := Step(g, goal, st).next;
            Step(g, goal, st).Continue? &&
            |Universe(g, start) - Elems(TraceNodes(next.trace))| < |Universe(g, start) - Elems(TraceNodes(st.trace))|
  {
    var u := Universe(g, start);
    assert st.queue[0] in Order(st);
    DequeueTrace(start, goal, u, st);
    CloseOneShrinks(u, Elems(TraceNodes(st.trace)), st.queue[0]);
  }

  /** The `while` loop, run to completion from a state satisfying the invariant. */
  function Loop<N(==,!new)>(g: Graph<N>, start: N, goal: N, st: State<N>): (r: SearchResult<N>)
    requires Inv(g, start, goal, st)
    ensures Sound(g, start, goal, r)
    ensures TraceOk(r.trace)
    decreases |Universe(g, start) - Elems(TraceNodes(st.trace))|
  {
    if |st.queue| == 0 then
      ExhaustedSound(g, start, goal, st);
      NotFound(st.expanded, st.trace)
    else if st.queue[0] == goal then
      GoalSound(g, start, goal, st);
      Step(g, goal, st).result
    else
      ExpandInv(g, start, goal, st);
      StepShrinks(g, start, goal, st);
      Loop(g, start, goal, Step(g, goal, st).next)
  }

  // ---------------------------------------------------------------------
  // Hop levels: the FIFO queue returns a path with the fewest edges.
  // ---------------------------------------------------------------------

  /** The level `d` gives `n`, 0 when it gives none. */
  function Level<N>(d: map<N, nat>, n: N): nat {
    if n in d then d[n] else 0
  }

  /**
   * `d` gives each visited node the number of nodes on its discovery path:
   * 1 for the start, one more than its parent otherwise. Levels never
   * decrease along the discovery order, no visited node is more than one
   * level below the queue front, and every neighbour of a dequeued node is
   * at most one level below it.
   */
  ghost predicate Levels<N(!new)>(g: Graph<N>, st: State<N>, d: map<N, nat>) {
    && d.Keys == st.visited
    && LevelLinked(d, st.parent)
    && Sorted(d, Order(st))
    && (|st.queue| > 0 ==> forall m :: m in d ==> d[m] <= Level(d, st.queue[0]) + 1)
    && Near(g, TraceNodes(st.trace), d)
  }

  /** The levels after expanding `cur`: a newly visited node is one level below `cur`. */
  function Deepen<N>(d: map<N, nat>, visited: set<N>, cur: N): map<N, nat> {
    map n | n in visited :: if n in d then d[n] else Level(d, cur) + 1
  }

  lemma InitLevels<N(!new)>(g: Graph<N>, start: N)
    ensures Levels(g, Init(start), map[start := 1])
  {
    assert Order(Init(start)) == [start];
  }

  /** Every node the neighbour loop discovers gets `cur` as its parent. */
  lemma {:induction false} ExploreParents<N(!new)>(cur: N, curCost: real, nbrs: Adjacency<N>, st: State<N>)
    ensures var r := Explore(cur, curCost, nbrs, st);
            forall n :: n in r.visited && n !in st.visited ==> n in r.parent && r.parent[n] == cur
    decreases |nbrs|
  {
    if |nbrs| > 0 {
      ExploreParents(cur, curCost, nbrs[1..], Discover(cur, curCost, nbrs[0].0, nbrs[0].1, st));
    }
  }

  /** Levels never decrease along `o`. */
  ghost predicate Sorted<N>(d: map<N, nat>, o: seq<N>) {
    forall i, j :: 0 <= i < j < |o| ==> Level(d, o[i]) <= Level(d, o[j])
  }

  /** Each level is one more than the parent's, and 1 without a parent. */
  ghost predicate LevelLinked<N>(d: map<N, nat>, parent: map<N, N>) {
    && (forall m :: m in parent ==> m in d && parent[m] in d && d[m] == d[parent[m]] + 1)
    && (forall m :: m in d && m !in parent ==> d[m] == 1)
  }

  /** Every neighbour of a dequeued node has a level, at most one more than the node's. */
  ghost predicate Near<N(!new)>(g: Graph<N>, t: seq<N>, d: map<N, nat>) {
    forall x, y :: x in t && y in Keys(Neighbors(g, x)) ==> y in d && Level(d, y) <= Level(d, x) + 1
  }

  /** Appending nodes one level below `cur`, which no node is deeper than, keeps the order sorted. */
  lemma DeepenSorted<N>(d: map<N, nat>, o: seq<N>, tail: seq<N>, cur: N, v: set<N>)
    requires Sorted(d, o) && Elems(o) == d.Keys && Elems(o + tail) == v
    requires forall m :: m in tail ==> m !in d
    requires cur in d && forall m :: m in d ==> d[m] <= d[cur] + 1
    ensures Sorted(Deepen(d, v, cur), o + tail)
  {
    var d' := Deepen(d, v, cur);
    var s := o + tail;
    forall i, j | 0 <= i < j < |s| ensures Level(d', s[i]) <= Level(d', s[j]) {
      assert s[i] in v && s[j] in v;
      if j < |o| {
        assert s[i] == o[i] && s[j] == o[j];
      } else {
        assert s[j] == tail[j - |o|];
      }
    }
  }

  /** New nodes whose parent is `cur` get `cur`'s level plus one, so the levels stay linked to the parents. */
  lemma DeepenLinked<N>(d: map<N, nat>, parent: map<N, N>, parent': map<N, N>, v': set<N>, cur: N)
    requires LevelLinked(d, parent) && d.Keys <= v' && cur in d && parent'.Keys <= v'
    requires forall m :: m in d ==> (m in parent' <==> m in parent) && (m in parent ==> parent'[m] == parent[m])
    requires forall m :: m in v' && m !in d ==> m in parent' && parent'[m] == cur
    ensures LevelLinked(Deepen(d, v', cur), parent')
  {
  }

  /** Once `cur`'s neighbours are all visited, they too lie at most one level below it. */
  lemma DeepenNear<N(!new)>(g: Graph<N>, t: seq<N>, d: map<N, nat>, cur: N, v': set<N>)
    requires Near(g, t, d) && d.Keys <= v' && cur in d
    requires forall m :: m in d ==> d[m] <= d[cur] + 1
    requires Keys(Neighbors(g, cur)) <= v'
    ensures Near(g, t + [cur], Deepen(d, v', cur))
  {
    var d' := Deepen(d, v', cur);
    forall x, y | x in t + [cur] && y in Keys(Neighbors(g, x)) ensures y in d' && Level(d', y) <= Level(d', x) + 1 {
      if x in t {
        assert y in d;
      }
    }
  }

  /** The new queue front comes after `cur` in the discovery order, so no node is more than one level below it. */
  lemma FrontNear<N>(d: map<N, nat>, t: seq<N>, cur: N, q: seq<N>)
    requires Sorted(d, t + [cur] + q) && |q| > 0
    requires forall m :: m in d ==> d[m] <= Level(d, cur) + 1
    ensures forall m :: m in d ==> d[m] <= Level(d, q[0]) + 1
  {
    assert (t + [cur] + q)[|t|] == cur && (t + [cur] + q)[|t| + 1] == q[0];
  }

  /** The neighbour loop only appends to the queue, so the discovery order grows by the appended nodes. */
  lemma OrderAfter<N>(s1: State<N>, r: State<N>, tail: seq<N>)
    requires r.trace == s1.trace && s1.queue <= r.queue && tail == r.queue[|s1.queue|..]
    ensures Order(r) == Order(s1) + tail
  {
    assert r.queue == s1.queue + tail;
  }

  /**
   * What expanding `cur` does to the discovery order and the links: the
   * order grows by the newly queued nodes, nodes visited before keep their
   * parent, new nodes hang off `cur`, and all of `cur`'s neighbours end up
   * visited.
   */
  ghost predicate Expansion<N(!new)>(g: Graph<N>, st: State<N>, r: State<N>, cur: N) {
    ExpansionOrder(st, r, cur) && ExpansionLinks(g, st, r, cur)
  }

  /** The order grows by the newly queued nodes and the trace by `cur`. */
  ghost predicate ExpansionOrder<N>(st: State<N>, r: State<N>, cur: N) {
    && |st.queue| > 0 && st.queue[0] == cur && |st.queue| - 1 <= |r.queue|
    && Order(r) == Order(st) + r.queue[|st.queue| - 1..]
    && Distinct(Order(r)) && Elems(Order(r)) == r.visited && Elems(Order(st)) == st.visited
    && TraceNodes(r.trace) == TraceNodes(st.trace) + [cur]
  }

  /** Old nodes keep their links, new ones hang off `cur`, and `cur`'s neighbours are all visited. */
  ghost predicate ExpansionLinks<N(!new)>(g: Graph<N>, st: State<N>, r: State<N>, cur: N) {
    && (forall m :: m in st.visited ==> (m in r.parent <==> m in st.parent) && (m in st.parent ==> r.parent[m] == st.parent[m]))
    && (forall m :: m in r.visited && m !in st.visited ==> m in r.parent && r.parent[m] == cur)
    && r.parent.Keys <= r.visited
    && Keys(Neighbors(g, cur)) <= r.visited
  }

  /** The parts of the loop invariant the level argument needs. */
  lemma InvOrder<N(!new)>(g: Graph<N>, start: N, goal: N, st: State<N>)
    requires Inv(g, start, goal, st)
    ensures Distinct(Order(st)) && Elems(Order(st)) == st.visited && st.parent.Keys <= st.visited
    ensures Ranked(st.parent, Order(st)) && (|st.queue| > 0 ==> st.queue[0] in st.cost)
  {
    if |st.queue| > 0 {
      assert st.queue[0] in Order(st);
    }
  }

  /** One pass of the loop on a node other than the goal extends the order by the newly queued nodes. */
  lemma StepOrder<N(!new)>(g: Graph<N>, goal: N, st: State<N>)
    requires |st.queue| > 0 && st.queue[0] in st.cost && st.queue[0] != goal
    requires Ranked(st.parent, Order(st)) && Elems(Order(st)) == st.visited
    requires var r := Step(g, goal, st).next; Distinct(Order(r)) && Elems(Order(r)) == r.visited
    ensures ExpansionOrder(st, Step(g, goal, st).next, st.queue[0])
  {
    var cur := st.queue[0];
    var s1 := Expanded(st);
    var r := Explore(cur, st.cost[cur], Neighbors(g, cur), s1);
    assert r == Step(g, goal, st).next;
    DequeueOrder(st);
    OrderAfter(s1, r, r.queue[|s1.queue|..]);
  }

  /** One pass of the loop on a node other than the goal links every new node to the expanded one. */
  lemma StepLinks<N(!new)>(g: Graph<N>, goal: N, st: State<N>)
    requires |st.queue| > 0 && st.queue[0] in st.cost && st.queue[0] != goal
    requires Ranked(st.parent, Order(st))
    requires var r := Step(g, goal, st).next; r.parent.Keys <= r.visited
    ensures ExpansionLinks(g, st, Step(g, goal, st).next, st.queue[0])
  {
    var cur := st.queue[0];
    var s1 := Expanded(st);
    ExploreParents(cur, st.cost[cur], Neighbors(g, cur), s1);
  }

  /** Expanding a node keeps the levels, with the newly discovered nodes one level below it. */
  lemma LevelsStep<N(!new)>(g: Graph<N>, st: State<N>, r: State<N>, cur: N, d: map<N, nat>)
    requires Expansion(g, st, r, cur) && Levels(g, st, d)
    ensures Levels(g, r, Deepen(d, r.visited, cur))
  {
    assert cur in Order(st);
    OrderLevels(st, r, cur, d);
    LinkLevels(g, st, r, cur, d);
  }

  /** The order part of `LevelsStep`: levels stay sorted and the new front is within one level of all. */
  lemma OrderLevels<N>(st: State<N>, r: State<N>, cur: N, d: map<N, nat>)
    requires ExpansionOrder(st, r, cur) && d.Keys == st.visited && Sorted(d, Order(st))
    requires forall m :: m in d ==> d[m] <= Level(d, cur) + 1
    ensures var d' := Deepen(d, r.visited, cur);
            && d'.Keys == r.visited && Sorted(d', Order(r))
            && (|r.queue| > 0 ==> forall m :: m in d' ==> d'[m] <= Level(d', r.queue[0]) + 1)
  {
    var tail := r.queue[|st.queue| - 1..];
    DistinctSplit(Order(st), tail);
    assert cur in Order(st);
    DeepenSorted(d, Order(st), tail, cur, r.visited);
    if |r.queue| > 0 {
      assert Order(r) == TraceNodes(st.trace) + [cur] + r.queue;
      FrontNear(Deepen(d, r.visited, cur), TraceNodes(st.trace), cur, r.queue);
    }
  }

  /** The link part of `LevelsStep`: parents stay one level up and neighbours of `cur` are near it. */
  lemma LinkLevels<N(!new)>(g: Graph<N>, st: State<N>, r: State<N>, cur: N, d: map<N, nat>)
    requires ExpansionLinks(g, st, r, cur) && st.visited <= r.visited
    requires TraceNodes(r.trace) == TraceNodes(st.trace) + [cur]
    requires d.Keys == st.visited && cur in d && forall m :: m in d ==> d[m] <= d[cur] + 1
    requires LevelLinked(d, st.parent) && Near(g, TraceNodes(st.trace), d)
    ensures LevelLinked(Deepen(d, r.visited, cur), r.parent)
    ensures Near(g, TraceNodes(r.trace), Deepen(d, r.visited, cur))
  {
    DeepenLinked(d, st.parent, r.parent, r.visited, cur);
    DeepenNear(g, TraceNodes(st.trace), d, cur, r.visited);
  }

  /**
   * Along a path from a level-1 node, a walk through dequeued nodes reaches
   * the first node not yet dequeued within as many levels as nodes taken;
   * that node is queued behind the front, so the front's level is at most
   * the path's length.
   */
  lemma HopsBound<N(!new)>(g: Graph<N>, d: map<N, nat>, t: seq<N>, q: seq<N>, p: seq<N>)
    requires Near(g, t, d) && Sorted(d, t + q) && Elems(t + q) == d.Keys
    requires |q| > 0 && q[0] !in t
    requires |p| >= 1 && p[0] in d && d[p[0]] == 1 && p[|p| - 1] == q[0]
    requires forall i :: 0 <= i < |p| - 1 ==> p[i + 1] in Keys(Neighbors(g, p[i]))
    ensures Level(d, q[0]) <= |p|
  {
    var i := 0;
    while i < |p| - 1 && p[i] in t
      invariant 0 <= i < |p|
      invariant p[i] in d && d[p[i]] <= i + 1
    {
      i := i + 1;
    }
    if p[i] != q[0] {
      assert p[i] in Elems(t + q);
      var k :| 0 <= k < |t + q| && (t + q)[k] == p[i];
      assert k > |t|;
      assert (t + q)[|t|] == q[0];
    }
  }

  /** When the goal is dequeued, no path to it has fewer nodes than the reconstructed one. */
  lemma GoalHops<N(!new)>(g: Graph<N>, start: N, goal: N, st: State<N>, d: map<N, nat>, p: seq<N>)
    requires Inv(g, start, goal, st) && Levels(g, st, d) && |st.queue| > 0 && st.queue[0] == goal
    requires IsPath(g, p, start, goal)
    ensures |Reconstruct(st.parent, goal, Order(st))| <= |p|
  {
    assert start in d;
    forall i | 0 <= i < |p| - 1 ensures p[i + 1] in Keys(Neighbors(g, p[i])) {
      assert Adjacent(g, p[i], p[i + 1]);
    }
    HopsBound(g, d, TraceNodes(st.trace), st.queue, p);
    assert goal in Order(st);
    ReconstructLength(st.parent, d, goal, Order(st));
  }

  /** Whatever path the loop returns has no more nodes than any path from the start to the goal. */
  lemma {:induction false} LoopHops<N(!new)>(g: Graph<N>, start: N, goal: N, st: State<N>, d: map<N, nat>)
    requires Inv(g, start, goal, st) && Levels(g, st, d)
    ensures var r := Loop(g, start, goal, st);
            r.Found? ==> forall p :: IsPath(g, p, start, goal) ==> |r.path| <= |p|
    decreases |Universe(g, start) - Elems(TraceNodes(st.trace))|
  {
    if |st.queue| > 0 {
      if st.queue[0] == goal {
        forall p | IsPath(g, p, start, goal) ensures |Loop(g, start, goal, st).path| <= |p| {
          GoalHops(g, start, goal, st, d, p);
        }
      } else {
        InvOrder(g, start, goal, st);
        ExpandInv(g, start, goal, st);
        StepShrinks(g, start, goal, st);
        var next := Step(g, goal, st).next;
        InvOrder(g, start, goal, next);
        StepOrder(g, goal, st);
        StepLinks(g, goal, st);
        LevelsStep(g, st, next, st.queue[0], d);
        LoopHops(g, start, goal, next, Deepen(d, next.visited, st.queue[0]));
      }
    }
  }

  /**
   * `BFSSearch(graph, start, goal).search()`. A found path is a simple path
   * of the graph from `start` to `goal` whose edge costs sum to the
   * reported cost; the search fails exactly when the goal is unreachable,
   * and then reports no path, infinite cost and "No path found"; nodes are
   * expanded at most once each; start = goal succeeds at once. Because the
   * queue is first-in first-out, no path from `start` to `goal` has fewer
   * nodes than the one returned.
   */
  function Search<N(==,!new)>(g: Graph<N>, start: N, goal: N): (r: SearchResult<N>)
    requires Valid(g)
    ensures r.Found? ==> IsPath(g, r.path, start, goal) && r.cost == PathCost(g, r.path) && Distinct(r.path)
    ensures r.Found? ==> forall p :: IsPath(g, p, start, goal) ==> |r.path| <= |p|
    ensures r.Success() <==> Reachable(g, start, goal)
    ensures !r.Success() ==> r.Path() == None && r.TotalCost() == Infinite && r.Error() == Some(NoPathError)
    ensures r.nodesExpanded <= |r.trace| <= |Universe(g, start)|
    ensures StepsNumbered(r.trace) && Distinct(TraceNodes(r.trace))
    ensures forall i :: 0 <= i < |r.trace| ==> r.trace[i].BfsStep?
    ensures start == goal ==> r == Found([start], 0.0, 0, [BfsStep(0, start, 0.0, 0, 1)])
  {
    InitInv(g, start, goal);
    var st := Init(start);
    var r := Loop(g, start, goal, st);
    SoundBounds(g, start, goal, r);
    InitLevels(g, start);
    LoopHops(g, start, goal, st, map[start := 1]);
    assert start == goal ==> r == Step(g, goal, st).result && Reconstruct(st.parent, goal, Order(st)) == [start];
    r
  }
}
