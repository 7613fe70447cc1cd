/**
 * `DFSSearch.search` and `_dfs_recursive` (backend/app.py): recursive
 * depth-first search. Visiting a node marks it visited and records it;
 * the goal stops the whole search at once; any other node is counted as
 * expanded and each neighbour not yet visited is linked to it, costed and
 * visited in turn, stopping as soon as one of those visits finds the goal.
 * A node is linked and costed just before it is visited and never again,
 * so each node is visited at most once and the reported cost is the weight
 * of the returned path.
 */
module Dfs {
  import opened Wrappers
  import opened Graphs
  import opened Seqs
  import opened Paths
  import opened Results
  import opened Outcomes

  /** The fields of `DFSSearch`; the step counter is the length of the trace. */
  datatype State<N> = State(
    visited: set<N>,
    parent: map<N, N>,
    cost: map<N, real>,
    trace: seq<Step<N>>,
    expanded: nat)

  /** The value of one `_dfs_recursive` call: whether the goal was found, and the state afterwards. */
  datatype Outcome<N> = Outcome(found: bool, st: State<N>)

  /** `__init__`: nothing visited, the start costed 0 and without a parent. */
  function Init<N(==,!new)>(start: N): (r: State<N>)
    ensures r.visited == {} && r.cost == map[start := 0.0] && start !in r.parent
    ensures r.trace == [] && r.expanded == 0
  {
    State({}, map[], map[start := 0.0], [], 0)
  }

  /** Marking `node` visited and writing its trace record with its cost and the new visited size. */
  function Mark<N(==)>(node: N, st: State<N>): State<N>
    requires node in st.cost
  {
    var visited := st.visited + {node};
    st.(visited := visited, trace := st.trace + [DfsStep(|st.trace|, node, st.cost[node], |visited|)])
  }

  /** Linking the unvisited neighbour `nb` under `cur` with the cost through `cur`. */
  function Link<N(==)>(cur: N, curCost: real, nb: N, w: real, st: State<N>): State<N> {
    st.(parent := st.parent[nb := cur], cost := st.cost[nb := curCost + w])
  }

  /** `_dfs_recursive(node)`. `start` only names the set of nodes the search can reach, which bounds the recursion. */
  function Visit<N(==,!new)>(g: Graph<N>, ghost start: N, goal: N, node: N, st: State<N>): (o: Outcome<N>)
    requires node in Universe(g, start) && node !in st.visited && node in st.cost
    ensures st.visited + {node} <= o.st.visited
    decreases |Universe(g, start) - st.visited|, 0, 0
  {
    var marked := Mark(node, st);
    if node == goal then Outcome(true, marked)
    else
      CloseOneShrinks(Universe(g, start), st.visited, node);
      Explore(g, start, goal, node, st.cost[node], Neighbors(g, node), marked.(expanded := st.expanded + 1))
  }

  /** The neighbour loop of `_dfs_recursive` over the remaining neighbours `nbrs` of `cur`. */
  function Explore<N(==,!new)>(g: Graph<N>, ghost start: N, goal: N, cur: N, curCost: real,
                               nbrs: Adjacency<N>, st: State<N>): (o: Outcome<N>)
    requires forall p :: p in nbrs ==> p in Neighbors(g, cur)
    ensures st.visited <= o.st.visited
    decreases |Universe(g, start) - st.visited|, 1, |nbrs|
  {
    if |nbrs| == 0 then Outcome(false, st)
    else
      var nb, w := nbrs[0].0, nbrs[0].1;
      assert nbrs[0] in Neighbors(g, cur) && nb in Keys(Neighbors(g, cur));
      assert forall p :: p in nbrs[1..] ==> p in nbrs;
      if nb in st.visited then Explore(g, start, goal, cur, curCost, nbrs[1..], st)
      else
        var o := Visit(g, start, goal, nb, Link(cur, curCost, nb, w, st));
        if o.found then o
        else
          DiffShrinks(Universe(g, start), st.visited, o.st.visited);
          Explore(g, start, goal, cur, curCost, nbrs[1..], o.st)
  }

  // ---------------------------------------------------------------------
  // What holds around each call.
  // ---------------------------------------------------------------------

  /** Every trace record is a DFS record. */
  ghost predicate TraceOk<N>(trace: seq<Step<N>>) {
    forall i :: 0 <= i < |trace| ==> trace[i].DfsStep?
  }

  /**
   * Holds between any two steps: the visited nodes are exactly the traced
   * ones, each traced once; costs and links form a tree rooted at the start
   * whose parents are all visited.
   */
  ghost predicate Core<N(!new)>(g: Graph<N>, start: N, st: State<N>) {
    && Valid(g)
    && st.visited <= Universe(g, start)
    && st.visited == Elems(TraceNodes(st.trace)) && Distinct(TraceNodes(st.trace))
    && StepsNumbered(st.trace) && TraceOk(st.trace)
    && ParentTree(g, st.parent, st.cost, start, TraceNodes(st.trace))
    && forall n :: n in st.parent ==> st.parent[n] in st.visited
  }

  /** On entry to `_dfs_recursive(node)`: `node` is costed but not visited, and the goal has not been found. */
  ghost predicate PreVisit<N(!new)>(g: Graph<N>, start: N, goal: N, node: N, st: State<N>) {
    && Core(g, start, st)
    && node in Universe(g, start) && node !in st.visited && st.cost.Keys == st.visited + {node}
    && goal !in st.visited && st.expanded == |st.trace|
  }

  /** At each iteration of the neighbour loop of the visited node `cur`. */
  ghost predicate PreExplore<N(!new)>(g: Graph<N>, start: N, goal: N, cur: N, curCost: real,
                                      nbrs: Adjacency<N>, st: State<N>) {
    && Core(g, start, st)
    && st.cost.Keys == st.visited && cur in st.visited && cur in st.cost && st.cost[cur] == curCost
    && goal !in st.visited && st.expanded == |st.trace|
    && forall p :: p in nbrs ==> p in Neighbors(g, cur)
  }

  /**
   * After a call that started in `st`: every costed node is visited, the
   * visited set only grew and kept its costs; a success has just traced the
   * goal, its last record; a failure has not visited the goal, and every
   * node it newly visited has all its neighbours visited.
   */
  ghost predicate Post<N(!new)>(g: Graph<N>, start: N, goal: N, st: State<N>, o: Outcome<N>) {
    && Core(g, start, o.st) && o.st.cost.Keys == o.st.visited && st.visited <= o.st.visited
    && (forall n :: n in st.visited && n in st.cost ==> n in o.st.cost && o.st.cost[n] == st.cost[n])
    && (o.found ==> |o.st.trace| == o.st.expanded + 1 && o.st.trace[|o.st.trace| - 1].node == goal)
    && (!o.found ==>
          && goal !in o.st.visited && o.st.expanded == |o.st.trace|
          && forall x :: x in o.st.visited && x !in st.visited ==> Keys(Neighbors(g, x)) <= o.st.visited)
  }

  // ---------------------------------------------------------------------
  // The proofs, by induction along the two mutually recursive functions.
  // ---------------------------------------------------------------------

  lemma RecordsAppend<N>(trace: seq<Step<N>>, rec: Step<N>)
    requires StepsNumbered(trace) && TraceOk(trace) && rec.DfsStep? && rec.step == |trace|
    ensures StepsNumbered(trace + [rec]) && TraceOk(trace + [rec])
  {
  }

  /** Marking a node on entry keeps the core facts, and afterwards every costed node is visited. */
  lemma MarkCore<N(!new)>(g: Graph<N>, start: N, goal: N, node: N, st: State<N>)
    requires PreVisit(g, start, goal, node, st)
    ensures Core(g, start, Mark(node, st)) && Mark(node, st).cost.Keys == Mark(node, st).visited
    ensures TraceNodes(Mark(node, st).trace) == TraceNodes(st.trace) + [node]
  {
    MarkTrace(st.visited, node, st);
    TreeMark(g, st.parent, st.cost, start, TraceNodes(st.trace), node);
  }

  /** The trace facts after marking a node that is not visited yet. */
  lemma MarkTrace<N(!new)>(visited: set<N>, node: N, st: State<N>)
    requires node in st.cost && node !in visited && visited == st.visited
    requires visited == Elems(TraceNodes(st.trace)) && Distinct(TraceNodes(st.trace))
    requires StepsNumbered(st.trace) && TraceOk(st.trace)
    ensures var m := Mark(node, st);
            && TraceNodes(m.trace) == TraceNodes(st.trace) + [node]
            && m.visited == Elems(TraceNodes(m.trace)) && Distinct(TraceNodes(m.trace))
            && StepsNumbered(m.trace) && TraceOk(m.trace)
  {
    var tn := TraceNodes(st.trace);
    var rec := DfsStep(|st.trace|, node, st.cost[node], |st.visited + {node}|);
    TraceNodesAppend(st.trace, rec);
    ElemsAppend(tn, node);
    DistinctAppend(tn, node);
    RecordsAppend(st.trace, rec);
  }

  /** The tree stays ordered when the one costed, untraced node is traced. */
  lemma TreeMark<N(!new)>(g: Graph<N>, parent: map<N, N>, cost: map<N, real>, start: N, order: seq<N>, node: N)
    requires ParentTree(g, parent, cost, start, order)
    requires node !in order && cost.Keys == Elems(order) + {node}
    requires forall n :: n in parent ==> parent[n] in Elems(order)
    ensures ParentTree(g, parent, cost, start, order + [node])
  {
    assert forall n :: n in parent ==> n in cost;
    RankedAppend(parent, order, node);
  }

  /** Linking an unvisited neighbour keeps the core facts and makes it the one costed, unvisited node. */
  lemma LinkCore<N(!new)>(g: Graph<N>, start: N, cur: N, curCost: real, nb: N, w: real, st: State<N>)
    requires Core(g, start, st) && st.cost.Keys == st.visited
    requires cur in st.visited && cur in st.cost && st.cost[cur] == curCost
    requires (nb, w) in Neighbors(g, cur) && nb !in st.visited
    ensures Core(g, start, Link(cur, curCost, nb, w, st))
    ensures Link(cur, curCost, nb, w, st).cost.Keys == st.visited + {nb}
  {
    var tn := TraceNodes(st.trace);
    LookupOfMember(Neighbors(g, cur), nb, w);
    assert cur in tn;
    ParentTreeExtend(g, st.parent, st.cost, start, tn, cur, curCost, nb, w);
  }

  /** Visiting a node, when `_dfs_recursive` is entered as it always is, ends in `Post`. */
  lemma {:induction false} VisitInv<N(!new)>(g: Graph<N>, start: N, goal: N, node: N, st: State<N>)
    requires PreVisit(g, start, goal, node, st)
    ensures Post(g, start, goal, st, Visit(g, start, goal, node, st))
    decreases |Universe(g, start) - st.visited|, 0, 0
  {
    MarkCore(g, start, goal, node, st);
    if node != goal {
      var marked := Mark(node, st).(expanded := st.expanded + 1);
      CloseOneShrinks(Universe(g, start), st.visited, node);
      ExploreInv(g, start, goal, node, st.cost[node], Neighbors(g, node), marked);
      VisitClose(g, start, goal, node, st, marked, Explore(g, start, goal, node, st.cost[node], Neighbors(g, node), marked));
    }
  }

  /** The closing step of `VisitInv`: the visited node's own neighbours are all visited after its loop. */
  lemma VisitClose<N(!new)>(g: Graph<N>, start: N, goal: N, node: N, st: State<N>, marked: State<N>, o: Outcome<N>)
    requires node in st.cost && marked.visited == st.visited + {node} && marked.cost == st.cost
    requires Post(g, start, goal, marked, o)
    requires !o.found ==> forall p :: p in Neighbors(g, node) ==> p.0 in o.st.visited
    ensures Post(g, start, goal, st, o)
  {
    if !o.found {
      forall k | k in Keys(Neighbors(g, node)) ensures k in o.st.visited {
        var i :| 0 <= i < |Neighbors(g, node)| && Neighbors(g, node)[i].0 == k;
        assert Neighbors(g, node)[i] in Neighbors(g, node);
      }
    }
  }

  /** Running the neighbour loop from `PreExplore` ends in `Post`, and a failure has visited every listed neighbour. */
  lemma {:induction false} ExploreInv<N(!new)>(g: Graph<N>, start: N, goal: N, cur: N, curCost: real,
                                              nbrs: Adjacency<N>, st: State<N>)
    requires PreExplore(g, start, goal, cur, curCost, nbrs, st)
    ensures ExplorePost(g, start, goal, st, nbrs, Explore(g, start, goal, cur, curCost, nbrs, st))
    decreases |Universe(g, start) - st.visited|, 1, |nbrs|
  {
    if |nbrs| > 0 {
      var nb, w := nbrs[0].0, nbrs[0].1;
      assert nbrs[0] in Neighbors(g, cur) && nb in Keys(Neighbors(g, cur));
      assert forall p :: p in nbrs[1..] ==> p in nbrs;
      if nb in st.visited {
        ExploreInv(g, start, goal, cur, curCost, nbrs[1..], st);
        ExploreSkip(g, start, goal, nbrs, st, Explore(g, start, goal, cur, curCost, nbrs[1..], st));
      } else {
        var linked := Link(cur, curCost, nb, w, st);
        LinkCore(g, start, cur, curCost, nb, w, st);
        VisitInv(g, start, goal, nb, linked);
        var o := Visit(g, start, goal, nb, linked);
        PostUnlink(g, start, goal, st, cur, curCost, nb, w, o);
        if !o.found {
          DiffShrinks(Universe(g, start), st.visited, o.st.visited);
          ExploreInv(g, start, goal, cur, curCost, nbrs[1..], o.st);
          ExploreChain(g, start, goal, nbrs, st, o.st, Explore(g, start, goal, cur, curCost, nbrs[1..], o.st));
        }
      }
    }
  }

  /** `Post` of a neighbour loop, plus: a failure has visited every listed neighbour. */
  ghost predicate ExplorePost<N(!new)>(g: Graph<N>, start: N, goal: N, st: State<N>, nbrs: Adjacency<N>, o: Outcome<N>) {
    Post(g, start, goal, st, o) && (!o.found ==> forall p :: p in nbrs ==> p.0 in o.st.visited)
  }

  /** The rest of the loop after the first neighbour's visit failed in `mid`. */
  lemma ExploreChain<N(!new)>(g: Graph<N>, start: N, goal: N, nbrs: Adjacency<N>, st: State<N>, mid: State<N>,
                              o: Outcome<N>)
    requires |nbrs| > 0 && nbrs[0].0 in mid.visited
    requires Post(g, start, goal, st, Outcome(false, mid))
    requires ExplorePost(g, start, goal, mid, nbrs[1..], o)
    ensures ExplorePost(g, start, goal, st, nbrs, o)
  {
    PostChain(g, start, goal, st, mid, o);
    ExploreCovered(nbrs, mid, o);
  }

  /** A `Post` about the linked state is one about the state before the link. */
  lemma PostUnlink<N(!new)>(g: Graph<N>, start: N, goal: N, st: State<N>, cur: N, curCost: real, nb: N, w: real,
                            o: Outcome<N>)
    requires nb !in st.visited
    requires Post(g, start, goal, Link(cur, curCost, nb, w, st), o)
    ensures Post(g, start, goal, st, o)
  {
  }

  /** Two calls in a row: the second starts where the first ended without finding the goal. */
  lemma PostChain<N(!new)>(g: Graph<N>, start: N, goal: N, st: State<N>, mid: State<N>, o: Outcome<N>)
    requires Post(g, start, goal, st, Outcome(false, mid))
    requires Post(g, start, goal, mid, o)
    ensures Post(g, start, goal, st, o)
  {
  }

  /** The neighbour visited first is still visited after the rest of the loop. */
  lemma ExploreCovered<N(!new)>(nbrs: Adjacency<N>, mid: State<N>, o: Outcome<N>)
    requires |nbrs| > 0 && nbrs[0].0 in mid.visited && mid.visited <= o.st.visited
    requires !o.found ==> forall p :: p in nbrs[1..] ==> p.0 in o.st.visited
    ensures !o.found ==> forall p :: p in nbrs ==> p.0 in o.st.visited
  {
    if !o.found {
      forall p | p in nbrs ensures p.0 in o.st.visited {
        if p != nbrs[0] {
          var i :| 0 <= i < |nbrs| && nbrs[i] == p;
          assert nbrs[1..][i - 1] == p;
        }
      }
    }
  }

  /** Skipping a visited neighbour: the rest of the loop's facts cover the whole list. */
  lemma ExploreSkip<N(!new)>(g: Graph<N>, start: N, goal: N, nbrs: Adjacency<N>, st: State<N>, o: Outcome<N>)
    requires |nbrs| > 0 && nbrs[0].0 in st.visited
    requires ExplorePost(g, start, goal, st, nbrs[1..], o)
    ensures ExplorePost(g, start, goal, st, nbrs, o)
  {
    ExploreCovered(nbrs, st, o);
  }

  // ---------------------------------------------------------------------
  // The search.
  // ---------------------------------------------------------------------

  /** The first call `_dfs_recursive(start)` is entered as `VisitInv` needs. */
  lemma InitPre<N(!new)>(g: Graph<N>, start: N, goal: N)
    requires Valid(g)
    ensures PreVisit(g, start, goal, start, Init(start))
  {
  }

  /** What `search` returns once the first call has ended in `o`. */
  function Finish<N(==,!new)>(goal: N, o: Outcome<N>): (r: SearchResult<N>)
    requires o.found ==> goal in o.st.cost && Ranked(o.st.parent, TraceNodes(o.st.trace))
    ensures r.Success() <==> o.found
    ensures o.found ==> r.Path() == Some(Reconstruct(o.st.parent, goal, TraceNodes(o.st.trace)))
                        && r.TotalCost() == Finite(o.st.cost[goal])
    ensures !o.found ==> r.Path() == None && r.TotalCost() == Infinite && r.Error() == Some(NoPathError)
    ensures r.nodesExpanded == o.st.expanded && r.trace == o.st.trace
  {
    if o.found then
      Found(Reconstruct(o.st.parent, goal, TraceNodes(o.st.trace)), o.st.cost[goal], o.st.expanded, o.st.trace)
    else NotFound(o.st.expanded, o.st.trace)
  }

  /** `search`'s result, stated on a `Post` of the first call. */
  lemma SearchSound<N(!new)>(g: Graph<N>, start: N, goal: N, o: Outcome<N>)
    requires Post(g, start, goal, Init(start), o)
    ensures o.found ==> goal in o.st.cost && Ranked(o.st.parent, TraceNodes(o.st.trace))
    ensures Sound(g, start, goal, Finish(goal, o)) && TraceOk(Finish(goal, o).trace)
    ensures var r := Finish(goal, o);
            r.Found? ==> IsPath(g, r.path, start, goal) && r.cost == PathCost(g, r.path) && Distinct(r.path)
  {
    var st := o.st;
    var tn := TraceNodes(st.trace);
    if o.found {
      assert goal in tn;
      ReconstructIsPath(g, st.parent, st.cost, start, tn, goal);
      ReconstructCost(g, st.parent, st.cost, start, tn, goal);
      ReconstructSimple(st.parent, goal, tn);
    } else {
      assert start in st.visited;
      ClosedSetSeparates(g, st.visited, start, goal);
    }
  }

  /** With start = goal the first call marks the start and stops, so the search returns `[start]` at cost 0. */
  lemma SameGoal<N(!new)>(g: Graph<N>, start: N, goal: N)
    requires start == goal
    ensures Visit(g, start, goal, start, Init(start)).found
    ensures Finish(goal, Visit(g, start, goal, start, Init(start))) == Found([start], 0.0, 0, [DfsStep(0, start, 0.0, 1)])
  {
    assert |{start}| == 1;
  }

  /**
   * `DFSSearch(graph, start, goal).search()`. A found path is a simple path
   * of the graph from `start` to `goal` whose edge costs sum to the
   * reported cost; the search fails exactly when the goal is unreachable,
   * and then reports no path, infinite cost and "No path found"; nodes are
   * visited at most once each; start = goal succeeds at once.
   */
  function Search<N(==,!new)>(g: Graph<N>, start: N, goal: N): (r: SearchResult<N>)
    requires Valid(g)
    ensures r.Found? ==> IsPath(g, r.path, start, goal) && r.cost == PathCost(g, r.path) && Distinct(r.path)
    ensures r.Success() <==> Reachable(g, start, goal)
    ensures !r.Success() ==> r.Path() == None && r.TotalCost() == Infinite && r.Error() == Some(NoPathError)
    ensures r.nodesExpanded <= |r.trace| <= |Universe(g, start)|
    ensures StepsNumbered(r.trace) && Distinct(TraceNodes(r.trace))
    ensures forall i :: 0 <= i < |r.trace| ==> r.trace[i].DfsStep?
    ensures start == goal ==> r == Found([start], 0.0, 0, [DfsStep(0, start, 0.0, 1)])
  {
    InitPre(g, start, goal);
    VisitInv(g, start, goal, start, Init(start));
    var o := Visit(g, start, goal, start, Init(start));
    SearchSound(g, start, goal, o);
    SoundBounds(g, start, goal, Finish(goal, o));
    if start == goal then SameGoal(g, start, goal); Finish(goal, o) else Finish(goal, o)
  }
}
