/** What every strategy promises about the result it returns. */
module Outcomes {
  import opened Wrappers
  import opened Graphs
  import opened Seqs
  import opened Paths
  import opened Results

  /**
   * A sound and complete search result: a found path is a real path from
   * `start` to `goal` whose edge costs add up to the reported cost and
   * which visits no node twice; the search fails exactly when no path
   * exists; the trace is numbered 0, 1, 2, ..., names each node at most
   * once and only nodes the search can reach, and holds one record per
   * expanded node plus, on success, the record of the goal.
   */
  ghost predicate Sound<N(!new)>(g: Graph<N>, start: N, goal: N, r: SearchResult<N>) {
    && (r.Found? ==>
          && IsPath(g, r.path, start, goal)
          && r.cost == PathCost(g, r.path)
          && Distinct(r.path)
          && |r.trace| == r.nodesExpanded + 1
          && r.trace[|r.trace| - 1].node == goal)
    && (r.NotFound? ==> |r.trace| == r.nodesExpanded)
    && (r.Found? <==> Reachable(g, start, goal))
    && StepsNumbered(r.trace)
    && Distinct(TraceNodes(r.trace))
    && Elems(TraceNodes(r.trace)) <= Universe(g, start)
  }

  /** A sound result expands at most as many nodes as the search can reach, and traces no more. */
  lemma SoundBounds<N(!new)>(g: Graph<N>, start: N, goal: N, r: SearchResult<N>)
    requires Sound(g, start, goal, r)
    ensures r.nodesExpanded <= |r.trace| <= |Universe(g, start)|
  {
    DistinctCard(TraceNodes(r.trace));
    SubsetCard(Elems(TraceNodes(r.trace)), Universe(g, start));
  }
}
