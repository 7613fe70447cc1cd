/** The result record every strategy returns, and its per-step trace. */
module Results {
  import opened Wrappers
  import opened Seqs

  /** One trace record, with the fields each strategy writes. */
  datatype Step<N> =
    | AStarStep(step: nat, node: N, g: real, h: real, f: real, openSize: nat, closedSize: nat)
    | BfsStep(step: nat, node: N, cost: real, queueSize: nat, visitedSize: nat)
    | DfsStep(step: nat, node: N, cost: real, visitedSize: nat)

  /** A reported cost; `Infinite` stands for `float('inf')`. */
  datatype Cost = Finite(value: real) | Infinite

  /** The error text of a failed search. */
  const NoPathError: string := "No path found"

  /**
   * The dict a search returns. `Found` has `success = True`; `NotFound` has
   * `success = False`, `path = None`, infinite cost and the error text.
   */
  datatype SearchResult<N> =
    | Found(path: seq<N>, cost: real, nodesExpanded: nat, trace: seq<Step<N>>)
    | NotFound(nodesExpanded: nat, trace: seq<Step<N>>)
  {
    predicate Success() {
      Found?
    }

    function Path(): Option<seq<N>> {
      if Found? then Some(path) else None
    }

    function TotalCost(): Cost {
      if Found? then Finite(cost) else Infinite
    }

    function Error(): Option<string> {
      if Found? then None else Some(NoPathError)
    }
  }

  /** Trace records carry step numbers 0, 1, 2, ... in order. */
  predicate StepsNumbered<N>(trace: seq<Step<N>>) {
    forall i :: 0 <= i < |trace| ==> trace[i].step == i
  }

  /** The node of each trace record, in order. */
  function TraceNodes<N>(trace: seq<Step<N>>): (nodes: seq<N>)
    ensures |nodes| == |trace|
    ensures forall i :: 0 <= i < |trace| ==> nodes[i] == trace[i].node
    decreases |trace|
  {
    if |trace| == 0 then [] else TraceNodes(trace[..|trace| - 1]) + [trace[|trace| - 1].node]
  }

  lemma TraceNodesAppend<N>(trace: seq<Step<N>>, s: Step<N>)
    ensures TraceNodes(trace + [s]) == TraceNodes(trace) + [s.node]
  {
    assert (trace + [s])[..|trace|] == trace;
  }
}
