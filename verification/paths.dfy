/**
 * Paths through a graph, reachability, and the predecessor walk
 * `_reconstruct_path` that all three searches share.
 */
module Paths {
  import opened Wrappers
  import opened Graphs
  import opened Seqs

  /** `p` starts at `s`, ends at `t`, and each next node is in the previous node's neighbour dict. */
  predicate IsPath<N(==,!new)>(g: Graph<N>, p: seq<N>, s: N, t: N) {
    && |p| >= 1 && p[0] == s && p[|p| - 1] == t
    && forall i :: 0 <= i < |p| - 1 ==> Adjacent(g, p[i], p[i + 1])
  }

  /** Sum of the edge costs along `p`; a missing edge would contribute nothing, and paths have none. */
  function PathCost<N(==,!new)>(g: Graph<N>, p: seq<N>): real
    decreases |p|
  {
    if |p| < 2 then 0.0
    else PathCost(g, p[..|p| - 1]) + Weight(g, p[|p| - 2], p[|p| - 1]).GetOr(0.0)
  }

  /** Some path leads from `s` to `t`. */
  ghost predicate Reachable<N(!new)>(g: Graph<N>, s: N, t: N) {
    exists p :: IsPath(g, p, s, t)
  }

  /** The node set of a finished search is closed under taking neighbours. */
  ghost predicate NeighborClosed<N(!new)>(g: Graph<N>, S: set<N>) {
    forall x :: x in S ==> Keys(Neighbors(g, x)) <= S
  }

  /**
   * A set that holds `s`, lacks `t` and contains every neighbour of its
   * members leaves `t` unreachable from `s`: this is why an exhausted
   * frontier means there is no path.
   */
  lemma ClosedSetSeparates<N(!new)>(g: Graph<N>, S: set<N>, s: N, t: N)
    requires s in S && t !in S
    requires NeighborClosed(g, S)
    ensures !Reachable(g, s, t)
  {
    forall p | IsPath(g, p, s, t) ensures false {
      var i := 0;
      while i < |p| - 1
        invariant 0 <= i < |p|
        invariant p[i] in S
      {
        assert p[i + 1] in Keys(Neighbors(g, p[i]));
        i := i + 1;
      }
    }
  }

  /**
   * Every parent comes strictly earlier in `order` than its child (a node
   * missing from `order` counts as coming after all of it), so the walk up
   * the links ends.
   */
  ghost predicate Ranked<N(!new)>(parent: map<N, N>, order: seq<N>) {
    forall n :: n in parent ==> Position(order, parent[n]) < Position(order, n)
  }

  /**
   * `_reconstruct_path`: starting from `goal`, prepend the current node and
   * move to its parent until a node without a parent (the start, whose
   * parent is the `None` sentinel) has been prepended. The start's `None`
   * entry is modelled by its absence from `parent`, which `dict.get`
   * treats the same way. `order` is a proof-only witness that the links
   * contain no cycle.
   */
  function Reconstruct<N(==,!new)>(parent: map<N, N>, goal: N, ghost order: seq<N>): (path: seq<N>)
    requires Ranked(parent, order)
    ensures |path| >= 1 && path[|path| - 1] == goal
    ensures path[0] !in parent
    ensures Linked(parent, path)
    decreases Position(order, goal)
  {
    if goal in parent then Reconstruct(parent, parent[goal], order) + [goal] else [goal]
  }

  /** One step of the walk: a node with a parent extends the path reconstructed from that parent. */
  lemma ReconstructLink<N(!new)>(parent: map<N, N>, x: N, order: seq<N>, prefix: seq<N>)
    requires Ranked(parent, order) && x in parent && Reconstruct(parent, parent[x], order) == prefix
    ensures Reconstruct(parent, x, order) == prefix + [x]
  {
  }

  /**
   * Depth labels that are 1 on nodes without a parent and grow by one along
   * each parent link count the nodes of the reconstructed path.
   */
  lemma {:induction false} ReconstructLength<N(!new)>(parent: map<N, N>, d: map<N, nat>, n: N, order: seq<N>)
    requires Ranked(parent, order)
    requires forall m :: m in parent ==> m in d && parent[m] in d && d[m] == d[parent[m]] + 1
    requires forall m :: m in d && m !in parent ==> d[m] == 1
    requires n in d
    ensures |Reconstruct(parent, n, order)| == d[n]
    decreases Position(order, n)
  {
    if n in parent {
      ReconstructLength(parent, d, parent[n], order);
    }
  }

  /** Positions in `order` strictly increase along a reconstructed path, so it visits no node twice. */
  lemma {:induction false} ReconstructSimple<N(!new)>(parent: map<N, N>, goal: N, order: seq<N>)
    requires Ranked(parent, order)
    ensures forall i :: 0 <= i < |Reconstruct(parent, goal, order)| ==> Position(order, Reconstruct(parent, goal, order)[i]) <= Position(order, goal)
    ensures Distinct(Reconstruct(parent, goal, order))
    decreases Position(order, goal)
  {
    var path := Reconstruct(parent, goal, order);
    if goal in parent {
      var p := parent[goal];
      ReconstructSimple(parent, p, order);
      var prefix := Reconstruct(parent, p, order);
      assert path == prefix + [goal];
      forall i, j | 0 <= i < j < |path| ensures path[i] != path[j] {
        if j < |prefix| {
          assert path[i] == prefix[i] && path[j] == prefix[j];
        } else {
          assert Position(order, path[i]) <= Position(order, p) < Position(order, goal);
        }
      }
    }
  }

  /**
   * The tree a search leaves behind: the start has no parent and cost 0,
   * exactly the nodes with a cost other than the start have a parent, each
   * parent link is an edge of the graph, and each node's cost is its
   * parent's cost plus the cost of that edge.
   */
  ghost predicate ParentTree<N(!new)>(g: Graph<N>, parent: map<N, N>, cost: map<N, real>, start: N, order: seq<N>) {
    && start !in parent
    && cost.Keys == parent.Keys + {start}
    && cost[start] == 0.0
    && Ranked(parent, order)
    && forall n :: n in parent ==>
         && parent[n] in cost
         && Adjacent(g, parent[n], n)
         && cost[n] == cost[parent[n]] + Weight(g, parent[n], n).value
  }

  /** Links between nodes of `order` keep their order when more nodes are appended to it. */
  lemma RankedGrow<N(!new)>(parent: map<N, N>, order: seq<N>, extra: seq<N>)
    requires Ranked(parent, order)
    requires forall n :: n in parent ==> n in order && parent[n] in order
    ensures Ranked(parent, order + extra)
  {
    forall n | n in parent ensures Position(order + extra, parent[n]) < Position(order + extra, n) {
      PositionAppend(order, extra, parent[n]);
      PositionAppend(order, extra, n);
    }
  }

  /** Appending a node `x` that is not in `order` yet keeps the links ordered, provided every parent is in `order`. */
  lemma RankedAppend<N(!new)>(parent: map<N, N>, order: seq<N>, x: N)
    requires Ranked(parent, order) && x !in order
    requires forall n :: n in parent ==> parent[n] in order && (n in order || n == x)
    ensures Ranked(parent, order + [x])
  {
    forall n | n in parent ensures Position(order + [x], parent[n]) < Position(order + [x], n) {
      PositionAppend(order, [x], parent[n]);
      PositionAppend(order, [x], n);
    }
  }

  /** A parent tree whose nodes all occur in `order` stays one when more nodes are appended to `order`. */
  lemma ParentTreeGrow<N(!new)>(g: Graph<N>, parent: map<N, N>, cost: map<N, real>, start: N, order: seq<N>, extra: seq<N>)
    requires ParentTree(g, parent, cost, start, order)
    requires forall n :: n in cost ==> n in order
    ensures ParentTree(g, parent, cost, start, order + extra)
  {
    RankedGrow(parent, order, extra);
  }

  /** Linking `nb` under an earlier node `cur` keeps the links ordered. */
  lemma RankedExtend<N(!new)>(parent: map<N, N>, order: seq<N>, cur: N, nb: N)
    requires Ranked(parent, order) && Position(order, cur) < Position(order, nb)
    ensures Ranked(parent[nb := cur], order)
  {
  }

  /**
   * Linking `nb` under `cur` with the cost through `cur` keeps a parent tree,
   * provided `nb` is not the start, has no children and comes after `cur` in `order`.
   */
  lemma ParentTreeExtend<N(!new)>(g: Graph<N>, parent: map<N, N>, cost: map<N, real>, start: N, order: seq<N>,
                                  cur: N, curCost: real, nb: N, w: real)
    requires ParentTree(g, parent, cost, start, order)
    requires cur in cost && cost[cur] == curCost && nb != start && nb != cur && Weight(g, cur, nb) == Some(w)
    requires forall n :: n in parent ==> parent[n] != nb
    requires Position(order, cur) < Position(order, nb)
    ensures ParentTree(g, parent[nb := cur], cost[nb := curCost + w], start, order)
  {
    RankedExtend(parent, order, cur, nb);
    LinksExtend(g, parent, cost, cur, curCost, nb, w);
    assert cost[nb := curCost + w].Keys == parent[nb := cur].Keys + {start};
  }

  lemma LinksExtend<N(!new)>(g: Graph<N>, parent: map<N, N>, cost: map<N, real>, cur: N, curCost: real, nb: N, w: real)
    requires forall n :: n in parent ==>
               && n in cost && parent[n] in cost && Adjacent(g, parent[n], n)
               && cost[n] == cost[parent[n]] + Weight(g, parent[n], n).value
    requires cur in cost && cost[cur] == curCost && nb != cur && Weight(g, cur, nb) == Some(w)
    requires forall n :: n in parent ==> parent[n] != nb
    ensures var parent', cost' := parent[nb := cur], cost[nb := curCost + w];
            forall n :: n in parent' ==>
              && parent'[n] in cost' && Adjacent(g, parent'[n], n)
              && cost'[n] == cost'[parent'[n]] + Weight(g, parent'[n], n).value
  {
    var parent', cost' := parent[nb := cur], cost[nb := curCost + w];
    forall n | n in parent'
      ensures && parent'[n] in cost' && Adjacent(g, parent'[n], n)
              && cost'[n] == cost'[parent'[n]] + Weight(g, parent'[n], n).value
    {
      if n != nb {
        var p := parent[n];
        assert parent'[n] == p && p != nb && p in cost;
        assert cost'[n] == cost[n] && cost'[p] == cost[p];
      }
    }
  }

  /** A chain of parent links from a node with a cost starts at the start and walks along edges. */
  predicate Linked<N(==,!new)>(parent: map<N, N>, path: seq<N>) {
    forall i :: 1 <= i < |path| ==> path[i] in parent && parent[path[i]] == path[i - 1]
  }

  /** A linked chain that ends at a node with a cost starts at the start and follows graph edges. */
  lemma LinkedIsPath<N(!new)>(g: Graph<N>, parent: map<N, N>, cost: map<N, real>, start: N, order: seq<N>, path: seq<N>)
    requires ParentTree(g, parent, cost, start, order)
    requires |path| >= 1 && path[|path| - 1] in cost && path[0] !in parent && Linked(parent, path)
    ensures IsPath(g, path, start, path[|path| - 1])
  {
    if |path| > 1 {
      assert path[0] == parent[path[1]];
    }
    forall i | 0 <= i < |path| - 1 ensures Adjacent(g, path[i], path[i + 1]) {
      assert parent[path[i + 1]] == path[i];
    }
  }

  /** Along a linked chain from the start, the edge costs add up to the last node's cost. */
  lemma {:induction false} LinkedCost<N(!new)>(g: Graph<N>, parent: map<N, N>, cost: map<N, real>, start: N,
                                              path: seq<N>)
    requires start in cost && cost[start] == 0.0
    requires forall n :: n in parent ==>
               && n in cost && parent[n] in cost && Adjacent(g, parent[n], n)
               && cost[n] == cost[parent[n]] + Weight(g, parent[n], n).value
    requires |path| >= 1 && path[0] == start && Linked(parent, path)
    ensures PathCost(g, path) == cost[path[|path| - 1]]
    decreases |path|
  {
    if |path| >= 2 {
      var init := path[..|path| - 1];
      assert Linked(parent, init) by {
        forall i | 1 <= i < |init| ensures init[i] in parent && parent[init[i]] == init[i - 1] {
          assert init[i] == path[i] && init[i - 1] == path[i - 1];
        }
      }
      LinkedCost(g, parent, cost, start, init);
      var x, p := path[|path| - 1], path[|path| - 2];
      assert parent[x] == p && init[|init| - 1] == p;
      assert cost[x] == cost[p] + Weight(g, p, x).value;
      assert PathCost(g, path) == PathCost(g, init) + Weight(g, p, x).GetOr(0.0);
    }
  }

  /** The reconstructed path of a node with a cost runs from the start to that node along graph edges. */
  lemma ReconstructIsPath<N(!new)>(g: Graph<N>, parent: map<N, N>, cost: map<N, real>,
                                   start: N, order: seq<N>, goal: N)
    requires ParentTree(g, parent, cost, start, order)
    requires goal in cost
    ensures IsPath(g, Reconstruct(parent, goal, order), start, goal)
  {
    LinkedIsPath(g, parent, cost, start, order, Reconstruct(parent, goal, order));
  }

  /** The edge costs along the reconstructed path of a node add up to the node's recorded cost. */
  lemma ReconstructCost<N(!new)>(g: Graph<N>, parent: map<N, N>, cost: map<N, real>,
                                 start: N, order: seq<N>, goal: N)
    requires ParentTree(g, parent, cost, start, order)
    requires goal in cost
    ensures PathCost(g, Reconstruct(parent, goal, order)) == cost[goal]
  {
    ReconstructIsPath(g, parent, cost, start, order, goal);
    LinkedCost(g, parent, cost, start, Reconstruct(parent, goal, order));
  }

  /** The parent links determine the path: a linked chain from a node without a parent is what `_reconstruct_path` returns. */
  lemma {:induction false} ReconstructUnique<N(!new)>(parent: map<N, N>, path: seq<N>, order: seq<N>)
    requires Ranked(parent, order)
    requires |path| >= 1 && path[0] !in parent && Linked(parent, path)
    ensures Reconstruct(parent, path[|path| - 1], order) == path
    decreases |path|
  {
    if |path| > 1 {
      var prefix := path[..|path| - 1];
      assert Linked(parent, prefix) by {
        forall i | 1 <= i < |prefix| ensures prefix[i] in parent && parent[prefix[i]] == prefix[i - 1] {
          assert prefix[i] == path[i] && prefix[i - 1] == path[i - 1];
        }
      }
      ReconstructUnique(parent, prefix, order);
      assert path == prefix + [path[|path| - 1]];
    }
  }
}
