/**
 * The frontier order of `AStarSearch.search` (backend/app.py:136, 192).
 *
 * Every push is the tuple `(f, id(self), record)`, where `record` is a dict
 * and `id(self)` is the same integer for every push of one search. Python
 * compares tuples element by element, so two entries with equal f reach the
 * third element; two different dicts cannot be ordered and the comparison
 * raises `TypeError`. `heapq.heappush` compares the new item with its
 * parent slot, so an equal-f push onto a heap whose parent slot holds an
 * equal-f entry aborts the search.
 *
 * The first half of this module models that push as written. The second
 * half is the order the rest of the model uses instead (`AStar.Before`:
 * f, then push number), which never fails and always has a strict minimum.
 */
module TieBreak {
  import opened Wrappers
  import opened Graphs
  import opened Results
  import opened Paths
  import AStar
  import AStarFixture

  // ---------------------------------------------------------------------
  // The push as written.
  // ---------------------------------------------------------------------

  /** The dict pushed as the third tuple element. */
  datatype Record<N> = Record(node: N, g: real, h: real, f: real)

  /** The tuple `(f, id(self), record)`. */
  datatype Item<N> = Item(f: real, ident: int, rec: Record<N>)

  /** The tuple the source pushes for a model entry, with `ident` standing for `id(self)`. */
  function AsWritten<N>(e: AStar.Entry<N>, ident: int): Item<N> {
    Item(e.f, ident, Record(e.node, e.g, e.h, e.f))
  }

  /**
   * Python's `a < b` on two such tuples: decided by the first elements that
   * differ; `None` when that is the pair of dicts, which raises `TypeError`.
   * Equal tuples are not less.
   */
  function TupleLess<N(==)>(a: Item<N>, b: Item<N>): (r: Option<bool>)
    ensures r.None? <==> a.f == b.f && a.ident == b.ident && a.rec != b.rec
    ensures r == Some(true) <==> a.f < b.f || (a.f == b.f && a.ident < b.ident)
  {
    if a.f != b.f then Some(a.f < b.f)
    else if a.ident != b.ident then Some(a.ident < b.ident)
    else if a.rec == b.rec then Some(false)
    else None
  }

  /**
   * `heapq._siftdown(heap, 0, pos)` moving `item` up from slot `pos`: while
   * there is a parent slot and `item < parent`, the parent moves down into
   * the hole; then `item` fills the hole. `None` when a comparison raises.
   * If `item` compares with every entry outside the hole, the sift cannot
   * raise; when it succeeds, the entries are those of `heap` with the hole's
   * content replaced by `item`.
   */
  function SiftDown<N(==)>(heap: seq<Item<N>>, pos: nat, item: Item<N>): (r: Option<seq<Item<N>>>)
    requires pos < |heap|
    ensures (forall j :: 0 <= j < |heap| && j != pos ==> TupleLess(item, heap[j]).Some?) ==> r.Some?
    ensures r.Some? ==> |r.value| == |heap| && multiset(r.value) == multiset(heap) - multiset{heap[pos]} + multiset{item}
    decreases pos
  {
    if pos == 0 then Some(heap[pos := item])
    else
      var pp := (pos - 1) / 2;
      match TupleLess(item, heap[pp])
      case None => None
      case Some(less) =>
        if less then SiftDown(heap[pos := heap[pp]], pp, item) else Some(heap[pos := item])
  }

  /**
   * `heapq.heappush(heap, item)`: append, then sift the new item up. Onto an
   * empty heap it always succeeds; it raises when the first comparison, with
   * the parent slot `(n - 1) // 2`, meets an equal f, the same `id` and a
   * different dict; and it succeeds, adding exactly `item`, whenever no
   * entry ties with `item` that way.
   */
  function HeapPush<N(==)>(heap: seq<Item<N>>, item: Item<N>): (r: Option<seq<Item<N>>>)
    ensures |heap| == 0 ==> r == Some([item])
    ensures |heap| > 0 && TupleLess(item, heap[(|heap| - 1) / 2]).None? ==> r.None?
    ensures (forall j :: 0 <= j < |heap| ==> TupleLess(item, heap[j]).Some?) ==> r.Some?
    ensures r.Some? ==> multiset(r.value) == multiset(heap) + multiset{item}
  {
    var h := heap + [item];
    assert forall j :: 0 <= j < |heap| ==> h[j] == heap[j];
    assert |heap| == 0 ==> h[0 := item] == [item];
    SiftDown(h, |heap|, item)
  }

  /**
   * A three-node map built by `add_edge('A', 'B', 1)` and
   * `add_edge('A', 'C', 1)` with every heuristic 0: both neighbours of A get
   * f = 1.
   */
  function TieGraph(): Graph<char> {
    Graph({'A', 'B', 'C'},
          map['A' := [('B', 1.0), ('C', 1.0)], 'B' := [('A', 1.0)], 'C' := [('A', 1.0)]],
          map['A' := 0.0, 'B' := 0.0, 'C' := 0.0])
  }

  /** The state after A* from A has expanded A on `TieGraph`: B and C are on the frontier, both at f = 1. */
  function TieExpanded(): AStar.State<char> {
    AStar.State([AStar.Entry(1.0, 1, 'B', 1.0, 0.0), AStar.Entry(1.0, 2, 'C', 1.0, 0.0)], {'A'},
                map['B' := 'A', 'C' := 'A'], map['A' := 0.0, 'B' := 1.0, 'C' := 1.0],
                [AStarStep(0, 'A', 0.0, 0.0, 0.0, 0, 0)], 1, 3)
  }

  /** The first pass of A* from A on `TieGraph` pops A and relaxes B, then C, each with f = 1. */
  lemma TieFirst(g: Graph<char>, st: AStar.State<char>)
    requires g == TieGraph() && st == AStar.Init(g, 'A')
    ensures AStar.Popped(st).node == 'A'
    ensures AStar.Step(g, 'B', st) == AStar.Continue(TieExpanded())
  {
    assert AStar.MinIndex(st.open) == 0;
    assert Neighbors(g, 'A') == [('B', 1.0), ('C', 1.0)];
    var c := AStar.Closed(st);
    var c1 := AStar.RelaxOne(g, 'A', 0.0, 'B', 1.0, c);
    assert AStar.Relax(g, 'A', 0.0, [('B', 1.0), ('C', 1.0)], c) == AStar.Relax(g, 'A', 0.0, [('C', 1.0)], c1);
    assert AStar.Relax(g, 'A', 0.0, [('C', 1.0)], c1)
        == AStar.Relax(g, 'A', 0.0, [], AStar.RelaxOne(g, 'A', 0.0, 'C', 1.0, c1));
  }

  /**
   * Searching A to B on `TieGraph`: the first pass pops A and pushes B and C
   * with f = 1. In the source, A was the only entry, so B is pushed onto an
   * empty heap and C is then compared with B: equal f, equal `id(self)`,
   * different dicts, and `heappush` raises before the search can finish.
   */
  lemma TieRaises(ident: int)
    ensures AStar.Step(TieGraph(), 'B', AStar.Init(TieGraph(), 'A')) == AStar.Continue(TieExpanded())
    ensures var b := AsWritten(TieExpanded().open[0], ident);
            var c := AsWritten(TieExpanded().open[1], ident);
            HeapPush([], b) == Some([b]) && HeapPush([b], c).None?
  {
    TieFirst(TieGraph(), AStar.Init(TieGraph(), 'A'));
  }

  // ---------------------------------------------------------------------
  // The order the model uses instead.
  // ---------------------------------------------------------------------

  /** Push numbers strictly increase along the frontier. */
  predicate Ascending<N>(open: seq<AStar.Entry<N>>) {
    forall i, j :: 0 <= i < j < |open| ==> open[i].order < open[j].order
  }

  /** The frontier is ascending and every entry's push number is below the push counter. */
  predicate Fresh<N>(st: AStar.State<N>) {
    && Ascending(st.open)
    && forall i :: 0 <= i < |st.open| ==> st.open[i].order < st.pushes
  }

  /** `AStar.Before` is irreflexive and transitive, and any two entries with different push numbers are ordered. */
  lemma BeforeStrictTotal<N>(a: AStar.Entry<N>, b: AStar.Entry<N>, c: AStar.Entry<N>)
    ensures !AStar.Before(a, a)
    ensures AStar.Before(a, b) && AStar.Before(b, c) ==> AStar.Before(a, c)
    ensures a.order != b.order ==> AStar.Before(a, b) || AStar.Before(b, a)
  {
  }

  /** On a frontier with distinct push numbers the popped entry comes strictly before every other entry. */
  lemma PopStrict<N>(open: seq<AStar.Entry<N>>)
    requires |open| > 0 && Ascending(open)
    ensures forall j :: 0 <= j < |open| && j != AStar.MinIndex(open) ==> AStar.Before(open[AStar.MinIndex(open)], open[j])
  {
    var m := AStar.MinIndex(open);
    forall j | 0 <= j < |open| && j != m ensures AStar.Before(open[m], open[j]) {
      assert open[j].order != open[m].order by {
        if j < m { assert open[j].order < open[m].order; } else { assert open[m].order < open[j].order; }
      }
    }
  }

  /** The initial frontier is fresh. */
  lemma InitFresh<N(!new)>(g: Graph<N>, start: N)
    ensures Fresh(AStar.Init(g, start))
  {
  }

  /** Removing the popped entry keeps the frontier fresh. */
  lemma RemoveFresh<N>(st: AStar.State<N>, k: nat)
    requires Fresh(st) && k < |st.open|
    ensures Fresh(st.(open := AStar.RemoveAt(st.open, k)))
  {
    var r := AStar.RemoveAt(st.open, k);
    forall i, j | 0 <= i < j < |r| ensures r[i].order < r[j].order {
      var i' := if i < k then i else i + 1;
      var j' := if j < k then j else j + 1;
      assert r[i] == st.open[i'] && r[j] == st.open[j'];
    }
    forall i | 0 <= i < |r| ensures r[i].order < st.pushes {
      assert r[i] == st.open[if i < k then i else i + 1];
    }
  }

  /** Each push takes the current counter as its number and then bumps it, so relaxing keeps the frontier fresh. */
  lemma {:induction false} RelaxFresh<N(!new)>(g: Graph<N>, cur: N, curG: real, nbrs: Adjacency<N>, st: AStar.State<N>)
    requires Fresh(st)
    ensures Fresh(AStar.Relax(g, cur, curG, nbrs, st))
    decreases |nbrs|
  {
    if |nbrs| > 0 {
      var r := AStar.RelaxOne(g, cur, curG, nbrs[0].0, nbrs[0].1, st);
      assert Fresh(r) by {
        if r != st {
          assert r.open == st.open + [AStar.Pushed(g, nbrs[0].0, curG + nbrs[0].1, st.pushes)];
          assert forall i :: 0 <= i < |st.open| ==> r.open[i] == st.open[i];
        }
      }
      RelaxFresh(g, cur, curG, nbrs[1..], r);
    }
  }

  /** One pass of the loop keeps the frontier fresh, so every later pop is again a strict minimum. */
  lemma StepFresh<N(!new)>(g: Graph<N>, goal: N, st: AStar.State<N>)
    requires |st.open| > 0 && Ranked(st.parent, TraceNodes(st.trace)) && Fresh(st)
    ensures AStar.Step(g, goal, st).Continue? ==> Fresh(AStar.Step(g, goal, st).next)
  {
    var m := AStar.MinIndex(st.open);
    RemoveFresh(st, m);
    var e := AStar.Popped(st);
    if e.node !in st.closed && e.node != goal {
      assert Fresh(AStar.Closed(st));
      RelaxFresh(g, e.node, e.g, Neighbors(g, e.node), AStar.Closed(st));
    }
  }

  /** `TieGraph` is a genuine dict of dicts. */
  lemma TieValid()
    ensures Valid(TieGraph())
  {
    assert TieGraph().edges['A'] == [('B', 1.0), ('C', 1.0)];
  }

  /** The second pass pops B, the earlier of the two f = 1 entries, which is the goal. */
  lemma TieGoal(g: Graph<char>, st: AStar.State<char>)
    requires g == TieGraph() && st == TieExpanded()
    ensures AStar.Popped(st).node == 'B'
    ensures AStar.Step(g, 'B', st) == AStar.Done(TieResult())
  {
    assert AStar.MinIndex(st.open) == 0 by {
      assert !AStar.Before(st.open[1], st.open[0]);
    }
    assert Reconstruct(st.parent, 'B', TraceNodes(st.trace)) == ['A', 'B'] by {
      assert Reconstruct(st.parent, 'A', TraceNodes(st.trace)) == ['A'];
    }
  }

  /** What the model's A* returns from A to B on `TieGraph`. */
  function TieResult(): SearchResult<char> {
    Found(['A', 'B'], 1.0, 1, [AStarStep(0, 'A', 0.0, 0.0, 0.0, 0, 0), AStarStep(1, 'B', 1.0, 0.0, 1.0, 1, 1)])
  }

  /** With the model's order the same search runs to the end and returns A-B at cost 1 after one expansion. */
  lemma TieSearch()
    ensures Valid(TieGraph())
    ensures AStar.Search(TieGraph(), 'A', 'B') == TieResult()
  {
    var g := TieGraph();
    TieValid();
    TieStart(g, AStar.Init(g, 'A'));
    TieRest(g, TieExpanded());
  }

  /** From the state after the first pass, the loop of the tie search returns A-B. */
  lemma TieRest(g: Graph<char>, st: AStar.State<char>)
    requires g == TieGraph() && st == TieExpanded() && AStar.Inv(g, 'A', 'B', st)
    ensures AStar.Loop(g, 'A', 'B', st) == TieResult()
  {
    TieGoal(g, st);
    AStarFixture.LoopGoal(g, 'A', 'B', st);
  }

  /** The first pass of the tie search keeps the loop invariant and hands the rest of the loop `TieExpanded()`. */
  lemma TieStart(g: Graph<char>, s0: AStar.State<char>)
    requires g == TieGraph() && s0 == AStar.Init(g, 'A')
    ensures AStar.Inv(g, 'A', 'B', s0) && AStar.Inv(g, 'A', 'B', TieExpanded())
    ensures AStar.Loop(g, 'A', 'B', s0) == AStar.Loop(g, 'A', 'B', TieExpanded())
  {
    TieValid();
    AStar.InitInv(g, 'A', 'B');
    TieFirst(g, s0);
    AStarFixture.LoopNext(g, 'A', 'B', s0);
  }
}
