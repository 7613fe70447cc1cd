/**
 * `AStarSearch.search` (backend/app.py): best-first search on f = g + h
 * over a heap frontier with lazy deletion. Closed nodes are never
 * re-expanded and never relaxed again; a neighbour's g-value and parent
 * change only when the new g is strictly smaller (or the neighbour had
 * none), and each such change pushes a fresh entry instead of decreasing
 * a key, leaving the old entry to be discarded when popped.
 */
module AStar {
  import opened Wrappers
  import opened Graphs
  import opened Seqs
  import opened Paths
  import opened Results
  import opened Outcomes

  /**
   * A frontier entry. The source pushes `(f, id(self), record)`; `id(self)`
   * is the same for every entry of one search, so it orders nothing. The
   * model replaces it by `order`, the number of pushes made before this
   * one: a deliberate determinisation that breaks equal-f ties by
   * insertion order.
   */
  datatype Entry<N> = Entry(f: real, order: nat, node: N, g: real, h: real)

  /** Heap order: smaller f first; at equal f, the earlier push first. */
  predicate Before<N>(a: Entry<N>, b: Entry<N>) {
    a.f < b.f || (a.f == b.f && a.order < b.order)
  }

  /** Index of the entry `heappop` removes: no other entry comes before it. */
  function MinIndex<N>(open: seq<Entry<N>>): (i: nat)
    requires |open| > 0
    ensures i < |open|
    ensures forall j :: 0 <= j < |open| ==> !Before(open[j], open[i])
    decreases |open|
  {
    if |open| == 1 then 0
    else
      var k := 1 + MinIndex(open[1..]);
      assert forall j :: 1 <= j < |open| ==> open[j] == open[1..][j - 1];
      if Before(open[k], open[0]) then k else 0
  }

  /** The frontier without its `i`th entry. */
  function RemoveAt<T>(s: seq<T>, i: nat): (r: seq<T>)
    requires i < |s|
    ensures |r| == |s| - 1
    ensures forall j :: 0 <= j < i ==> r[j] == s[j]
    ensures forall j :: i < j < |s| ==> r[j - 1] == s[j]
  {
    s[..i] + s[i + 1..]
  }

  /** Per-search state: the fields of `AStarSearch` plus the push counter. */
  datatype State<N> = State(
    open: seq<Entry<N>>,
    closed: set<N>,
    parent: map<N, N>,
    g: map<N, real>,
    trace: seq<Step<N>>,
    expanded: nat,
    pushes: nat)

  /** `__init__` plus the first push: `g[start] = 0`, no parent links, one entry with f = h(start). */
  function Init<N(==,!new)>(g: Graph<N>, start: N): (r: State<N>)
    ensures |r.open| == 1 && r.open[0].node == start && r.open[0].g == 0.0
    ensures r.open[0].h == Heuristic(g, start) && r.open[0].f == r.open[0].g + r.open[0].h
    ensures start in r.g && r.g[start] == 0.0 && start !in r.parent && |r.closed| == 0
    ensures |r.trace| == 0 && r.expanded == 0 && r.open[0].order < r.pushes
  {
    var h := Heuristic(g, start);
    State([Entry(0.0 + h, 0, start, 0.0, h)], {}, map[], map[start := 0.0], [], 0, 1)
  }

  /** The entry `(f, counter, node, g, h)` pushed for `nb` with g-value `newG` as push number `pushes`. */
  function Pushed<N(==,!new)>(g: Graph<N>, nb: N, newG: real, pushes: nat): Entry<N> {
    Entry(newG + Heuristic(g, nb), pushes, nb, newG, Heuristic(g, nb))
  }

  /** The new g would improve the neighbour: it has no g yet, or the new one is strictly smaller. */
  predicate Improves<N(==)>(st: State<N>, nb: N, newG: real) {
    nb !in st.g || newG < st.g[nb]
  }

  /**
   * One iteration of the neighbour loop: a closed neighbour is skipped; an
   * improving g is recorded with its parent and pushed with f = g + h; any
   * other neighbour leaves the state as it is.
   */
  function RelaxOne<N(==,!new)>(g: Graph<N>, cur: N, curG: real, nb: N, w: real, st: State<N>): (r: State<N>)
    ensures nb in st.closed || !Improves(st, nb, curG + w) ==> r == st
    ensures nb !in st.closed && Improves(st, nb, curG + w) ==>
              && r.g == st.g[nb := curG + w]
              && r.parent == st.parent[nb := cur]
              && r.open == st.open + [Pushed(g, nb, curG + w, st.pushes)]
              && r.pushes == st.pushes + 1
              && r.closed == st.closed && r.trace == st.trace && r.expanded == st.expanded
  {
    if nb in st.closed then st
    else
      var newG := curG + w;
      if Improves(st, nb, newG) then
        st.(g := st.g[nb := newG],
            parent := st.parent[nb := cur],
            open := st.open + [Pushed(g, nb, newG, st.pushes)],
            pushes := st.pushes + 1)
      else st
  }

  /**
   * The whole neighbour loop over `nbrs`. Closed nodes keep their g-value
   * and parent, g-values are only ever lowered, entries are only appended,
   * and afterwards every listed neighbour is closed or has a g-value.
   */
  function Relax<N(==,!new)>(g: Graph<N>, cur: N, curG: real, nbrs: Adjacency<N>, st: State<N>): (r: State<N>)
    ensures r.closed == st.closed && r.trace == st.trace && r.expanded == st.expanded
    ensures forall n :: n in st.closed ==>
              && (n in r.g <==> n in st.g) && (n in st.g ==> r.g[n] == st.g[n])
              && (n in r.parent <==> n in st.parent) && (n in st.parent ==> r.parent[n] == st.parent[n])
    ensures forall n :: n in st.g ==> n in r.g && r.g[n] <= st.g[n]
    ensures st.open <= r.open
    ensures forall i :: 0 <= i < |nbrs| ==> nbrs[i].0 in r.g || nbrs[i].0 in r.closed
    decreases |nbrs|
  {
    if |nbrs| == 0 then st
    else
      Relax(g, cur, curG, nbrs[1..], RelaxOne(g, cur, curG, nbrs[0].0, nbrs[0].1, st))
  }

  /** What one pass of the `while` loop leads to. */
  datatype Progress<N> = Continue(next: State<N>) | Done(result: SearchResult<N>)

  /** The entry `heapq.heappop` returns: the least entry under `Before`. */
  function Popped<N>(st: State<N>): Entry<N>
    requires |st.open| > 0
  {
    st.open[MinIndex(st.open)]
  }

  /** The trace record written for a popped, not yet closed entry: its g, h, f and the set sizes after the pop. */
  function Record<N>(st: State<N>): Step<N>
    requires |st.open| > 0
  {
    var e := Popped(st);
    AStarStep(|st.trace|, e.node, e.g, e.h, e.f, |st.open| - 1, |st.closed|)
  }

  /** The state after popping a stale entry: only the frontier changes. */
  function Dropped<N>(st: State<N>): State<N>
    requires |st.open| > 0
  {
    st.(open := RemoveAt(st.open, MinIndex(st.open)))
  }

  /** The state after popping an entry, recording it, closing its node and counting it as expanded. */
  function Closed<N(==)>(st: State<N>): State<N>
    requires |st.open| > 0
  {
    st.(open := RemoveAt(st.open, MinIndex(st.open)), closed := st.closed + {Popped(st).node},
        trace := st.trace + [Record(st)], expanded := st.expanded + 1)
  }

  /**
   * One pass of the loop body on a non-empty frontier. The popped entry is
   * the heap minimum. If its node is closed the entry is dropped and
   * nothing else happens; otherwise one trace record is written with the
   * entry's g, h and f and the open/closed sizes; the goal ends the search
   * with the entry's g as cost; any other node is closed, counted as
   * expanded and has its neighbours relaxed.
   */
  function Step<N(==,!new)>(g: Graph<N>, goal: N, st: State<N>): (p: Progress<N>)
    requires |st.open| > 0
    requires Ranked(st.parent, TraceNodes(st.trace))
    ensures var e := Popped(st);
            e.node in st.closed ==> p == Continue(st.(open := RemoveAt(st.open, MinIndex(st.open))))
    ensures var e := Popped(st);
            var rec := AStarStep(|st.trace|, e.node, e.g, e.h, e.f, |st.open| - 1, |st.closed|);
            e.node !in st.closed && e.node == goal ==>
              p.Done? && p.result.Found? && p.result.path == Reconstruct(st.parent, goal, TraceNodes(st.trace)) &&
              p.result.cost == e.g &&
              p.result.nodesExpanded == st.expanded && p.result.trace == st.trace + [rec]
    ensures var e := Popped(st);
            var rec := AStarStep(|st.trace|, e.node, e.g, e.h, e.f, |st.open| - 1, |st.closed|);
            e.node !in st.closed && e.node != goal ==>
              p.Continue? && p.next.closed == st.closed + {e.node} &&
              p.next.expanded == st.expanded + 1 && p.next.trace == st.trace + [rec]
  {
    var e := Popped(st);
    if e.node in st.closed then Continue(Dropped(st))
    else if e.node == goal then
      Done(Found(Reconstruct(st.parent, goal, TraceNodes(st.trace)), e.g, st.expanded, st.trace + [Record(st)]))
    else
      Continue(Relax(g, e.node, e.g, Neighbors(g, e.node), Closed(st)))
  }

  // ---------------------------------------------------------------------
  // The loop invariant.
  // ---------------------------------------------------------------------

  /** A frontier entry is well formed: f = g + h, a reachable node, an earlier push, never below the node's g. */
  ghost predicate EntryOk<N(!new)>(g: Graph<N>, u: set<N>, st: State<N>, e: Entry<N>) {
    && e.h == Heuristic(g, e.node) && e.f == e.g + e.h
    && e.node in u && e.order < st.pushes
    && e.node in st.g && (e.node !in st.closed ==> st.g[e.node] <= e.g)
  }

  ghost predicate OpenOk<N(!new)>(g: Graph<N>, u: set<N>, st: State<N>) {
    && (forall i :: 0 <= i < |st.open| ==> EntryOk(g, u, st, st.open[i]))
    && (forall i, j :: 0 <= i < j < |st.open| ==> st.open[i].order != st.open[j].order)
  }

  /** Some frontier entry carries node `n` with g-value `v`. */
  ghost predicate HasEntry<N>(open: seq<Entry<N>>, n: N, v: real) {
    exists i :: 0 <= i < |open| && open[i].node == n && open[i].g == v
  }

  /** Every open node (g-value, not closed) still has an entry carrying its current g-value. */
  ghost predicate Witnessed<N(!new)>(st: State<N>) {
    forall n :: n in st.g && n !in st.closed ==> HasEntry(st.open, n, st.g[n])
  }

  /** Every trace record is an A* record with f = g + h and the node's heuristic. */
  ghost predicate TraceOk<N(!new)>(g: Graph<N>, trace: seq<Step<N>>) {
    forall i :: 0 <= i < |trace| ==>
      trace[i].AStarStep? && trace[i].f == trace[i].g + trace[i].h && trace[i].h == Heuristic(g, trace[i].node)
  }

  /** The closed set is exactly the traced nodes, each once, and every one of them was expanded. */
  ghost predicate Bookkeeping<N(!new)>(g: Graph<N>, start: N, goal: N, u: set<N>, st: State<N>) {
    && st.closed <= u && st.closed <= st.g.Keys && goal !in st.closed
    && st.closed == Elems(TraceNodes(st.trace)) && Distinct(TraceNodes(st.trace))
    && StepsNumbered(st.trace) && TraceOk(g, st.trace) && st.expanded == |st.trace|
    && (st.closed == {} ==> forall i :: 0 <= i < |st.open| ==> st.open[i].node == start)
    && (st.closed != {} ==> start in st.closed)
  }

  /** g-values and parent links form a tree rooted at the start whose parents are all closed. */
  ghost predicate TreeOk<N(!new)>(g: Graph<N>, start: N, st: State<N>) {
    && ParentTree(g, st.parent, st.g, start, TraceNodes(st.trace))
    && forall n :: n in st.parent ==> st.parent[n] in st.closed
  }

  /** Every neighbour of a closed node (other than `except`) has a g-value. */
  ghost predicate FrontierClosed<N(!new)>(g: Graph<N>, st: State<N>, except: set<N>) {
    forall c :: c in st.closed && c !in except ==> Keys(Neighbors(g, c)) <= st.g.Keys
  }

  ghost predicate CoreInv<N(!new)>(g: Graph<N>, start: N, goal: N, st: State<N>) {
    && Valid(g)
    && OpenOk(g, Universe(g, start), st)
    && Witnessed(st)
    && Bookkeeping(g, start, goal, Universe(g, start), st)
    && TreeOk(g, start, st)
  }

  /** The invariant of the `while` loop at the top of each pass. */
  ghost predicate Inv<N(!new)>(g: Graph<N>, start: N, goal: N, st: State<N>) {
    CoreInv(g, start, goal, st) && FrontierClosed(g, st, {})
  }

  /** The invariant while the neighbours of the just-closed node `cur` are being relaxed. */
  ghost predicate RelaxInv<N(!new)>(g: Graph<N>, start: N, goal: N, cur: N, curG: real, st: State<N>) {
    && CoreInv(g, start, goal, st)
    && FrontierClosed(g, st, {cur})
    && cur in st.closed && cur in st.g && st.g[cur] == curG
  }

  // ---------------------------------------------------------------------
  // Proofs that the invariant holds initially and is preserved. Each
  // component of the invariant gets its own small lemma per kind of
  // update; the lemmas after them only assemble the pieces.
  // ---------------------------------------------------------------------

  lemma InitInv<N(!new)>(g: Graph<N>, start: N, goal: N)
    requires Valid(g)
    ensures Inv(g, start, goal, Init(g, start))
  {
    var st := Init(g, start);
    assert HasEntry(st.open, start, 0.0) by { assert st.open[0].node == start; }
  }

  lemma HasEntryAppend<N>(open: seq<Entry<N>>, extra: seq<Entry<N>>, n: N, v: real)
    requires HasEntry(open, n, v)
    ensures HasEntry(open + extra, n, v)
  {
    var i :| 0 <= i < |open| && open[i].node == n && open[i].g == v;
    assert (open + extra)[i] == open[i];
  }

  lemma HasEntryRemove<N>(open: seq<Entry<N>>, k: nat, n: N, v: real)
    requires k < |open| && HasEntry(open, n, v) && open[k].node != n
    ensures HasEntry(RemoveAt(open, k), n, v)
  {
    var i :| 0 <= i < |open| && open[i].node == n && open[i].g == v;
    var r := RemoveAt(open, k);
    if i < k {
      assert r[i] == open[i];
    } else {
      assert r[i - 1] == open[i];
    }
  }

  /** The popped entry of an open node carries that node's current g-value. */
  lemma PoppedIsCurrent<N(!new)>(g: Graph<N>, u: set<N>, st: State<N>)
    requires OpenOk(g, u, st) && Witnessed(st) && |st.open| > 0
    requires Popped(st).node !in st.closed
    ensures Popped(st).g == st.g[Popped(st).node]
  {
    var i := MinIndex(st.open);
    var e := st.open[i];
    assert EntryOk(g, u, st, e);
    assert HasEntry(st.open, e.node, st.g[e.node]);
    var j :| 0 <= j < |st.open| && st.open[j].node == e.node && st.open[j].g == st.g[e.node];
    assert EntryOk(g, u, st, st.open[j]);
    assert !Before(st.open[j], e);
  }

  // --- popping an entry -------------------------------------------------

  lemma OpenOkAfterPop<N(!new)>(g: Graph<N>, u: set<N>, st: State<N>, k: nat, st': State<N>)
    requires OpenOk(g, u, st) && k < |st.open|
    requires st'.open == RemoveAt(st.open, k) && st'.g == st.g && st'.pushes == st.pushes
    requires st.closed <= st'.closed
    ensures OpenOk(g, u, st')
  {
    var open := st'.open;
    forall i | 0 <= i < |open| ensures EntryOk(g, u, st', open[i]) {
      if i < k { assert open[i] == st.open[i]; } else { assert open[i] == st.open[i + 1]; }
      assert EntryOk(g, u, st, open[i]);
    }
    forall i, j | 0 <= i < j < |open| ensures open[i].order != open[j].order {
      var i0 := if i < k then i else i + 1;
      var j0 := if j < k then j else j + 1;
      assert open[i] == st.open[i0] && open[j] == st.open[j0];
    }
  }

  lemma WitnessedAfterPop<N(!new)>(st: State<N>, k: nat, st': State<N>)
    requires Witnessed(st) && k < |st.open|
    requires st'.open == RemoveAt(st.open, k) && st'.g == st.g
    requires st.closed <= st'.closed && st.open[k].node in st'.closed
    ensures Witnessed(st')
  {
    forall n | n in st'.g && n !in st'.closed ensures HasEntry(st'.open, n, st'.g[n]) {
      HasEntryRemove(st.open, k, n, st.g[n]);
    }
  }

  lemma BookkeepingStale<N(!new)>(g: Graph<N>, start: N, goal: N, u: set<N>, st: State<N>, k: nat)
    requires Bookkeeping(g, start, goal, u, st) && k < |st.open| && st.open[k].node in st.closed
    ensures Bookkeeping(g, start, goal, u, st.(open := RemoveAt(st.open, k)))
  {
  }

  /** Appending the record of a node not traced yet keeps the facts the trace carries. */
  lemma TraceExtend<N(!new)>(g: Graph<N>, u: set<N>, trace: seq<Step<N>>, rec: Step<N>)
    requires StepsNumbered(trace) && Distinct(TraceNodes(trace)) && TraceOk(g, trace)
    requires Elems(TraceNodes(trace)) <= u
    requires rec.AStarStep? && rec.step == |trace| && rec.node !in Elems(TraceNodes(trace)) && rec.node in u
    requires rec.f == rec.g + rec.h && rec.h == Heuristic(g, rec.node)
    ensures TraceNodes(trace + [rec]) == TraceNodes(trace) + [rec.node]
    ensures Elems(TraceNodes(trace + [rec])) == Elems(TraceNodes(trace)) + {rec.node}
    ensures StepsNumbered(trace + [rec]) && Distinct(TraceNodes(trace + [rec])) && TraceOk(g, trace + [rec])
    ensures Elems(TraceNodes(trace + [rec])) <= u
  {
    TraceNodesAppend(trace, rec);
    ElemsAppend(TraceNodes(trace), rec.node);
    DistinctAppend(TraceNodes(trace), rec.node);
    RecordsAppend(g, trace, rec);
  }

  lemma RecordsAppend<N(!new)>(g: Graph<N>, trace: seq<Step<N>>, rec: Step<N>)
    requires StepsNumbered(trace) && TraceOk(g, trace)
    requires rec.AStarStep? && rec.step == |trace| && rec.f == rec.g + rec.h && rec.h == Heuristic(g, rec.node)
    ensures StepsNumbered(trace + [rec]) && TraceOk(g, trace + [rec])
  {
  }

  lemma BookkeepingClose<N(!new)>(g: Graph<N>, start: N, goal: N, u: set<N>, st: State<N>)
    requires Bookkeeping(g, start, goal, u, st) && |st.open| > 0
    requires Popped(st).node !in st.closed && Popped(st).node != goal && Popped(st).node in u
    requires Popped(st).node in st.g
    requires Popped(st).h == Heuristic(g, Popped(st).node) && Popped(st).f == Popped(st).g + Popped(st).h
    requires st.closed == {} ==> Popped(st).node == start
    ensures Bookkeeping(g, start, goal, u, Closed(st))
  {
    TraceExtend(g, u, st.trace, Record(st));
  }

  lemma TreeClose<N(!new)>(g: Graph<N>, start: N, st: State<N>, x: N, st': State<N>)
    requires TreeOk(g, start, st) && x !in st.closed
    requires st.closed == Elems(TraceNodes(st.trace))
    requires st'.parent == st.parent && st'.g == st.g && st'.closed == st.closed + {x}
    requires TraceNodes(st'.trace) == TraceNodes(st.trace) + [x]
    ensures TreeOk(g, start, st')
  {
    var tn := TraceNodes(st.trace);
    forall n | n in st.parent ensures Position(TraceNodes(st'.trace), st.parent[n]) < Position(TraceNodes(st'.trace), n) {
      var p := st.parent[n];
      PositionAppend(tn, [x], p);
      PositionAppend(tn, [x], n);
      assert p in tn;
    }
    assert Ranked(st'.parent, TraceNodes(st'.trace));
  }

  /** Dropping a stale entry keeps the invariant. */
  lemma StaleInv<N(!new)>(g: Graph<N>, start: N, goal: N, st: State<N>)
    requires Inv(g, start, goal, st) && |st.open| > 0
    requires Popped(st).node in st.closed
    ensures Inv(g, start, goal, Dropped(st))
  {
    var u := Universe(g, start);
    var k := MinIndex(st.open);
    OpenOkAfterPop(g, u, st, k, Dropped(st));
    WitnessedAfterPop(st, k, Dropped(st));
    BookkeepingStale(g, start, goal, u, st, k);
  }

  /** Popping an open, non-goal node and closing it sets up the relaxation invariant. */
  lemma CloseInv<N(!new)>(g: Graph<N>, start: N, goal: N, st: State<N>)
    requires Inv(g, start, goal, st) && |st.open| > 0
    requires Popped(st).node !in st.closed && Popped(st).node != goal
    ensures RelaxInv(g, start, goal, Popped(st).node, Popped(st).g, Closed(st))
  {
    var u := Universe(g, start);
    var k := MinIndex(st.open);
    var e := Popped(st);
    PoppedIsCurrent(g, u, st);
    assert EntryOk(g, u, st, e);
    assert st.closed == {} ==> e.node == start;
    OpenOkAfterPop(g, u, st, k, Closed(st));
    WitnessedAfterPop(st, k, Closed(st));
    BookkeepingClose(g, start, goal, u, st);
    TraceNodesAppend(st.trace, Record(st));
    TreeClose(g, start, st, e.node, Closed(st));
  }

  // --- relaxing one neighbour --------------------------------------------

  lemma OpenOkPush<N(!new)>(g: Graph<N>, u: set<N>, st: State<N>, nb: N, newG: real, r: State<N>)
    requires OpenOk(g, u, st)
    requires nb in u
    requires Improves(st, nb, newG)
    requires r.open == st.open + [Pushed(g, nb, newG, st.pushes)]
    requires r.pushes == st.pushes + 1
    requires r.closed == st.closed
    requires r.g == st.g[nb := newG]
    ensures OpenOk(g, u, r)
  {
    forall i | 0 <= i < |r.open| ensures EntryOk(g, u, r, r.open[i]) {
      if i < |st.open| {
        assert r.open[i] == st.open[i];
        assert EntryOk(g, u, st, st.open[i]);
      }
    }
  }

  lemma WitnessedPush<N(!new)>(g: Graph<N>, st: State<N>, nb: N, newG: real, r: State<N>)
    requires Witnessed(st)
    requires r.open == st.open + [Pushed(g, nb, newG, st.pushes)]
    requires r.closed == st.closed && r.g == st.g[nb := newG]
    ensures Witnessed(r)
  {
    var e := Pushed(g, nb, newG, st.pushes);
    forall n | n in r.g && n !in r.closed ensures HasEntry(r.open, n, r.g[n]) {
      if n == nb {
        assert r.open[|st.open|] == e;
      } else {
        HasEntryAppend(st.open, [e], n, st.g[n]);
      }
    }
  }

  lemma BookkeepingPush<N(!new)>(g: Graph<N>, start: N, goal: N, u: set<N>, st: State<N>, nb: N, newG: real, r: State<N>)
    requires Bookkeeping(g, start, goal, u, st) && st.closed != {}
    requires r.open == st.open + [Pushed(g, nb, newG, st.pushes)]
    requires r.closed == st.closed && r.trace == st.trace && r.expanded == st.expanded
    requires r.g == st.g[nb := newG]
    ensures Bookkeeping(g, start, goal, u, r)
  {
  }

  lemma FrontierPush<N(!new)>(g: Graph<N>, st: State<N>, cur: N, nb: N, newG: real, r: State<N>)
    requires FrontierClosed(g, st, {cur})
    requires r.closed == st.closed && r.g == st.g[nb := newG]
    ensures FrontierClosed(g, r, {cur})
  {
    assert st.g.Keys <= r.g.Keys;
  }

  /** A closed node ranks below every node that is not closed. */
  lemma ClosedRanksLower<N(!new)>(st: State<N>, cur: N, nb: N)
    requires cur in st.closed && nb !in st.closed
    requires st.closed == Elems(TraceNodes(st.trace))
    ensures Position(TraceNodes(st.trace), cur) < Position(TraceNodes(st.trace), nb)
  {
    assert cur in TraceNodes(st.trace);
  }

  lemma TreePush<N(!new)>(g: Graph<N>, start: N, st: State<N>, cur: N, curG: real, nb: N, w: real, r: State<N>)
    requires TreeOk(g, start, st)
    requires cur in st.closed && nb !in st.closed && start in st.closed
    requires Position(TraceNodes(st.trace), cur) < Position(TraceNodes(st.trace), nb)
    requires cur in st.g && st.g[cur] == curG && Weight(g, cur, nb) == Some(w)
    requires r.parent == st.parent[nb := cur] && r.g == st.g[nb := curG + w]
    requires r.closed == st.closed && r.trace == st.trace
    ensures TreeOk(g, start, r)
  {
    ParentTreeExtend(g, st.parent, st.g, start, TraceNodes(st.trace), cur, curG, nb, w);
    forall n | n in r.parent ensures r.parent[n] in r.closed {
      if n != nb {
        assert r.parent[n] == st.parent[n];
      }
    }
  }

  // Each component lemma below is stated on the `RelaxOne` result itself, so
  // that the lemma assembling them needs no facts about the updated fields.

  lemma OpenOkRelax<N(!new)>(g: Graph<N>, u: set<N>, cur: N, curG: real, nb: N, w: real, st: State<N>)
    requires OpenOk(g, u, st) && nb in u && nb !in st.closed && Improves(st, nb, curG + w)
    ensures OpenOk(g, u, RelaxOne(g, cur, curG, nb, w, st))
  {
    OpenOkPush(g, u, st, nb, curG + w, RelaxOne(g, cur, curG, nb, w, st));
  }

  lemma WitnessedRelax<N(!new)>(g: Graph<N>, cur: N, curG: real, nb: N, w: real, st: State<N>)
    requires Witnessed(st) && nb !in st.closed && Improves(st, nb, curG + w)
    ensures Witnessed(RelaxOne(g, cur, curG, nb, w, st))
  {
    WitnessedPush(g, st, nb, curG + w, RelaxOne(g, cur, curG, nb, w, st));
  }

  lemma BookkeepingRelax<N(!new)>(g: Graph<N>, start: N, goal: N, u: set<N>, cur: N, curG: real, nb: N, w: real, st: State<N>)
    requires Bookkeeping(g, start, goal, u, st) && st.closed != {}
    requires nb !in st.closed && Improves(st, nb, curG + w)
    ensures Bookkeeping(g, start, goal, u, RelaxOne(g, cur, curG, nb, w, st))
  {
    BookkeepingPush(g, start, goal, u, st, nb, curG + w, RelaxOne(g, cur, curG, nb, w, st));
  }

  lemma FrontierRelax<N(!new)>(g: Graph<N>, cur: N, curG: real, nb: N, w: real, st: State<N>)
    requires FrontierClosed(g, st, {cur}) && cur in st.closed && cur in st.g && st.g[cur] == curG
    requires nb !in st.closed && Improves(st, nb, curG + w)
    ensures var r := RelaxOne(g, cur, curG, nb, w, st);
            FrontierClosed(g, r, {cur}) && cur in r.closed && cur in r.g && r.g[cur] == curG
  {
    FrontierPush(g, st, cur, nb, curG + w, RelaxOne(g, cur, curG, nb, w, st));
  }

  lemma TreeRelax<N(!new)>(g: Graph<N>, start: N, cur: N, curG: real, nb: N, w: real, st: State<N>)
    requires TreeOk(g, start, st)
    requires cur in st.closed && nb !in st.closed && start in st.closed
    requires Position(TraceNodes(st.trace), cur) < Position(TraceNodes(st.trace), nb)
    requires cur in st.g && st.g[cur] == curG && Weight(g, cur, nb) == Some(w)
    requires Improves(st, nb, curG + w)
    ensures TreeOk(g, start, RelaxOne(g, cur, curG, nb, w, st))
  {
    TreePush(g, start, st, cur, curG, nb, w, RelaxOne(g, cur, curG, nb, w, st));
  }

  /** Relaxing one listed neighbour of the closed node keeps the relaxation invariant. */
  lemma RelaxOneInv<N(!new)>(g: Graph<N>, start: N, goal: N, cur: N, curG: real, nb: N, w: real, st: State<N>)
    requires RelaxInv(g, start, goal, cur, curG, st)
    requires (nb, w) in Neighbors(g, cur)
    ensures RelaxInv(g, start, goal, cur, curG, RelaxOne(g, cur, curG, nb, w, st))
  {
    if nb !in st.closed && Improves(st, nb, curG + w) {
      var u := Universe(g, start);
      assert nb in Keys(Neighbors(g, cur));
      OpenOkRelax(g, u, cur, curG, nb, w, st);
      WitnessedRelax(g, cur, curG, nb, w, st);
      BookkeepingRelax(g, start, goal, u, cur, curG, nb, w, st);
      FrontierRelax(g, cur, curG, nb, w, st);
      LookupOfMember(Neighbors(g, cur), nb, w);
      ClosedRanksLower(st, cur, nb);
      TreeRelax(g, start, cur, curG, nb, w, st);
    }
  }

  /** Relaxing all listed neighbours keeps the relaxation invariant. */
  lemma {:induction false} RelaxInvAll<N(!new)>(g: Graph<N>, start: N, goal: N, cur: N, curG: real,
                                               nbrs: Adjacency<N>, st: State<N>)
    requires RelaxInv(g, start, goal, cur, curG, st)
    requires forall p :: p in nbrs ==> p in Neighbors(g, cur)
    ensures RelaxInv(g, start, goal, cur, curG, Relax(g, cur, curG, nbrs, st))
    decreases |nbrs|
  {
    if |nbrs| > 0 {
      RelaxOneInv(g, start, goal, cur, curG, nbrs[0].0, nbrs[0].1, st);
      assert forall p :: p in nbrs[1..] ==> p in nbrs;
      RelaxInvAll(g, start, goal, cur, curG, nbrs[1..], RelaxOne(g, cur, curG, nbrs[0].0, nbrs[0].1, st));
    }
  }

  /** Closing and relaxing an open node restores the loop invariant. */
  lemma ExpandInv<N(!new)>(g: Graph<N>, start: N, goal: N, st: State<N>)
    requires Inv(g, start, goal, st) && |st.open| > 0
    requires Popped(st).node !in st.closed && Popped(st).node != goal
    ensures Step(g, goal, st).Continue? && Inv(g, start, goal, Step(g, goal, st).next)
  {
    var e := Popped(st);
    CloseInv(g, start, goal, st);
    RelaxInvAll(g, start, goal, e.node, e.g, Neighbors(g, e.node), Closed(st));
    RelaxDone(g, start, goal, e.node, e.g, Relax(g, e.node, e.g, Neighbors(g, e.node), Closed(st)));
  }

  /** Once every neighbour of `cur` is closed or has a g-value, the loop invariant holds again. */
  lemma RelaxDone<N(!new)>(g: Graph<N>, start: N, goal: N, cur: N, curG: real, r: State<N>)
    requires RelaxInv(g, start, goal, cur, curG, r)
    requires forall i :: 0 <= i < |Neighbors(g, cur)| ==> Neighbors(g, cur)[i].0 in r.g || Neighbors(g, cur)[i].0 in r.closed
    ensures Inv(g, start, goal, r)
  {
  }

  // --- the two ways the loop ends ------------------------------------------

  /** The path returned when the goal is popped is a path to the goal whose cost is the popped g. */
  lemma GoalPath<N(!new)>(g: Graph<N>, start: N, goal: N, st: State<N>)
    requires Inv(g, start, goal, st) && |st.open| > 0
    requires Popped(st).node !in st.closed && Popped(st).node == goal
    ensures var r := Step(g, goal, st).result;
            && Step(g, goal, st).Done? && r.Found?
            && IsPath(g, r.path, start, goal) && r.cost == PathCost(g, r.path) && Distinct(r.path)
  {
    var u := Universe(g, start);
    PoppedIsCurrent(g, u, st);
    assert EntryOk(g, u, st, Popped(st));
    ReconstructIsPath(g, st.parent, st.g, start, TraceNodes(st.trace), goal);
    ReconstructCost(g, st.parent, st.g, start, TraceNodes(st.trace), goal);
    ReconstructSimple(st.parent, goal, TraceNodes(st.trace));
  }

  /** The trace returned when the goal is popped is the loop's trace plus the goal's record. */
  lemma GoalTrace<N(!new)>(g: Graph<N>, start: N, goal: N, st: State<N>)
    requires Inv(g, start, goal, st) && |st.open| > 0
    requires Popped(st).node !in st.closed && Popped(st).node == goal
    ensures var r := Step(g, goal, st).result;
            && Step(g, goal, st).Done? && r.Found?
            && |r.trace| == r.nodesExpanded + 1 && r.trace[|r.trace| - 1].node == goal
            && StepsNumbered(r.trace) && Distinct(TraceNodes(r.trace))
            && Elems(TraceNodes(r.trace)) <= Universe(g, start) && TraceOk(g, r.trace)
  {
    var u := Universe(g, start);
    assert EntryOk(g, u, st, Popped(st));
    TraceExtend(g, u, st.trace, Record(st));
  }

  lemma GoalSound<N(!new)>(g: Graph<N>, start: N, goal: N, st: State<N>)
    requires Inv(g, start, goal, st) && |st.open| > 0
    requires Popped(st).node !in st.closed && Popped(st).node == goal
    ensures Step(g, goal, st).Done? && Sound(g, start, goal, Step(g, goal, st).result)
    ensures TraceOk(g, Step(g, goal, st).result.trace)
  {
    GoalPath(g, start, goal, st);
    GoalTrace(g, start, goal, st);
  }

  /** An exhausted frontier means the goal is unreachable. */
  lemma ExhaustedSound<N(!new)>(g: Graph<N>, start: N, goal: N, st: State<N>)
    requires Inv(g, start, goal, st) && |st.open| == 0
    ensures Sound(g, start, goal, NotFound(st.expanded, st.trace))
  {
    assert forall n :: n in st.g ==> n in st.closed;
    assert start in st.closed;
    ClosedSetSeparates(g, st.closed, start, goal);
  }

  /** Each pass either drops a stale entry (closed set unchanged) or closes one more reachable node. */
  lemma StepShrinks<N(!new)>(g: Graph<N>, start: N, goal: N, st: State<N>)
    requires |st.open| > 0 && Ranked(st.parent, TraceNodes(st.trace))
    requires Popped(st).node in Universe(g, start)
    requires Step(g, goal, st).Continue?
    ensures var next := Step(g, goal, st).next;
            |Universe(g, start) - next.closed| < |Universe(g, start) - st.closed| ||
            (next.closed == st.closed && |next.open| < |st.open|)
  {
    if Popped(st).node !in st.closed {
      CloseOneShrinks(Universe(g, start), st.closed, Popped(st).node);
    }
  }

  /** The `while` loop, run to completion from a state satisfying the invariant. */
  function Loop<N(==,!new)>(g: Graph<N>, start: N, goal: N, st: State<N>): (r: SearchResult<N>)
    requires Inv(g, start, goal, st)
    ensures Sound(g, start, goal, r)
    ensures TraceOk(g, r.trace)
    decreases |Universe(g, start) - st.closed|, |st.open|
  {
    if |st.open| == 0 then
      ExhaustedSound(g, start, goal, st);
      NotFound(st.expanded, st.trace)
    else
      var e := Popped(st);
      assert EntryOk(g, Universe(g, start), st, e);
      if e.node in st.closed then
        StaleInv(g, start, goal, st);
        StepShrinks(g, start, goal, st);
        Loop(g, start, goal, Step(g, goal, st).next)
      else if e.node == goal then
        GoalSound(g, start, goal, st);
        Step(g, goal, st).result
      else
        ExpandInv(g, start, goal, st);
        StepShrinks(g, start, goal, st);
        Loop(g, start, goal, Step(g, goal, st).next)
  }

  /**
   * `AStarSearch(graph, start, goal).search()`. A found path is a path of
   * the graph from `start` to `goal` whose edge costs sum to the reported
   * cost; the search fails exactly when the goal is unreachable, and then
   * reports no path, infinite cost and "No path found"; nodes are
   * expanded at most once each; the trace is numbered 0, 1, 2, ... with
   * f = g + h in every record; start = goal succeeds at once.
   */
  function Search<N(==,!new)>(g: Graph<N>, start: N, goal: N): (r: SearchResult<N>)
    requires Valid(g)
    ensures r.Found? ==> IsPath(g, r.path, start, goal) && r.cost == PathCost(g, r.path) && Distinct(r.path)
    ensures r.Success() <==> Reachable(g, start, goal)
    ensures !r.Success() ==> r.Path() == None && r.TotalCost() == Infinite && r.Error() == Some(NoPathError)
    ensures r.nodesExpanded <= |r.trace| <= |Universe(g, start)|
    ensures StepsNumbered(r.trace) && Distinct(TraceNodes(r.trace))
    ensures forall i :: 0 <= i < |r.trace| ==>
              r.trace[i].AStarStep? && r.trace[i].f == r.trace[i].g + r.trace[i].h &&
              r.trace[i].h == Heuristic(g, r.trace[i].node)
    ensures start == goal ==>
              r == Found([start], 0.0, 0, [AStarStep(0, start, 0.0, Heuristic(g, start), Heuristic(g, start), 0, 0)])
  {
    InitInv(g, start, goal);
    var st := Init(g, start);
    var r := Loop(g, start, goal, st);
    SoundBounds(g, start, goal, r);
    assert start == goal ==> r == Step(g, goal, st).result && Reconstruct(st.parent, goal, TraceNodes(st.trace)) == [start];
    r
  }
}
