# Smart Courier search core

A Dafny model of the search core of the Smart Courier backend
(`backend/app.py`): the undirected weighted `Graph` with per-node heuristic
values, the nine-node delivery map built by `load_graph`, and the three
strategies the API exposes — A* (`AStarSearch`), breadth-first
(`BFSSearch`) and recursive depth-first (`DFSSearch`) — together with the
parent-map walk `_reconstruct_path` they share.

Each strategy is modelled as a pure function over an explicit state record
that mirrors the Python object's fields (open list or queue, closed or
visited set, parent map, cost map, trace, expansion counter). The result is
a `SearchResult`: `Found(path, cost, nodesExpanded, trace)` or
`NotFound(nodesExpanded, trace)`, whose accessors give the dictionary the
Python code returns (`path` is `None`, `cost` is infinite and `error` is
"No path found" on failure).

Python dicts are modelled as association lists in insertion order
(`Adjacency<N>`), because iteration order of `get_neighbors(...).items()`
decides which neighbour is explored first. The A* priority queue is a
sequence with an explicit minimum search; ties on `f` are broken by push
order (see Findings). Costs are exact `real` numbers.

## Model

| member | source | states |
|---|---|---|
| Graphs.Lookup | backend/app.py:51-52 | a dict lookup finds a value exactly when the key is present, and the value found is stored under that key |
| Graphs.Neighbors | backend/app.py:54-56 | `get_neighbors` returns the node's stored dict, and an empty dict for a node that has none |
| Graphs.Heuristic | backend/app.py:58-60 | `get_heuristic` returns the node's stored value, and 0 for a node that has none |
| Graphs.Upsert | backend/app.py:51-52 | `d[k] = v` makes `k` map to `v`, leaves every other key's value alone, appends a new key at the end and keeps an existing key in place |
| Graphs.AddNode | backend/app.py:37-42 | `add_node` declares the node, gives it an empty neighbour dict and its heuristic value, and changes nothing for other nodes |
| Graphs.AddEdge | backend/app.py:44-52 | `add_edge` stores the cost in both endpoints' dicts and leaves every other node's dict, the node set and the heuristics unchanged |
| Graphs.AddEdgeWeights | backend/app.py:44-52 | after `add_edge(a, b, c)` the edge costs `c` in both directions and no other ordered pair changes cost |
| Graphs.AddEdgeSymmetric | backend/app.py:44-52 | `add_edge` keeps an undirected graph undirected |
| Graphs.AddEdgeValid | backend/app.py:51-52 | `add_edge` never stores a neighbour twice in one dict |
| Graphs.UpsertTwice | backend/app.py:51-52 | storing the same cost under the same key twice (a self-loop `add_edge(a, a, c)`) is storing it once |
| Graphs.AddNodeSymmetric | backend/app.py:37-42 | declaring a node no dict mentions keeps the graph undirected |
| Paths.Reconstruct | backend/app.py:209-216 | `_reconstruct_path` ends at the goal, starts at a node without a parent, and each node's predecessor in the path is its parent |
| Paths.ReconstructUnique | backend/app.py:209-216 | any chain of parent links from a parentless node to the goal is exactly what `_reconstruct_path` returns |
| Paths.ReconstructSimple | backend/app.py:282-289 | a reconstructed path visits no node twice |
| Paths.ReconstructIsPath | backend/app.py:360-367 | in a parent tree the reconstructed path runs from the start to the goal along graph edges |
| Paths.ReconstructCost | backend/app.py:360-367 | the edge costs along the reconstructed path add up to the goal's recorded cost |
| Paths.ReconstructLength | backend/app.py:282-289 | when every linked node is one level below its parent and parentless nodes are at level 1, the reconstructed path has as many nodes as the goal's level |
| Paths.ClosedSetSeparates | backend/app.py:200-207 | a node set containing the start, closed under neighbours and missing the goal, proves the goal unreachable |
| Outcomes.SoundBounds | backend/app.py:176-177 | a sound result expands no more nodes than it traces, and traces no more than the search can reach |
| AStar.Init | backend/app.py:113-141 | before the loop the open list holds one entry, for the start, with g = 0 and f = g + h(start); the start has g-value 0 and no parent, nothing is closed and nothing is traced |
| AStar.MinIndex | backend/app.py:146 | `heappop` takes an entry that no other entry comes before |
| AStar.RelaxOne | backend/app.py:181-198 | a closed neighbour is skipped; otherwise a new or strictly cheaper cost is recorded, the parent set and one entry pushed, and nothing else changes |
| AStar.Relax | backend/app.py:180-198 | relaxing a neighbour dict leaves the closed set, trace and counter unchanged and only grows the open list |
| AStar.Step | backend/app.py:146-198 | one pass of the `while` loop: a stale entry is dropped, the goal ends the search with the reconstructed path, any other node is recorded, closed and expanded |
| AStar.ExpandInv | backend/app.py:176-198 | expanding a node keeps the loop invariant: closed nodes are traced, every g-value is the cost of its parent path, and every open entry carries f = g + h |
| AStar.Loop | backend/app.py:145-207 | the loop run to completion returns a sound result with f = g + h in every record |
| AStar.Search | backend/app.py:130-207 | A* finds a simple path of the reported cost exactly when the goal is reachable, fails with the "No path found" shape otherwise, expands each node at most once, and for start = goal returns `[start]` at cost 0 after 0 expansions |
| Bfs.Init | backend/app.py:223-232 | the queue and the visited set hold only the start, which has cost 0 and no parent; nothing is traced or expanded |
| Bfs.Discover | backend/app.py:266-271 | a visited neighbour changes nothing; an unvisited one is visited, appended to the discovery order, linked to the dequeued node and costed at its cost plus the edge cost |
| Bfs.Explore | backend/app.py:266-271 | after the neighbour loop every listed neighbour is visited, the queue has only grown at the back, and already visited nodes keep their cost and parent |
| Bfs.Step | backend/app.py:239-271 | one dequeue: the goal ends the search with the reconstructed path, any other node is recorded and expanded |
| Bfs.ExpandInv | backend/app.py:263-271 | expanding a node keeps the loop invariant: visited nodes have a cost equal to their parent path's weight sum and the queue holds visited nodes |
| Bfs.Loop | backend/app.py:238-280 | the loop run to completion returns a sound result |
| Bfs.InitLevels | backend/app.py:227-230 | the initial queue `[start]` puts the start alone at level 1 |
| Bfs.ExploreParents | backend/app.py:266-271 | every node the neighbour loop discovers gets the dequeued node as its parent |
| Bfs.StepOrder | backend/app.py:239-271 | expanding a node other than the goal moves it from the queue to the trace and appends exactly the newly discovered nodes to the discovery order |
| Bfs.StepLinks | backend/app.py:266-271 | expanding a node keeps the links of nodes visited before, links every new node to it, and leaves all its neighbours visited |
| Bfs.LevelsStep | backend/app.py:238-271 | first-in first-out order keeps levels non-decreasing along the discovery order, every node within one level of the queue front, parents one level up, and every neighbour of a dequeued node at most one level below it |
| Bfs.HopsBound | backend/app.py:238-271 | the level of the queue front is at most the number of nodes on any path from a level-1 node to it |
| Bfs.GoalHops | backend/app.py:253-255 | when the goal is dequeued, the reconstructed path has no more nodes than any path from the start to the goal |
| Bfs.LoopHops | backend/app.py:238-280 | a path the loop returns has no more nodes than any path from the start to the goal |
| Bfs.Search | backend/app.py:234-280 | BFS finds a simple path whose cost is its weight sum exactly when the goal is reachable, and no path from the start to the goal has fewer nodes; fails with the "No path found" shape otherwise, dequeues each node at most once, and for start = goal returns `[start]` at cost 0 |
| Dfs.Init | backend/app.py:296-305 | nothing is visited; the start has cost 0 and no parent; nothing is traced or expanded |
| Dfs.Explore | backend/app.py:350-357 | the neighbour loop of `_dfs_recursive` never removes a node from the visited set |
| Dfs.Visit | backend/app.py:330-358 | `_dfs_recursive(node)` leaves the node and everything visited before it visited |
| Dfs.VisitInv | backend/app.py:330-358 | a call entered on an unvisited node returns with the visited set closed under neighbours on failure and the goal costed and linked on success |
| Dfs.Finish | backend/app.py:311-328 | `search` reports success exactly when the first call found the goal, then with the reconstructed path and the goal's cost, and otherwise no path, infinite cost and "No path found"; the counter and the trace are passed through |
| Dfs.SearchSound | backend/app.py:307-328 | `search` turns the first call's outcome into a sound result |
| Dfs.SameGoal | backend/app.py:307-319 | with start = goal the search returns `[start]` at cost 0 with 0 expansions |
| Dfs.Search | backend/app.py:307-358 | DFS finds a simple path whose cost is its weight sum exactly when the goal is reachable, fails with the "No path found" shape otherwise, and visits each node at most once |
| Fixture.AddNodes | backend/app.py:85-86 | the `add_node` loop declares exactly the listed ids, and each of them ends with an empty neighbour dict |
| Fixture.LoadGraph | backend/app.py:67-103 | `load_graph()` has exactly the ids of `nodes_data` as nodes, and no neighbour dict holds a key twice |
| Fixture.AddEdges | backend/app.py:100-101 | adding the edge list never changes the node set or the heuristic values, keeps every neighbour dict free of duplicate keys and keeps the graph undirected |
| Fixture.Loaded | backend/app.py:67-103 | `load_graph` builds the nine nodes with the listed heuristic values and exactly the listed neighbour dicts, in insertion order |
| Fixture.LoadedWellFormed | backend/app.py:67-103 | the map `load_graph` builds has no duplicate key in any neighbour dict and every edge costs the same in both directions |
| Fixture.ShortestPath | backend/app.py:209-216 | the parent links A to B, B to D and D to G, which A* and BFS both leave, make `_reconstruct_path` return A, B, D, G |
| DfsFixture.DfsPath | backend/app.py:360-367 | the links DFS leaves along A, B, C, E, D, I, F, G make `_reconstruct_path` return exactly that eight-node path |
| AStarFixture.AStarRun | backend/app.py:130-216 | on the delivery map, A* from A to G pops A, B, D, G and returns the path A, B, D, G at cost 6.6 after expanding 3 nodes, with the four trace records it writes |
| BfsFixture.BfsRun | backend/app.py:234-289 | on the delivery map, BFS from A to G dequeues A, B, H, C, E, D, F, I, G and returns the path A, B, D, G at cost 6.6 after expanding 8 nodes, with nine trace records |
| DfsFixture.DfsRun | backend/app.py:307-367 | on the delivery map, DFS from A to G always descends into the first unvisited neighbour and returns the path A, B, C, E, D, I, F, G at cost 14.6 after expanding 7 nodes, with eight trace records |
| Scenario.SearchesFromAToG | backend/app.py:67-367 | on `load_graph()` the three searches from A to G report paths, costs, expansion counts and trace lengths A-B-D-G/6.6/3/4, A-B-D-G/6.6/8/9 and A-B-C-E-D-I-F-G/14.6/7/8 |
| TieBreak.TupleLess | backend/app.py:136-141 | Python's `<` on the pushed `(f, id(self), dict)` tuples: decided by f, then by the id, and raising exactly when both tie and the dicts differ |
| TieBreak.SiftDown | backend/app.py:193-198 | the sift-up inside `heappush` cannot raise when the item compares with every other entry, and on success holds the same entries with the new item in the hole |
| TieBreak.HeapPush | backend/app.py:193-198 | `heappush` onto an empty heap succeeds; it raises when the parent slot ties in f and id with a different dict; otherwise it adds exactly the new item |
| TieBreak.TieFirst | backend/app.py:145-198 | on a map where A's two neighbours both get f = 1, the first pass pops A and pushes B then C, both with f = 1 |
| TieBreak.TieRaises | backend/app.py:181-198 | in that run the second push meets an equal-f entry with the same id and a different dict, so the source raises `TypeError` |
| TieBreak.BeforeStrictTotal | backend/app.py:146 | the model's frontier order (f, then push number) is irreflexive and transitive, and orders any two distinct pushes |
| TieBreak.PopStrict | backend/app.py:146 | with distinct push numbers the popped entry is strictly before every other entry, so the minimum is unique |
| TieBreak.InitFresh | backend/app.py:136-141 | the initial frontier has ascending push numbers below the counter |
| TieBreak.RemoveFresh | backend/app.py:146 | popping any entry keeps push numbers ascending and below the counter |
| TieBreak.RelaxFresh | backend/app.py:180-198 | relaxing a neighbour dict keeps push numbers ascending and below the counter |
| TieBreak.StepFresh | backend/app.py:145-198 | every pass of the loop keeps push numbers ascending, so every later pop is a strict minimum |
| TieBreak.TieGoal | backend/app.py:146-177 | on the tie map the second pass pops B, the earlier of the two f = 1 entries, and returns A-B |
| TieBreak.TieStart | backend/app.py:145-198 | on the tie map the first pass keeps the loop invariant, and the rest of the loop runs from B and C both open with f = 1 |
| TieBreak.TieRest | backend/app.py:145-177 | from that state the loop pops B and returns A-B |
| TieBreak.TieSearch | backend/app.py:130-216 | with the model's order the same search completes and returns A-B at cost 1 after one expansion |

The delivery map in the test suite is the same as `load_graph`'s, yet
tests/test_astar.py:57 expects A* from A to G to cost 8.0. The code in
backend/app.py returns A-B-D-G, whose three edges cost 2.2 each, so 6.6.
The model follows the code. Likewise tests/test_bfs_dfs.py:54 expects
BFS from A to G to expand more than 10 nodes, but a search of the code in
backend/app.py expands at most as many nodes as it can reach, nine here
(`Outcomes.SoundBounds`), and BFS from A to G expands 8
(`BfsFixture.BfsRun`). These tests import `algorithms.astar` and
`algorithms.bfs`, different modules, which are not part of this model.

## Left out

- The Flask routes (`/api/graph`, `/api/search`, `/api/compare`, `/api/benchmark`, `/api/stats`, `/api/health`) and the 404/500 handlers: request parsing and JSON output, no search logic of their own.
- `calculate_efficiency` and `calculate_time_saved`: report figures computed from the node counts, outside the search core.
- `round(..., 2)` on reported costs and trace values: the model reports exact values. In binary floating point 4.4 + 2.2 is 6.6000000000000005, which rounds to the 6.6 the model states.
- Floating point: costs and heuristics are exact `real`s, so float rounding in sums and comparisons is not modelled. `float('inf')` is the `Infinite` marker of `TotalCost`.
- Node coordinates and `get_coordinate`: stored for the frontend, never read by a search.
- The frontend.
- Python's recursion limit in `_dfs_recursive`: the model's recursion is unbounded.
- The identity `id(self)`: it is the same for every push of one search, so it orders nothing. The model replaces it by a push counter; see Findings.
- AStar.Search: does not state that the returned cost is minimal. Closed nodes are never reopened, and the map's heuristic is not shown consistent, so the code does not promise an optimal path. The contract states that the path is a path of the graph and that its weight sum is the reported cost.

## Findings

| source | as written | input that shows it | evidently intended | confidence | as-written member | corrected member |
|---|---|---|---|---|---|---|
| backend/app.py:136-141, 193-198 | the heap holds `(f, id(self), dict)`; `id(self)` is equal for all pushes of one search, so two entries with equal f are compared by their dicts, and `dict < dict` raises `TypeError` inside `heappush` | A joined to B and to C at cost 1, every heuristic 0, search A to B: after A is expanded, C is pushed onto the heap holding B, both with f = 1 | ties on f are broken by a per-push counter, so every comparison succeeds and the popped entry is the unique minimum | high (not executed) | TieBreak.HeapPush, TieBreak.TieRaises | AStar.Before, TieBreak.PopStrict, TieBreak.StepFresh, TieBreak.TieSearch |
