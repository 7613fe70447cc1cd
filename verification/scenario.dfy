/**
 * The three searches the API runs from A to G on `GRAPH = load_graph()`.
 * A* and BFS both return A-B-D-G at cost 6.6 (A* after 3 expansions, BFS
 * after 8); DFS follows the first unvisited neighbour each time and returns
 * the eight-node path A-B-C-E-D-I-F-G at cost 14.6 after 7 expansions.
 */
module Scenario {
  import opened Results
  import Graphs
  import opened Fixture
  import AStar
  import Bfs
  import Dfs
  import AStarFixture
  import BfsFixture
  import DfsFixture

  /** What the three searches return from A to G on the delivery map, and the figures they report. */
  lemma SearchesFromAToG()
    ensures Graphs.Valid(LoadGraph())
    ensures AStar.Search(LoadGraph(), 'A', 'G') == AStarFixture.AStarResult()
    ensures Bfs.Search(LoadGraph(), 'A', 'G') == BfsFixture.BfsResult()
    ensures Dfs.Search(LoadGraph(), 'A', 'G') == DfsFixture.DfsResult()
    ensures var r := AStar.Search(LoadGraph(), 'A', 'G');
            r.path == ['A', 'B', 'D', 'G'] && r.cost == 6.6 && r.nodesExpanded == 3 && |r.trace| == 4
    ensures var r := Bfs.Search(LoadGraph(), 'A', 'G');
            r.path == ['A', 'B', 'D', 'G'] && r.cost == 6.6 && r.nodesExpanded == 8 && |r.trace| == 9
    ensures var r := Dfs.Search(LoadGraph(), 'A', 'G');
            r.path == ['A', 'B', 'C', 'E', 'D', 'I', 'F', 'G'] && r.cost == 14.6 && r.nodesExpanded == 7 && |r.trace| == 8
  {
    var g := LoadGraph();
    Loaded();
    LoadedWellFormed();
    AStarFixture.AStarRun(g);
    BfsFixture.BfsRun(g);
    DfsFixture.DfsRun(g);
  }
}
