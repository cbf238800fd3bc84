/** Day 12: a height map of letters, 'S' the start at height 'a' and 'E'
    the end at height 'z', turned into a graph whose edges lead to squares
    at most one higher. Shortest distances come from a graph library and
    are a parameter here. */
module Elevation {
  import opened Wrappers
  import opened Text
  import opened Seqs

  /** An edge of the graph; create_graph gives every edge weight 1. */
  datatype Edge = Edge(source: nat, target: nat, weight: nat)

  /** The height of a square as the source of a step: 'S' is 'a'. */
  function SourceHeight(c: char): int
  {
    if c == 'S' then 'a' as int else c as int
  }

  /** The height of a square as the target of a step: 'E' is 'z' and 'S'
      is 'a'. */
  function TargetHeight(c: char): int
  {
    if c == 'E' then 'z' as int else if c == 'S' then 'a' as int else c as int
  }

  /** A step may climb at most one: a lower-case square has its letter's
      height both ways; 'S' counts as 'a' both ways; 'E' counts as 'z' only
      as a target, so only a square of height 'y' or more can step onto
      it. */
  lemma SquareHeights(c: char)
    ensures 'a' <= c <= 'z' ==> SourceHeight(c) == c as int && TargetHeight(c) == c as int
    ensures SourceHeight('S') == TargetHeight('S') == 'a' as int
    ensures TargetHeight('E') == 'z' as int && SourceHeight('E') == 'E' as int
    ensures TargetHeight('E') <= SourceHeight(c) + 1 <==> SourceHeight(c) >= 'y' as int
  {
  }

  /** The candidate neighbours of node `ni`: up, down, left and right, as
      plain index arithmetic, so left and right wrap between rows. */
  function Directions(ni: int, cols: int): seq<int>
  {
    [ni - cols, ni + cols, ni - 1, ni + 1]
  }

  /** The edges create_graph adds for node `ni`, in direction order. */
  function NodeEdges(nodes: string, total: nat, cols: nat, ni: nat, dirs: seq<int>): seq<Edge>
    requires ni < |nodes| && total <= |nodes|
  {
    if dirs == [] then []
    else
      var rest := NodeEdges(nodes, total, cols, ni, dirs[1..]);
      var d := dirs[0];
      if d < 0 || d > total - 1 then rest
      else if TargetHeight(nodes[d]) <= SourceHeight(nodes[ni]) + 1 then [Edge(ni, d, 1)] + rest
      else rest
  }

  /** A node's edges are exactly the candidates in range that climb by at
      most one, each of weight 1. */
  lemma {:induction false} NodeEdgesHas(nodes: string, total: nat, cols: nat, ni: nat, dirs: seq<int>)
    requires ni < |nodes| && total <= |nodes|
    ensures forall e :: e in NodeEdges(nodes, total, cols, ni, dirs) <==> (e.source == ni && e.weight == 1 &&
      e.target in dirs && e.target < total && TargetHeight(nodes[e.target]) <= SourceHeight(nodes[ni]) + 1)
  {
    if dirs != [] {
      NodeEdgesHas(nodes, total, cols, ni, dirs[1..]);
      assert forall d :: d in dirs <==> d == dirs[0] || d in dirs[1..];
    }
  }

  lemma NodeEdgesStep(nodes: string, total: nat, cols: nat, ni: nat, dirs: seq<int>, i: nat)
    requires ni < |nodes| && total <= |nodes| && i < |dirs|
    ensures NodeEdges(nodes, total, cols, ni, dirs[i..]) ==
      (if dirs[i] < 0 || dirs[i] > total - 1 || TargetHeight(nodes[dirs[i]]) > SourceHeight(nodes[ni]) + 1 then []
       else [Edge(ni, dirs[i], 1)]) + NodeEdges(nodes, total, cols, ni, dirs[i + 1..])
  {
    assert dirs[i..][1..] == dirs[i + 1..];
  }

  /** The edges of nodes 0 .. k-1, in the order they are added. */
  function EdgesBefore(nodes: string, total: nat, cols: nat, k: nat): seq<Edge>
    requires k <= total <= |nodes|
  {
    if k == 0 then []
    else EdgesBefore(nodes, total, cols, k - 1) + NodeEdges(nodes, total, cols, k - 1, Directions(k - 1, cols))
  }

  /** The edge rule: an edge leads from a node to one of its four
      candidates within range whenever the target is at most one higher. */
  predicate IsEdge(nodes: string, total: nat, cols: nat, e: Edge)
    requires total <= |nodes|
  {
    e.weight == 1 && e.source < total && e.target < total &&
    e.target in Directions(e.source, cols) &&
    TargetHeight(nodes[e.target]) <= SourceHeight(nodes[e.source]) + 1
  }

  /** The graph's edges are exactly those the rule allows. */
  lemma {:induction false} EdgesFollowRule(nodes: string, total: nat, cols: nat, k: nat)
    requires k <= total <= |nodes|
    ensures forall e :: e in EdgesBefore(nodes, total, cols, k) <==> e.source < k && IsEdge(nodes, total, cols, e)
  {
    if k > 0 {
      EdgesFollowRule(nodes, total, cols, k - 1);
      NodeEdgesHas(nodes, total, cols, k - 1, Directions(k - 1, cols));
    }
  }

  /** The graph: node weights and edges. */
  datatype Graph = Graph(nodes: string, rows: nat, cols: nat, edges: seq<Edge>)

  /** Adding the nodes: one per character, row after row; rows counts the
      lines and cols is the length of the last line. */
  method AddNodes(lines: seq<string>) returns (nodes: string, rows: nat, cols: nat)
    requires |lines| >= 1
    ensures nodes == Flatten(lines) && rows == |lines| && cols == |lines[|lines| - 1]|
  {
    nodes, rows, cols := [], 0, 0;
    for i := 0 to |lines|
      invariant nodes == Flatten(lines[..i]) && rows == i
      invariant i > 0 ==> cols == |lines[i - 1]|
    {
      cols := 0;
      for j := 0 to |lines[i]|
        invariant nodes == Flatten(lines[..i]) + lines[i][..j] && cols == j
      {
        nodes := nodes + [lines[i][j]];
        cols := cols + 1;
        assert lines[i][..j + 1] == lines[i][..j] + [lines[i][j]];
      }
      assert lines[..i + 1][..i] == lines[..i];
      rows := rows + 1;
    }
    assert lines[..|lines|] == lines;
  }

  /** A candidate out of range is skipped; one in range must be a node. */
  predicate HasNode(nodes: string, total: nat, d: int)
  {
    d < 0 || d > total - 1 || d < |nodes|
  }

  /** The edges of one node, over its four candidates; a candidate in
      range that has no node panics on the unwrap. */
  method AddNodeEdges(nodes: string, total: nat, cols: nat, ni: nat, edges: seq<Edge>) returns (r: Result<seq<Edge>>)
    requires ni < |nodes|
    ensures r.Ok? <==> forall d :: d in Directions(ni, cols) ==> HasNode(nodes, total, d)
    ensures total <= |nodes| ==> r.Ok?
    ensures r.Ok? && total <= |nodes| ==> r.value == edges + NodeEdges(nodes, total, cols, ni, Directions(ni, cols))
  {
    var dirs := Directions(ni, cols);
    var added := edges;
    for i := 0 to 4
      invariant forall k :: 0 <= k < i ==> HasNode(nodes, total, dirs[k])
      invariant total <= |nodes| ==> added + NodeEdges(nodes, total, cols, ni, dirs[i..]) == edges + NodeEdges(nodes, total, cols, ni, dirs)
    {
      var d := dirs[i];
      if total <= |nodes| {
        NodeEdgesStep(nodes, total, cols, ni, dirs, i);
      }
      if d < 0 || d > total - 1 {
        continue;
      }
      if d >= |nodes| {
        assert d in dirs && !HasNode(nodes, total, d);
        return Err("called `Option::unwrap()` on a `None` value");
      }
      if TargetHeight(nodes[d]) <= SourceHeight(nodes[ni]) + 1 {
        added := added + [Edge(ni, d, 1)];
      }
    }
    assert forall d :: d in dirs ==> exists k :: 0 <= k < 4 && dirs[k] == d;
    return Ok(added);
  }

  /** create_graph: the nodes, then for every node index below rows*cols
      the edges the rule allows; an index with no node panics. */
  method CreateGraph(input: string) returns (r: Result<Graph>)
    ensures r.Ok? <==> GridFits(Split(input, '\n'))
    ensures r.Ok? ==> r.value.nodes == Flatten(Split(input, '\n'))
    ensures r.Ok? ==> r.value.rows == |Split(input, '\n')| && r.value.cols == |LastLine(Split(input, '\n'))|
    ensures r.Ok? ==> forall e :: e in r.value.edges <==> IsEdge(r.value.nodes, r.value.rows * r.value.cols, r.value.cols, e)
  {
    r := GraphOfLines(Split(input, '\n'));
  }

  /** The last line: its length is the number of columns. */
  function LastLine(lines: seq<string>): string
    requires |lines| >= 1
  {
    lines[|lines| - 1]
  }

  /** Every node index below rows*cols has a node. */
  predicate GridFits(lines: seq<string>)
    requires |lines| >= 1
  {
    |lines| * |LastLine(lines)| <= |Flatten(lines)|
  }

  method GraphOfLines(lines: seq<string>) returns (r: Result<Graph>)
    requires |lines| >= 1
    ensures r.Ok? <==> GridFits(lines)
    ensures r.Ok? ==> r.value.nodes == Flatten(lines)
    ensures r.Ok? ==> r.value.rows == |lines| && r.value.cols == |LastLine(lines)|
    ensures r.Ok? ==> forall e :: e in r.value.edges <==> IsEdge(r.value.nodes, r.value.rows * r.value.cols, r.value.cols, e)
  {
    var nodes, rows, cols := AddNodes(lines);
    var total := rows * cols;
    assert GridFits(lines) <==> total <= |nodes|;
    var edges: seq<Edge> := [];
    for ni := 0 to total
      invariant ni <= |nodes|
      invariant total <= |nodes| ==> edges == EdgesBefore(nodes, total, cols, ni)
    {
      if ni >= |nodes| {
        return Err("called `Option::unwrap()` on a `None` value");
      }
      var res := AddNodeEdges(nodes, total, cols, ni, edges);
      if res.Err? {
        return Err(res.msg);
      }
      edges := res.value;
    }
    EdgesFollowRule(nodes, total, cols, total);
    return Ok(Graph(nodes, rows, cols, edges));
  }

  /** get_start_nodeindex and get_end_nodeindex: count the characters,
      line after line, up to the first `c`; a missing `c` panics. */
  method FirstIndex(lines: seq<string>, c: char, missing: string) returns (r: Result<nat>)
    ensures r.Err? <==> c !in Flatten(lines)
    ensures r.Ok? ==> r.value < |Flatten(lines)| && Flatten(lines)[r.value] == c
    ensures r.Ok? ==> c !in Flatten(lines)[..r.value]
  {
    var ni := 0;
    ghost var seen: string := [];
    for i := 0 to |lines|
      invariant seen == Flatten(lines[..i]) && ni == |seen| && c !in seen
    {
      for j := 0 to |lines[i]|
        invariant seen == Flatten(lines[..i]) + lines[i][..j] && ni == |seen| && c !in seen
      {
        ni := ni + 1;
        FlattenPrefixAt(lines, i, j);
        if lines[i][j] == c {
          return Ok(ni - 1);
        }
        assert lines[i][..j + 1] == lines[i][..j] + [lines[i][j]];
        seen := seen + [lines[i][j]];
      }
      assert lines[..i + 1][..i] == lines[..i];
      assert lines[i][..|lines[i]|] == lines[i];
    }
    assert lines[..|lines|] == lines;
    return Err(missing);
  }

  /** get_start_nodeindex: the index of the first 'S'. */
  method StartIndex(input: string) returns (r: Result<nat>)
    ensures r.Err? <==> 'S' !in Flatten(Split(input, '\n'))
    ensures r.Ok? ==> IsFirst(Flatten(Split(input, '\n')), 'S', r.value)
  {
    r := FirstIndex(Split(input, '\n'), 'S', "Could not find start nodeindex!");
  }

  /** get_end_nodeindex: the index of the first 'E'. */
  method EndIndex(input: string) returns (r: Result<nat>)
    ensures r.Err? <==> 'E' !in Flatten(Split(input, '\n'))
    ensures r.Ok? ==> IsFirst(Flatten(Split(input, '\n')), 'E', r.value)
  {
    r := FirstIndex(Split(input, '\n'), 'E', "Could not find end nodeindex!");
  }

  /** `k` is the position of the first `c` in `nodes`. */
  predicate IsFirst(nodes: string, c: char, k: nat)
  {
    k < |nodes| && nodes[k] == c && c !in nodes[..k]
  }

  /** The first occurrence is unique. */
  lemma FirstUnique(nodes: string, c: char, a: nat, b: nat)
    requires IsFirst(nodes, c, a) && IsFirst(nodes, c, b)
    ensures a == b
  {
  }

  /** A square a hiking trail may start from: 'a', or 'S' at height a. */
  predicate IsTrailStart(c: char)
  {
    c == 'a' || c == 'S'
  }

  /** get_hiking_trail_start_nodeindexes: the index of every 'a' or 'S',
      in increasing order. */
  method HikingStarts(lines: seq<string>) returns (v: seq<nat>)
    ensures forall k: nat :: k in v <==> k < |Flatten(lines)| && IsTrailStart(Flatten(lines)[k])
    ensures forall a, b :: 0 <= a < b < |v| ==> v[a] < v[b]
  {
    v := [];
    var ni := 0;
    ghost var seen: string := [];
    for i := 0 to |lines|
      invariant seen == Flatten(lines[..i]) && ni == |seen|
      invariant forall k: nat :: k in v <==> k < |seen| && IsTrailStart(seen[k])
      invariant forall a, b :: 0 <= a < b < |v| ==> v[a] < v[b]
      invariant forall a :: 0 <= a < |v| ==> v[a] < ni
    {
      for j := 0 to |lines[i]|
        invariant seen == Flatten(lines[..i]) + lines[i][..j] && ni == |seen|
        invariant forall k: nat :: k in v <==> k < |seen| && IsTrailStart(seen[k])
        invariant forall a, b :: 0 <= a < b < |v| ==> v[a] < v[b]
        invariant forall a :: 0 <= a < |v| ==> v[a] < ni
      {
        var ch := lines[i][j];
        ni := ni + 1;
        if ch == 'a' || ch == 'S' {
          v := v + [ni - 1];
        }
        assert lines[i][..j + 1] == lines[i][..j] + [ch];
        seen := seen + [ch];
      }
      assert lines[..i + 1][..i] == lines[..i];
      assert lines[i][..|lines[i]|] == lines[i];
    }
    assert lines[..|lines|] == lines;
  }

  /** A distance from dijkstra, with an unreachable end counting as 9999. */
  function OrUnreachable(d: Option<nat>): nat
  {
    match d
    case Some(n) => n
    case None => 9999
  }

  /** The min fold of hiking_trail_shortest_path: start at 9999 and keep
      the smaller distance; the result is at most 9999, at most every
      start's distance, and is 9999 or some start's distance. */
  method MinDistance(starts: seq<nat>, end: nat, dist: (nat, nat) -> Option<nat>) returns (m: nat)
    ensures m <= 9999
    ensures forall s :: s in starts ==> m <= OrUnreachable(dist(s, end))
    ensures m == 9999 || exists s :: s in starts && OrUnreachable(dist(s, end)) == m
  {
    m := 9999;
    for i := 0 to |starts|
      invariant m <= 9999
      invariant forall k :: 0 <= k < i ==> m <= OrUnreachable(dist(starts[k], end))
      invariant m == 9999 || exists k :: 0 <= k < i && OrUnreachable(dist(starts[k], end)) == m
    {
      var d := OrUnreachable(dist(starts[i], end));
      m := if d < m then d else m;
    }
  }

  /** shortest_path: the graph, the first 'S' and the first 'E', then the
      distance dijkstra finds, which must exist. The distances are a
      parameter: `dist(g, from, to)` is the length of a shortest path in g,
      if there is one. */
  method ShortestPath(input: string, dist: (Graph, nat, nat) -> Option<nat>) returns (r: Result<nat>, ghost g: Graph, ghost start: nat, ghost end: nat)
    ensures r.Ok? <==> GridFits(Split(input, '\n')) && 'S' in g.nodes && 'E' in g.nodes && dist(g, start, end).Some?
    ensures GridFits(Split(input, '\n')) ==> IsGraphOf(Split(input, '\n'), g)
    ensures GridFits(Split(input, '\n')) && 'S' in g.nodes && 'E' in g.nodes ==> IsFirst(g.nodes, 'S', start) && IsFirst(g.nodes, 'E', end)
    ensures r.Ok? ==> IsFirst(g.nodes, 'S', start) && IsFirst(g.nodes, 'E', end)
    ensures r.Ok? ==> r.value == dist(g, start, end).value
  {
    var lines := Split(input, '\n');
    var res := GraphOfLines(lines);
    g, start, end := Graph([], 0, 0, []), 0, 0;
    if res.Err? {
      return Err(res.msg), g, start, end;
    }
    var graph := res.value;
    g := graph;
    var s := StartIndex(input);
    if s.Err? {
      return Err(s.msg), g, start, end;
    }
    var e := EndIndex(input);
    if e.Err? {
      return Err(e.msg), g, start, end;
    }
    start, end := s.value, e.value;
    match dist(graph, s.value, e.value)
    case Some(d) => r := Ok(d);
    case None => r := Err("called `Option::unwrap()` on a `None` value");
  }

  /** `g` is what create_graph builds from the lines. */
  ghost predicate IsGraphOf(lines: seq<string>, g: Graph)
    requires |lines| >= 1
  {
    g.nodes == Flatten(lines) && g.rows == |lines| && g.cols == |LastLine(lines)| &&
    g.rows * g.cols <= |g.nodes| &&
    forall e :: e in g.edges <==> IsEdge(g.nodes, g.rows * g.cols, g.cols, e)
  }

  /** hiking_trail_shortest_path: the least distance to the first 'E' from
      any 'a' or 'S', with 9999 for an unreachable end. */
  method HikingTrailShortestPath(input: string, dist: (Graph, nat, nat) -> Option<nat>) returns (r: Result<nat>, ghost g: Graph, ghost end: nat)
    ensures r.Ok? <==> GridFits(Split(input, '\n')) && 'E' in g.nodes
    ensures GridFits(Split(input, '\n')) ==> IsGraphOf(Split(input, '\n'), g)
    ensures r.Ok? ==> IsFirst(g.nodes, 'E', end) && r.value <= 9999
    ensures r.Ok? ==> forall k: nat :: k < |g.nodes| && IsTrailStart(g.nodes[k]) ==> r.value <= OrUnreachable(dist(g, k, end))
    ensures r.Ok? ==> r.value == 9999 || exists k: nat :: k < |g.nodes| && IsTrailStart(g.nodes[k]) && OrUnreachable(dist(g, k, end)) == r.value
  {
    var lines := Split(input, '\n');
    var res := GraphOfLines(lines);
    g, end := Graph([], 0, 0, []), 0;
    if res.Err? {
      return Err(res.msg), g, end;
    }
    var graph := res.value;
    g := graph;
    var starts := HikingStarts(lines);
    var e := EndIndex(input);
    if e.Err? {
      return Err(e.msg), g, end;
    }
    end := e.value;
    var m := MinDistance(starts, e.value, (from: nat, to: nat) => dist(graph, from, to));
    return Ok(m), g, end;
  }

  /** When all lines have the same length, every index below rows*cols
      has a node, so create_graph does not panic. */
  lemma RectangularFits(lines: seq<string>)
    requires |lines| >= 1
    requires forall i :: 0 <= i < |lines| ==> |lines[i]| == |LastLine(lines)|
    ensures GridFits(lines)
  {
    FlattenLength(lines, |LastLine(lines)|);
  }

  /** Left and right wrap: node ni has an edge to node ni+1 whenever that
      index is in range and the height rule allows it, even when ni ends a
      row and ni+1 starts the next one. */
  lemma RightNeighbourWraps(nodes: string, total: nat, cols: nat, ni: nat)
    requires ni + 1 < total <= |nodes|
    requires TargetHeight(nodes[ni + 1]) <= SourceHeight(nodes[ni]) + 1
    ensures IsEdge(nodes, total, cols, Edge(ni, ni + 1, 1))
  {
    assert Directions(ni, cols)[3] == ni + 1;
  }
}
