/** The worked example of day 14: two rock paths, the bounds they give and
    the grid parse_cave draws for them. */
module CaveExamples {
  import opened Wrappers
  import opened Text
  import opened Cave

  /** The two lines of the example input. */
  const FIRST_LINE: string := "498,4 -> 498,6 -> 496,6"
  const SECOND_LINE: string := "503,4 -> 502,4 -> 502,9 -> 494,9"

  const FIRST_PATH: Polygon := Polygon([Point(498, 4), Point(498, 6), Point(496, 6)])
  const SECOND_PATH: Polygon :=
    Polygon([Point(503, 4), Point(502, 4), Point(502, 9), Point(494, 9)])

  lemma PathCons(p: Point, rest: seq<Point>)
    requires |rest| >= 1
    ensures PathText([p] + rest) == PointText(p) + " -> " + PathText(rest)
  {
    assert ([p] + rest)[1..] == rest;
  }

  lemma PointTextOf(p: Point, x: string, y: string)
    requires NatToString(p.x) == x && NatToString(p.y) == y
    ensures PointText(p) == x + "," + y
  {
  }

  lemma SmallNumbers()
    ensures NatToString(4) == "4" && NatToString(6) == "6" && NatToString(9) == "9"
  {
  }

  lemma NumberText(n: nat, s: string)
    requires 100 <= n < 1000 && |s| == 3
    requires s[0] as int == '0' as int + n / 100
    requires s[1] as int == '0' as int + n / 10 % 10
    requires s[2] as int == '0' as int + n % 10
    ensures NatToString(n) == s
  {
    assert NatToString(n / 100) == [s[0]];
    assert NatToString(n / 10) == [s[0], s[1]];
  }

  lemma FirstPathText()
    ensures PathText(FIRST_PATH.points) == FIRST_LINE
  {
    SmallNumbers();
    NumberText(498, "498");
    NumberText(496, "496");
    PointTextOf(Point(498, 4), "498", "4");
    PointTextOf(Point(498, 6), "498", "6");
    PointTextOf(Point(496, 6), "496", "6");
    PathCons(Point(498, 6), [Point(496, 6)]);
    PathCons(Point(498, 4), [Point(498, 6), Point(496, 6)]);
    FirstJoin();
  }

  lemma FirstJoin()
    ensures "498" + "," + "4" + " -> " + ("498" + "," + "6" + " -> " + ("496" + "," + "6")) == FIRST_LINE
  {
  }

  lemma SecondTailJoin()
    ensures "502" + "," + "4" + " -> " + ("502" + "," + "9" + " -> " + ("494" + "," + "9")) ==
            "502,4 -> 502,9 -> 494,9"
  {
  }

  lemma SecondPathTail()
    ensures PathText([Point(502, 4), Point(502, 9), Point(494, 9)]) == "502,4 -> 502,9 -> 494,9"
  {
    SmallNumbers();
    NumberText(502, "502");
    NumberText(494, "494");
    PointTextOf(Point(502, 4), "502", "4");
    PointTextOf(Point(502, 9), "502", "9");
    PointTextOf(Point(494, 9), "494", "9");
    PathCons(Point(502, 9), [Point(494, 9)]);
    PathCons(Point(502, 4), [Point(502, 9), Point(494, 9)]);
    SecondTailJoin();
  }

  lemma SecondJoin()
    ensures "503" + "," + "4" + " -> " + "502,4 -> 502,9 -> 494,9" == SECOND_LINE
  {
  }

  lemma SecondPathText()
    ensures PathText(SECOND_PATH.points) == SECOND_LINE
  {
    SmallNumbers();
    NumberText(503, "503");
    PointTextOf(Point(503, 4), "503", "4");
    SecondPathTail();
    PathCons(Point(503, 4), [Point(502, 4), Point(502, 9), Point(494, 9)]);
    SecondJoin();
  }

  lemma TwoLines(a: Polygon, b: Polygon)
    requires Representable([a, b])
    ensures CaveText([a, b]) == PathText(a.points) + "\n" + PathText(b.points)
  {
    assert [a, b][1..] == [b];
  }

  /** A single line parses into one polygon with its three corners. */
  lemma ParseOneLine()
    ensures ParsePolygons(FIRST_LINE) == [FIRST_PATH]
  {
    assert Representable([FIRST_PATH]);
    FirstPathText();
    ParsePolygonsText([FIRST_PATH]);
  }

  lemma ExampleRepresentable()
    ensures Representable([FIRST_PATH, SECOND_PATH])
  {
    assert Fits(FIRST_PATH.points) && Fits(SECOND_PATH.points);
  }

  /** The two-line example parses into both paths. */
  lemma ParseExample()
    ensures ParsePolygons(FIRST_LINE + "\n" + SECOND_LINE) == [FIRST_PATH, SECOND_PATH]
  {
    ExampleRepresentable();
    FirstPathText();
    SecondPathText();
    TwoLines(FIRST_PATH, SECOND_PATH);
    ParsePolygonsText([FIRST_PATH, SECOND_PATH]);
  }

  lemma FirstPathBounds(b: Bounds)
    requires b == Bounds(SAND_ENTRY_X, SAND_ENTRY_X, 0)
    ensures FoldPoints(b, FIRST_PATH.points) == Bounds(496, 500, 6)
  {
    var pts := FIRST_PATH.points;
    assert pts[1..][1..][1..] == [];
    assert FoldPoints(Bounds(496, 500, 6), pts[1..][1..][1..]) == Bounds(496, 500, 6);
    assert FoldPoints(Bounds(498, 500, 6), pts[1..][1..]) == Bounds(496, 500, 6);
    assert FoldPoints(Bounds(498, 500, 4), pts[1..]) == Bounds(496, 500, 6);
  }

  lemma SecondPathBounds(b: Bounds)
    requires b == Bounds(496, 500, 6)
    ensures FoldPoints(b, SECOND_PATH.points) == Bounds(494, 503, 9)
  {
    var pts := SECOND_PATH.points;
    assert pts[1..][1..][1..][1..] == [];
    assert FoldPoints(Bounds(494, 503, 9), pts[1..][1..][1..][1..]) == Bounds(494, 503, 9);
    assert FoldPoints(Bounds(496, 503, 9), pts[1..][1..][1..]) == Bounds(494, 503, 9);
    assert FoldPoints(Bounds(496, 503, 6), pts[1..][1..]) == Bounds(494, 503, 9);
    assert FoldPoints(Bounds(496, 503, 6), pts[1..]) == Bounds(494, 503, 9);
  }

  lemma TwoPolygons(b: Bounds, a: Polygon, c: Polygon)
    ensures FoldPolygons(b, [a, c]) == FoldPoints(FoldPoints(b, a.points), c.points)
  {
    assert [a, c][1..] == [c];
    assert [a, c][1..][1..] == [];
  }

  /** get_cave_bounds of the example: columns 494 to 503, depth 9. */
  lemma ExampleBounds()
    ensures CaveBounds([FIRST_PATH, SECOND_PATH]) == Bounds(494, 503, 9)
  {
    FirstPathBounds(Bounds(SAND_ENTRY_X, SAND_ENTRY_X, 0));
    SecondPathBounds(Bounds(496, 500, 6));
    TwoPolygons(Bounds(SAND_ENTRY_X, SAND_ENTRY_X, 0), FIRST_PATH, SECOND_PATH);
  }

  const EXAMPLE_PATHS: seq<Polygon> := [FIRST_PATH, SECOND_PATH]

  /** The grid test_parse_cave expects: the entry '+' at column 500 - 494,
      rock along both paths, air elsewhere. */
  const EXPECTED_CAVE: seq<string> := [
    "......+...",
    "..........",
    "..........",
    "..........",
    "....#...##",
    "....#...#.",
    "..###...#.",
    "........#.",
    "........#.",
    "#########."]

  /** The rock cells of the example: the first path's two segments and the
      second path's three. */
  predicate ExampleRockAt(x: int, y: int)
  {
    (x == 498 && 4 <= y <= 6) || (y == 6 && 496 <= x <= 498) ||
    (y == 4 && 502 <= x <= 503) || (x == 502 && 4 <= y <= 9) || (y == 9 && 494 <= x <= 502)
  }

  lemma ExampleRock(x: int, y: int)
    ensures Rock(EXAMPLE_PATHS, x, y) <==> ExampleRockAt(x, y)
  {
    var a, b := FIRST_PATH.points, SECOND_PATH.points;
    assert OnPathUpTo(a, 1, x, y) <==> OnSegment(a[0], a[1], x, y);
    assert OnPathUpTo(a, 2, x, y) <==> OnPathUpTo(a, 1, x, y) || OnSegment(a[1], a[2], x, y);
    assert OnPath(a, x, y) <==> OnPathUpTo(a, 2, x, y);
    assert OnPathUpTo(b, 1, x, y) <==> OnSegment(b[0], b[1], x, y);
    assert OnPathUpTo(b, 2, x, y) <==> OnPathUpTo(b, 1, x, y) || OnSegment(b[1], b[2], x, y);
    assert OnPathUpTo(b, 3, x, y) <==> OnPathUpTo(b, 2, x, y) || OnSegment(b[2], b[3], x, y);
    assert OnPath(b, x, y) <==> OnPathUpTo(b, 3, x, y);
    assert RockUpTo(EXAMPLE_PATHS, 1, x, y) <==> OnPath(a, x, y);
    assert Rock(EXAMPLE_PATHS, x, y) <==> RockUpTo(EXAMPLE_PATHS, 1, x, y) || OnPath(b, x, y);
  }

  /** Row `r` of the example grid as the drawing rule gives it: the entry
      mark, rock, or air. */
  predicate FollowsRule(r: nat, row: string)
  {
    |row| == 10 &&
    forall c :: 0 <= c < 10 ==>
      row[c] == if r == 0 && c == 6 then '+' else if ExampleRockAt(c + 494, r) then '#' else '.'
  }

  /** A row that follows the drawing rule is that row of the grid
      parse_cave builds for paths with the example's bounds and rock. */
  lemma CaveRow(polys: seq<Polygon>, r: nat, row: string)
    requires CaveBounds(polys) == Bounds(494, 503, 9)
    requires forall x, y :: Rock(polys, x, y) <==> ExampleRockAt(x, y)
    requires r < 10 && FollowsRule(r, row)
    ensures |InitialGrid(polys)| == 10
    ensures InitialGrid(polys)[r] == row
  {
    forall c | 0 <= c < 10
      ensures InitialGrid(polys)[r][c] == row[c]
    {
      InitialGridCell(polys, r, c);
    }
  }

  lemma ExpectedRow0()
    ensures FollowsRule(0, EXPECTED_CAVE[0])
  {
  }

  lemma ExpectedRow1()
    ensures FollowsRule(1, EXPECTED_CAVE[1])
  {
  }

  lemma ExpectedRow2()
    ensures FollowsRule(2, EXPECTED_CAVE[2])
  {
  }

  lemma ExpectedRow3()
    ensures FollowsRule(3, EXPECTED_CAVE[3])
  {
  }

  lemma ExpectedRow4()
    ensures FollowsRule(4, EXPECTED_CAVE[4])
  {
  }

  lemma ExpectedRow5()
    ensures FollowsRule(5, EXPECTED_CAVE[5])
  {
  }

  lemma ExpectedRow6()
    ensures FollowsRule(6, EXPECTED_CAVE[6])
  {
  }

  lemma ExpectedRow7()
    ensures FollowsRule(7, EXPECTED_CAVE[7])
  {
  }

  lemma ExpectedRow8()
    ensures FollowsRule(8, EXPECTED_CAVE[8])
  {
  }

  lemma ExpectedRow9()
    ensures FollowsRule(9, EXPECTED_CAVE[9])
  {
  }

  lemma UpperRows(polys: seq<Polygon>)
    requires CaveBounds(polys) == Bounds(494, 503, 9)
    requires forall x, y :: Rock(polys, x, y) <==> ExampleRockAt(x, y)
    ensures |InitialGrid(polys)| == 10
    ensures InitialGrid(polys)[0] == EXPECTED_CAVE[0]
    ensures InitialGrid(polys)[1] == EXPECTED_CAVE[1]
    ensures InitialGrid(polys)[2] == EXPECTED_CAVE[2]
    ensures InitialGrid(polys)[3] == EXPECTED_CAVE[3]
    ensures InitialGrid(polys)[4] == EXPECTED_CAVE[4]
  {
    ExpectedRow0();
    CaveRow(polys, 0, EXPECTED_CAVE[0]);
    ExpectedRow1();
    CaveRow(polys, 1, EXPECTED_CAVE[1]);
    ExpectedRow2();
    CaveRow(polys, 2, EXPECTED_CAVE[2]);
    ExpectedRow3();
    CaveRow(polys, 3, EXPECTED_CAVE[3]);
    ExpectedRow4();
    CaveRow(polys, 4, EXPECTED_CAVE[4]);
  }

  lemma LowerRows(polys: seq<Polygon>)
    requires CaveBounds(polys) == Bounds(494, 503, 9)
    requires forall x, y :: Rock(polys, x, y) <==> ExampleRockAt(x, y)
    ensures |InitialGrid(polys)| == 10
    ensures InitialGrid(polys)[5] == EXPECTED_CAVE[5]
    ensures InitialGrid(polys)[6] == EXPECTED_CAVE[6]
    ensures InitialGrid(polys)[7] == EXPECTED_CAVE[7]
    ensures InitialGrid(polys)[8] == EXPECTED_CAVE[8]
    ensures InitialGrid(polys)[9] == EXPECTED_CAVE[9]
  {
    ExpectedRow5();
    CaveRow(polys, 5, EXPECTED_CAVE[5]);
    ExpectedRow6();
    CaveRow(polys, 6, EXPECTED_CAVE[6]);
    ExpectedRow7();
    CaveRow(polys, 7, EXPECTED_CAVE[7]);
    ExpectedRow8();
    CaveRow(polys, 8, EXPECTED_CAVE[8]);
    ExpectedRow9();
    CaveRow(polys, 9, EXPECTED_CAVE[9]);
  }

  /** Paths with the example's bounds and rock give the expected grid. */
  lemma GridOfRule(polys: seq<Polygon>)
    requires CaveBounds(polys) == Bounds(494, 503, 9)
    requires forall x, y :: Rock(polys, x, y) <==> ExampleRockAt(x, y)
    ensures InitialGrid(polys) == EXPECTED_CAVE
  {
    UpperRows(polys);
    LowerRows(polys);
    var g := InitialGrid(polys);
    assert |g| == |EXPECTED_CAVE|;
    forall r | 0 <= r < 10
      ensures g[r] == EXPECTED_CAVE[r]
    {
      assert r == 0 || r == 1 || r == 2 || r == 3 || r == 4 || r == 5 || r == 6 || r == 7 || r == 8 || r == 9;
    }
  }

  /** test_parse_cave: parse_cave draws the expected grid for the two
      example lines. */
  lemma ExampleParseCave()
    ensures InitialGrid(ParsePolygons(FIRST_LINE + "\n" + SECOND_LINE)) == EXPECTED_CAVE
  {
    ParseExample();
    ExampleBounds();
    forall x, y
      ensures Rock(EXAMPLE_PATHS, x, y) <==> ExampleRockAt(x, y)
    {
      ExampleRock(x, y);
    }
    GridOfRule(EXAMPLE_PATHS);
  }
}
