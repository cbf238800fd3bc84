/** Sand falling into a cave (rust/src/d14/mod.rs).

    Rock is given as chains of points "x,y -> x,y -> ..."; every consecutive
    pair is drawn as a run of '#' cells into a grid whose columns start at the
    smallest x. Grains of sand enter one at a time at column 500 of row 0
    (marked '+'), fall down, else down-left, else down-right, and come to rest
    ('o') when all three are blocked. The open-pit run stops at the first grain
    that leaves the grid; the bedrock run adds a floor two rows below the lowest
    rock and stops once the entry cell is covered. */
module Cave {
  import opened Wrappers
  import opened Text

  /** Column of the sand entry, in puzzle coordinates. */
  const SAND_ENTRY_X: nat := 500
  /** Falling steps one grain may take before the run is declared broken. */
  const MAX_ITERATIONS: nat := 10000

  datatype Point = Point(x: nat, y: nat)

  datatype Polygon = Polygon(points: seq<Point>)

  function Min(a: nat, b: nat): nat { if a <= b then a else b }

  function Max(a: nat, b: nat): nat { if a >= b then a else b }

  // ---------------------------------------------------------------------
  // Parsing: Point::parse, Polygon::parse, parse_cave_polygons
  // ---------------------------------------------------------------------

  /** `digits,digits`, each read as a usize. */
  function ParsePoint(s: string): (r: Option<(Point, string)>)
    ensures r.Some? ==> |r.value.1| < |s|
  {
    match NatPrefix(s, U64_LIMIT)
    case None => None
    case Some((x, afterX)) =>
      match Tag(afterX, ",")
      case None => None
      case Some(beforeY) =>
        match NatPrefix(beforeY, U64_LIMIT)
        case None => None
        case Some((y, rest)) => Some((Point(x, y), rest))
  }

  /** The tail of `separated_list1(tag(" -> "), Point::parse)`: further
      " -> " point pairs, stopping before the first separator that is not
      followed by a point. */
  function MorePoints(s: string): (r: (seq<Point>, string))
    ensures |r.1| <= |s|
    decreases |s|
  {
    match Tag(s, " -> ")
    case None => ([], s)
    case Some(afterArrow) =>
      match ParsePoint(afterArrow)
      case None => ([], s)
      case Some((p, rest)) =>
        var more := MorePoints(rest);
        ([p] + more.0, more.1)
  }

  /** Leading white space, then one or more points separated by " -> ". */
  function ParsePolygon(s: string): (r: Option<(Polygon, string)>)
    ensures r.Some? ==> |r.value.0.points| >= 1 && |r.value.1| < |s|
  {
    match ParsePoint(SkipMultispace(s))
    case None => None
    case Some((first, rest)) =>
      var more := MorePoints(rest);
      Some((Polygon([first] + more.0), more.1))
  }

  /** `many0(Polygon::parse)`: the polygons in input order, up to the first
      place where no polygon can be read; the rest of the input is dropped. */
  function ParsePolygons(s: string): (r: seq<Polygon>)
    ensures forall poly :: poly in r ==> |poly.points| >= 1
    decreases |s|
  {
    var next := ParsePolygon(s);
    if next.None? then []
    else [next.value.0] + ParsePolygons(next.value.1)
  }

  // Text of polygons, used to state that the parser reads back what it is given.

  function PointText(p: Point): string
  {
    NatToString(p.x) + "," + NatToString(p.y)
  }

  function PathText(pts: seq<Point>): string
    requires |pts| >= 1
  {
    if |pts| == 1 then PointText(pts[0])
    else PointText(pts[0]) + " -> " + PathText(pts[1..])
  }

  predicate Fits(pts: seq<Point>)
  {
    forall p :: p in pts ==> p.x < U64_LIMIT && p.y < U64_LIMIT
  }

  /** Polygons that have a text: at least one point each, coordinates that
      fit a usize. */
  predicate Representable(polys: seq<Polygon>)
  {
    forall poly :: poly in polys ==> |poly.points| >= 1 && Fits(poly.points)
  }

  /** One line per polygon, in order. */
  function CaveText(polys: seq<Polygon>): string
    requires Representable(polys)
  {
    if |polys| == 0 then ""
    else if |polys| == 1 then PathText(polys[0].points)
    else PathText(polys[0].points) + "\n" + CaveText(polys[1..])
  }

  lemma ParsePointText(p: Point, rest: string)
    requires p.x < U64_LIMIT && p.y < U64_LIMIT
    requires rest == [] || !IsDigit(rest[0])
    ensures ParsePoint(PointText(p) + rest) == Some((p, rest))
  {
    var xs, ys := NatToString(p.x), NatToString(p.y);
    Assoc(xs + ",", ys, rest);
    Assoc(xs, ",", ys + rest);
    NatPrefixOfString(p.x, "," + (ys + rest), U64_LIMIT);
    TagOfPrefix(",", ys + rest);
    NatPrefixOfString(p.y, rest, U64_LIMIT);
  }

  lemma PathTextStartsWithDigit(pts: seq<Point>, rest: string)
    requires |pts| >= 1
    ensures |PathText(pts) + rest| >= 1 && IsDigit((PathText(pts) + rest)[0])
  {
    var first := PointText(pts[0]);
    assert first[0] == NatToString(pts[0].x)[0];
    if |pts| > 1 {
      assert PathText(pts) == first + " -> " + PathText(pts[1..]);
    }
    assert PathText(pts)[0] == first[0];
  }

  lemma MorePointsAtLineEnd(rest: string)
    requires rest == [] || rest[0] == '\n'
    ensures MorePoints(rest) == ([], rest)
  {
  }

  /** The text after the first point of a path: the remaining points, each
      after " -> ", then `rest`. */
  function AfterFirst(pts: seq<Point>, rest: string): string
    requires |pts| >= 1
  {
    if |pts| == 1 then rest else " -> " + PathText(pts[1..]) + rest
  }

  lemma PathTextSplit(pts: seq<Point>, rest: string)
    requires |pts| >= 1
    requires rest == [] || rest[0] == '\n'
    ensures PathText(pts) + rest == PointText(pts[0]) + AfterFirst(pts, rest)
    ensures AfterFirst(pts, rest) == [] || !IsDigit(AfterFirst(pts, rest)[0])
  {
    if |pts| > 1 {
      var first, others := PointText(pts[0]), PathText(pts[1..]);
      assert PathText(pts) == first + " -> " + others;
      Assoc(first, " -> ", others);
      Assoc(first, " -> " + others, rest);
      Assoc(" -> ", others, rest);
    }
  }

  lemma MorePointsStep(s: string, afterArrow: string, p: Point, rest: string)
    requires Tag(s, " -> ") == Some(afterArrow)
    requires ParsePoint(afterArrow) == Some((p, rest))
    ensures MorePoints(s) == ([p] + MorePoints(rest).0, MorePoints(rest).1)
  {
  }

  lemma MorePointsFirst(pts: seq<Point>, rest: string)
    requires |pts| >= 1
    requires Fits(pts)
    requires rest == [] || rest[0] == '\n'
    ensures var tail := MorePoints(AfterFirst(pts, rest));
      MorePoints(" -> " + PathText(pts) + rest) == ([pts[0]] + tail.0, tail.1)
  {
    var s := " -> " + PathText(pts) + rest;
    var tail := AfterFirst(pts, rest);
    PathTextSplit(pts, rest);
    Assoc(" -> ", PathText(pts), rest);
    TagOfPrefix(" -> ", PointText(pts[0]) + tail);
    assert pts[0] in pts;
    ParsePointText(pts[0], tail);
    MorePointsStep(s, PointText(pts[0]) + tail, pts[0], tail);
  }

  lemma {:induction false} MorePointsText(pts: seq<Point>, rest: string)
    requires |pts| >= 1
    requires Fits(pts)
    requires rest == [] || rest[0] == '\n'
    ensures MorePoints(" -> " + PathText(pts) + rest) == (pts, rest)
    decreases |pts|
  {
    MorePointsFirst(pts, rest);
    if |pts| == 1 {
      MorePointsAtLineEnd(rest);
    } else {
      assert Fits(pts[1..]);
      MorePointsText(pts[1..], rest);
    }
    ConsTail(pts, MorePoints(AfterFirst(pts, rest)).0);
  }

  lemma ParsePolygonStep(s: string, p: Point, rest: string)
    requires ParsePoint(SkipMultispace(s)) == Some((p, rest))
    ensures ParsePolygon(s) == Some((Polygon([p] + MorePoints(rest).0), MorePoints(rest).1))
  {
  }

  lemma ParsePolygonFirst(pts: seq<Point>, rest: string)
    requires |pts| >= 1
    requires Fits(pts)
    requires rest == [] || rest[0] == '\n'
    ensures var tail := MorePoints(AfterFirst(pts, rest));
      ParsePolygon(PathText(pts) + rest) == Some((Polygon([pts[0]] + tail.0), tail.1))
  {
    var s := PathText(pts) + rest;
    var tail := AfterFirst(pts, rest);
    PathTextSplit(pts, rest);
    PathTextStartsWithDigit(pts, rest);
    SkipMultispaceAtDigit(s);
    assert pts[0] in pts;
    ParsePointText(pts[0], tail);
    ParsePolygonStep(s, pts[0], tail);
  }

  lemma ParsePolygonText(pts: seq<Point>, rest: string)
    requires |pts| >= 1
    requires Fits(pts)
    requires rest == [] || rest[0] == '\n'
    ensures ParsePolygon(PathText(pts) + rest) == Some((Polygon(pts), rest))
  {
    ParsePolygonFirst(pts, rest);
    if |pts| == 1 {
      MorePointsAtLineEnd(rest);
    } else {
      assert Fits(pts[1..]);
      MorePointsText(pts[1..], rest);
    }
    ConsTail(pts, MorePoints(AfterFirst(pts, rest)).0);
  }

  lemma CaveTextStartsWithDigit(polys: seq<Polygon>)
    requires Representable(polys) && |polys| >= 1
    ensures |CaveText(polys)| >= 1 && IsDigit(CaveText(polys)[0])
  {
    assert polys[0] in polys;
    if |polys| == 1 {
      PathTextStartsWithDigit(polys[0].points, "");
      assert CaveText(polys) == PathText(polys[0].points) + "";
    } else {
      PathTextStartsWithDigit(polys[0].points, "\n" + CaveText(polys[1..]));
    }
  }

  lemma ParsePolygonsAfterNewline(x: string)
    requires x != [] && IsDigit(x[0])
    ensures ParsePolygons("\n" + x) == ParsePolygons(x)
  {
    assert ("\n" + x)[1..] == x;
    assert SkipMultispace("\n" + x) == SkipMultispace(x);
    assert ParsePolygon("\n" + x) == ParsePolygon(x);
  }

  lemma ParsePolygonsCons(s: string, poly: Polygon, rest: string)
    requires ParsePolygon(s) == Some((poly, rest))
    ensures ParsePolygons(s) == [poly] + ParsePolygons(rest)
  {
  }

  lemma ParsePolygonsOne(polys: seq<Polygon>)
    requires Representable(polys) && |polys| == 1
    ensures ParsePolygons(CaveText(polys)) == polys
  {
    assert polys[0] in polys;
    assert CaveText(polys) == PathText(polys[0].points) + "";
    ParsePolygonText(polys[0].points, "");
    assert ParsePolygon("") == None;
    ParsePolygonsCons(CaveText(polys), polys[0], "");
    ConsTail(polys, []);
  }

  lemma ParsePolygonsMore(polys: seq<Polygon>)
    requires Representable(polys) && |polys| >= 2
    requires ParsePolygons(CaveText(polys[1..])) == polys[1..]
    ensures ParsePolygons(CaveText(polys)) == polys
  {
    assert polys[0] in polys;
    var first, tail := polys[0].points, CaveText(polys[1..]);
    Assoc(PathText(first), "\n", tail);
    ParsePolygonText(first, "\n" + tail);
    ParsePolygonsCons(CaveText(polys), polys[0], "\n" + tail);
    CaveTextStartsWithDigit(polys[1..]);
    ParsePolygonsAfterNewline(tail);
    ConsTail(polys, polys[1..]);
  }

  /** Parsing the text of a list of polygons, one per line, gives the list
      back: points come out in line order and each line is one polygon. */
  lemma {:induction false} ParsePolygonsText(polys: seq<Polygon>)
    requires Representable(polys)
    ensures ParsePolygons(CaveText(polys)) == polys
    decreases |polys|
  {
    if |polys| == 0 {
      assert ParsePolygon("") == None;
    } else if |polys| == 1 {
      ParsePolygonsOne(polys);
    } else {
      ParsePolygonsText(polys[1..]);
      ParsePolygonsMore(polys);
    }
  }

  // ---------------------------------------------------------------------
  // get_cave_bounds
  // ---------------------------------------------------------------------

  /** Smallest x, largest x and largest y seen so far. */
  datatype Bounds = Bounds(min: nat, max: nat, height: nat)

  /** Every point of every polygon, in order. */
  function AllPoints(polys: seq<Polygon>): seq<Point>
  {
    if polys == [] then [] else polys[0].points + AllPoints(polys[1..])
  }

  /** The inner fold of get_cave_bounds over the points of one polygon. */
  function FoldPoints(b: Bounds, pts: seq<Point>): (r: Bounds)
    ensures r.min <= b.min && b.max <= r.max && b.height <= r.height
    ensures forall p :: p in pts ==> r.min <= p.x <= r.max && p.y <= r.height
    ensures r.min == b.min || exists p :: p in pts && p.x == r.min
    ensures r.max == b.max || exists p :: p in pts && p.x == r.max
    ensures r.height == b.height || exists p :: p in pts && p.y == r.height
    decreases |pts|
  {
    if pts == [] then b
    else
      assert pts == [pts[0]] + pts[1..];
      FoldPoints(Bounds(Min(pts[0].x, b.min), Max(pts[0].x, b.max), Max(pts[0].y, b.height)), pts[1..])
  }

  /** The outer fold of get_cave_bounds over the polygons. */
  function FoldPolygons(b: Bounds, polys: seq<Polygon>): (r: Bounds)
    ensures r.min <= b.min && b.max <= r.max && b.height <= r.height
    ensures forall p :: p in AllPoints(polys) ==> r.min <= p.x <= r.max && p.y <= r.height
    ensures r.min == b.min || exists p :: p in AllPoints(polys) && p.x == r.min
    ensures r.max == b.max || exists p :: p in AllPoints(polys) && p.x == r.max
    ensures r.height == b.height || exists p :: p in AllPoints(polys) && p.y == r.height
    decreases |polys|
  {
    if polys == [] then b
    else FoldPolygons(FoldPoints(b, polys[0].points), polys[1..])
  }

  /** get_cave_bounds: the fold starts from (500, 500, 0), so the entry
      column always lies between the bounds, every point lies inside them and
      each bound is either the start value or attained by some point. */
  function CaveBounds(polys: seq<Polygon>): (r: Bounds)
    ensures r.min <= SAND_ENTRY_X <= r.max
    ensures forall p :: p in AllPoints(polys) ==> r.min <= p.x <= r.max && p.y <= r.height
    ensures r.min == SAND_ENTRY_X || exists p :: p in AllPoints(polys) && p.x == r.min
    ensures r.max == SAND_ENTRY_X || exists p :: p in AllPoints(polys) && p.x == r.max
    ensures r.height == 0 || exists p :: p in AllPoints(polys) && p.y == r.height
  {
    FoldPolygons(Bounds(SAND_ENTRY_X, SAND_ENTRY_X, 0), polys)
  }

  lemma {:induction false} FoldPolygonsAppend(b: Bounds, polys: seq<Polygon>, last: Polygon)
    ensures FoldPolygons(b, polys + [last]) == FoldPoints(FoldPolygons(b, polys), last.points)
    decreases |polys|
  {
    if polys == [] {
      assert polys + [last] == [last];
      assert [last][1..] == [];
    } else {
      assert (polys + [last])[1..] == polys[1..] + [last];
      FoldPolygonsAppend(FoldPoints(b, polys[0].points), polys[1..], last);
    }
  }

  lemma AllPointsAppend(polys: seq<Polygon>, last: Polygon)
    ensures AllPoints(polys + [last]) == AllPoints(polys) + last.points
  {
    if polys == [] {
      assert polys + [last] == [last];
      assert [last][1..] == [];
    } else {
      assert (polys + [last])[1..] == polys[1..] + [last];
      AllPointsAppend(polys[1..], last);
    }
  }

  // ---------------------------------------------------------------------
  // parse_cave: the rasteriser
  // ---------------------------------------------------------------------

  /** The cell at column x, row y (puzzle coordinates) is drawn for the pair
      (p, q): a horizontal run when both have the same y, otherwise a
      vertical run in column p.x. */
  predicate OnSegment(p: Point, q: Point, x: int, y: int)
  {
    if p.y == q.y then y == p.y && Min(p.x, q.x) <= x <= Max(p.x, q.x)
    else x == p.x && Min(p.y, q.y) <= y <= Max(p.y, q.y)
  }

  /** The cell is drawn by one of the pairs that start at the first k points. */
  predicate OnPathUpTo(pts: seq<Point>, k: nat, x: int, y: int)
    decreases k
  {
    k > 0 && (OnPathUpTo(pts, k - 1, x, y) || (k < |pts| && OnSegment(pts[k - 1], pts[k], x, y)))
  }

  predicate OnPath(pts: seq<Point>, x: int, y: int)
  {
    OnPathUpTo(pts, |pts|, x, y)
  }

  /** The cell is drawn by one of the first i polygons. */
  predicate RockUpTo(polys: seq<Polygon>, i: nat, x: int, y: int)
    requires i <= |polys|
    decreases i
  {
    i > 0 && (RockUpTo(polys, i - 1, x, y) || OnPath(polys[i - 1].points, x, y))
  }

  predicate Rock(polys: seq<Polygon>, x: int, y: int)
  {
    RockUpTo(polys, |polys|, x, y)
  }

  /** What parse_cave leaves in row `row`, grid column `col`: the entry mark
      at (0, 500 - min), rock on every drawn segment, empty elsewhere. */
  function InitialCell(polys: seq<Polygon>, b: Bounds, row: nat, col: nat): char
  {
    if row == 0 && col + b.min == SAND_ENTRY_X then '+'
    else if RockUpTo(polys, |polys|, col + b.min, row) then '#'
    else '.'
  }

  /** The grid parse_cave builds: height + 1 rows of max - min + 1 columns. */
  function InitialGrid(polys: seq<Polygon>): (g: seq<seq<char>>)
    ensures WellFormed(g)
    ensures |g| == CaveBounds(polys).height + 1
    ensures |g[0]| == CaveBounds(polys).max - CaveBounds(polys).min + 1
  {
    var b := CaveBounds(polys);
    seq(b.height + 1, row requires 0 <= row =>
      seq(b.max - b.min + 1, col requires 0 <= col => InitialCell(polys, b, row, col)))
  }

  /** A snapshot of the cave as rows of cells. */
  function Grid(cave: array2<char>): (g: seq<seq<char>>)
    reads cave
    ensures |g| == cave.Length0
    ensures forall r :: 0 <= r < |g| ==> |g[r]| == cave.Length1
    ensures forall r, c :: 0 <= r < cave.Length0 && 0 <= c < cave.Length1 ==> g[r][c] == cave[r, c]
    ensures 0 < cave.Length0 && 0 < cave.Length1 ==> WellFormed(g)
  {
    seq(cave.Length0, r requires 0 <= r < cave.Length0 reads cave =>
      seq(cave.Length1, c requires 0 <= c < cave.Length1 reads cave => cave[r, c]))
  }

  lemma GridsEqual(g: seq<seq<char>>, h: seq<seq<char>>)
    requires |g| == |h|
    requires forall r :: 0 <= r < |g| ==> |g[r]| == |h[r]|
    requires forall r, c :: 0 <= r < |g| && 0 <= c < |g[r]| ==> g[r][c] == h[r][c]
    ensures g == h
  {
    forall r | 0 <= r < |g| ensures g[r] == h[r] {
    }
  }

  predicate Within(b: Bounds, p: Point)
  {
    b.min <= p.x <= b.max && p.y <= b.height
  }

  predicate Sized(cave: array2<char>, b: Bounds)
  {
    b.min <= b.max && cave.Length0 == b.height + 1 && cave.Length1 == b.max - b.min + 1
  }

  /** The body of the loop over one consecutive pair of points. */
  method DrawSegment(cave: array2<char>, b: Bounds, p: Point, q: Point)
    requires Sized(cave, b) && Within(b, p) && Within(b, q)
    modifies cave
    ensures forall r, c :: 0 <= r < cave.Length0 && 0 <= c < cave.Length1 ==>
      cave[r, c] == if OnSegment(p, q, c + b.min, r) then '#' else old(cave[r, c])
  {
    if p.y == q.y {
      var lo, hi := Min(p.x, q.x), Max(p.x, q.x);
      for x := lo to hi + 1
        invariant forall r, c :: 0 <= r < cave.Length0 && 0 <= c < cave.Length1 ==>
          cave[r, c] == if r == p.y && lo <= c + b.min < x then '#' else old(cave[r, c])
      {
        cave[p.y, x - b.min] := '#';
      }
    } else {
      var lo, hi := Min(p.y, q.y), Max(p.y, q.y);
      for y := lo to hi + 1
        invariant forall r, c :: 0 <= r < cave.Length0 && 0 <= c < cave.Length1 ==>
          cave[r, c] == if c + b.min == p.x && lo <= r < y then '#' else old(cave[r, c])
      {
        cave[y, p.x - b.min] := '#';
      }
    }
  }

  /** The loop over the points of one polygon, drawing each point to the next. */
  method DrawPolygon(cave: array2<char>, b: Bounds, pts: seq<Point>)
    requires Sized(cave, b)
    requires forall p :: p in pts ==> Within(b, p)
    modifies cave
    ensures forall r, c :: 0 <= r < cave.Length0 && 0 <= c < cave.Length1 ==>
      cave[r, c] == if OnPath(pts, c + b.min, r) then '#' else old(cave[r, c])
  {
    for i := 0 to |pts|
      invariant forall r, c :: 0 <= r < cave.Length0 && 0 <= c < cave.Length1 ==>
        cave[r, c] == if OnPathUpTo(pts, i, c + b.min, r) then '#' else old(cave[r, c])
    {
      if i + 1 < |pts| {
        DrawSegment(cave, b, pts[i], pts[i + 1]);
      }
    }
  }

  lemma PolygonWithin(polys: seq<Polygon>, i: nat, b: Bounds)
    requires i < |polys|
    requires forall p :: p in AllPoints(polys) ==> Within(b, p)
    ensures forall p :: p in polys[i].points ==> Within(b, p)
  {
    if i > 0 {
      PolygonWithin(polys[1..], i - 1, b);
      assert polys[1..][i - 1] == polys[i];
    }
  }

  /** The loop of parse_cave over the polygons. */
  method DrawPolygons(cave: array2<char>, b: Bounds, polys: seq<Polygon>)
    requires Sized(cave, b)
    requires forall p :: p in AllPoints(polys) ==> Within(b, p)
    requires forall r, c :: 0 <= r < cave.Length0 && 0 <= c < cave.Length1 ==> cave[r, c] == '.'
    modifies cave
    ensures forall r, c :: 0 <= r < cave.Length0 && 0 <= c < cave.Length1 ==>
      cave[r, c] == if Rock(polys, c + b.min, r) then '#' else '.'
  {
    for i := 0 to |polys|
      invariant forall r, c :: 0 <= r < cave.Length0 && 0 <= c < cave.Length1 ==>
        cave[r, c] == if RockUpTo(polys, i, c + b.min, r) then '#' else '.'
    {
      PolygonWithin(polys, i, b);
      DrawPolygon(cave, b, polys[i].points);
    }
  }

  /** parse_cave: every cell on a drawn segment is rock, the entry cell is
      '+', everything else is empty. */
  method ParseCave(polys: seq<Polygon>) returns (cave: array2<char>)
    ensures fresh(cave)
    ensures Grid(cave) == InitialGrid(polys)
  {
    var b := CaveBounds(polys);
    cave := new char[b.height + 1, b.max - b.min + 1]((r, c) => '.');
    DrawPolygons(cave, b, polys);
    label drawn:
    cave[0, SAND_ENTRY_X - b.min] := '+';
    forall r, c | 0 <= r < cave.Length0 && 0 <= c < cave.Length1
      ensures cave[r, c] == InitialCell(polys, b, r, c)
    {
      if r != 0 || c != SAND_ENTRY_X - b.min {
        assert cave[r, c] == old@drawn(cave[r, c]);
        InitialCellAway(polys, b, r, c);
      }
    }
    InitialGridOf(cave, polys);
  }

  lemma InitialCellAway(polys: seq<Polygon>, b: Bounds, r: nat, c: nat)
    requires !(r == 0 && c + b.min == SAND_ENTRY_X)
    ensures InitialCell(polys, b, r, c) == if Rock(polys, c + b.min, r) then '#' else '.'
  {
  }

  lemma InitialGridCells(polys: seq<Polygon>)
    ensures forall r, c :: 0 <= r < |InitialGrid(polys)| && 0 <= c < |InitialGrid(polys)[r]| ==>
      InitialGrid(polys)[r][c] == InitialCell(polys, CaveBounds(polys), r, c)
  {
  }

  lemma InitialGridOf(cave: array2<char>, polys: seq<Polygon>)
    requires Sized(cave, CaveBounds(polys))
    requires forall r, c :: 0 <= r < cave.Length0 && 0 <= c < cave.Length1 ==>
      cave[r, c] == InitialCell(polys, CaveBounds(polys), r, c)
    ensures Grid(cave) == InitialGrid(polys)
  {
    InitialGridCells(polys);
    GridsEqual(Grid(cave), InitialGrid(polys));
  }

  // ---------------------------------------------------------------------
  // One grain: Sand::try_fall and Sand::fall
  // ---------------------------------------------------------------------

  /** Rows of equal, non-zero length, at least one of them. */
  predicate WellFormed(g: seq<seq<char>>)
  {
    |g| >= 1 && |g[0]| >= 1 && forall r :: 0 <= r < |g| ==> |g[r]| == |g[0]|
  }

  predicate InGrid(g: seq<seq<char>>, p: Point)
    requires WellFormed(g)
  {
    p.y < |g| && p.x < |g[0]|
  }

  datatype Direction = Left | Right | Down

  /** What try_fall reports: Ok(true), Ok(false) or Err(OutOfBounds). */
  datatype Attempt = Moved | Blocked | OffGrid

  /** What fall reports: Ok(Falling), Ok(Resting) or Err(OutOfBounds). */
  datatype SandState = Falling | Resting | OutOfBounds

  /** try_fall from `p`: the target is always one row down (and one column
      aside for Left and Right); leaving the grid is an error, and the grain
      moves only into an empty cell. */
  function TryFallAt(g: seq<seq<char>>, p: Point, d: Direction): (r: (Attempt, Point))
    requires WellFormed(g) && InGrid(g, p)
    ensures r.0 == OffGrid <==>
      p.y + 1 > |g| - 1 || (d == Left && p.x == 0) || (d == Right && p.x + 1 > |g[0]| - 1)
    ensures r.0 != Moved ==> r.1 == p
    ensures r.0 != OffGrid ==>
      var tx := match d case Down => p.x case Left => p.x - 1 case Right => p.x + 1;
      0 <= tx < |g[0]| && p.y + 1 < |g| &&
      (r.0 == Moved <==> g[p.y + 1][tx] == '.') &&
      (r.0 == Moved ==> r.1 == Point(tx, p.y + 1))
  {
    var y := p.y + 1;
    if y > |g| - 1 then (OffGrid, p)
    else
      match d
      case Left =>
        if p.x == 0 then (OffGrid, p)
        else if g[y][p.x - 1] == '.' then (Moved, Point(p.x - 1, y))
        else (Blocked, p)
      case Right =>
        if p.x + 1 > |g[0]| - 1 then (OffGrid, p)
        else if g[y][p.x + 1] == '.' then (Moved, Point(p.x + 1, y))
        else (Blocked, p)
      case Down =>
        if g[y][p.x] == '.' then (Moved, Point(p.x, y))
        else (Blocked, p)
  }

  /** fall from `p`: Down, then Left, then Right, the first move that
      succeeds wins; an OutOfBounds from an earlier direction ends the attempt
      before the later ones are tried. */
  function FallAt(g: seq<seq<char>>, p: Point): (r: (SandState, Point))
    requires WellFormed(g) && InGrid(g, p)
    ensures r.0 == Falling ==> InGrid(g, r.1)
  {
    var down := TryFallAt(g, p, Down);
    if down.0 == OffGrid then (OutOfBounds, p)
    else if down.0 == Moved then (Falling, down.1)
    else
      var left := TryFallAt(g, p, Left);
      if left.0 == OffGrid then (OutOfBounds, p)
      else if left.0 == Moved then (Falling, left.1)
      else
        var right := TryFallAt(g, p, Right);
        if right.0 == OffGrid then (OutOfBounds, p)
        else if right.0 == Moved then (Falling, right.1)
        else (Resting, p)
  }

  /** Sand: a grain whose position try_fall and fall update in place. */
  /** A fall goes one row down into air: straight down if it can, else
      down-left, else down-right; it rests exactly when all three cells below
      are blocked, and is out of bounds at the bottom row or when the side
      it would try next is off the grid. */
  lemma FallAtCases(g: seq<seq<char>>, p: Point)
    requires WellFormed(g) && InGrid(g, p)
    ensures var r := FallAt(g, p);
      (r.0 != Falling ==> r.1 == p) &&
      (r.0 == Falling ==>
        r.1.y == p.y + 1 && g[r.1.y][r.1.x] == '.' && p.x - 1 <= r.1.x <= p.x + 1) &&
      (r.0 == Falling && r.1.x != p.x ==> g[p.y + 1][p.x] != '.') &&
      (r.0 == Falling && r.1.x == p.x + 1 ==> 0 < p.x && g[p.y + 1][p.x - 1] != '.') &&
      (r.0 == Resting <==>
        p.y + 1 < |g| && 0 < p.x && p.x + 1 < |g[0]| &&
        g[p.y + 1][p.x - 1] != '.' && g[p.y + 1][p.x] != '.' && g[p.y + 1][p.x + 1] != '.') &&
      (r.0 == OutOfBounds <==>
        p.y + 1 >= |g| ||
        (g[p.y + 1][p.x] != '.' && (p.x == 0 || (g[p.y + 1][p.x - 1] != '.' && p.x + 1 >= |g[0]|))))
  {
  }

  class Sand {
    var position: Point

    constructor (start: Point)
      ensures position == start
    {
      position := start;
    }

    method TryFall(cave: array2<char>, direction: Direction) returns (a: Attempt)
      requires position.y < cave.Length0 && position.x < cave.Length1
      modifies this
      ensures (a, position) == TryFallAt(Grid(cave), old(position), direction)
    {
      var next := position;
      next := next.(y := position.y + 1);
      if next.y > cave.Length0 - 1 {
        return OffGrid;
      }
      match direction
      case Left =>
        if position.x == 0 {
          return OffGrid;
        }
        next := next.(x := position.x - 1);
        if cave[next.y, next.x] == '.' {
          position := next;
          return Moved;
        }
        return Blocked;
      case Right =>
        next := next.(x := position.x + 1);
        if next.x > cave.Length1 - 1 {
          return OffGrid;
        }
        if cave[next.y, next.x] == '.' {
          position := next;
          return Moved;
        }
        return Blocked;
      case Down =>
        if cave[next.y, next.x] == '.' {
          position := next;
          return Moved;
        }
        return Blocked;
    }

    method Fall(cave: array2<char>) returns (s: SandState)
      requires position.y < cave.Length0 && position.x < cave.Length1
      modifies this
      ensures (s, position) == FallAt(Grid(cave), old(position))
    {
      var a := TryFall(cave, Down);
      if a == OffGrid {
        return OutOfBounds;
      } else if a == Moved {
        return Falling;
      }
      a := TryFall(cave, Left);
      if a == OffGrid {
        return OutOfBounds;
      } else if a == Moved {
        return Falling;
      }
      a := TryFall(cave, Right);
      if a == OffGrid {
        return OutOfBounds;
      } else if a == Moved {
        return Falling;
      }
      return Resting;
    }
  }

  // ---------------------------------------------------------------------
  // The outer loop: fall_sand
  // ---------------------------------------------------------------------

  /** How the inner loop of fall_sand ends for one grain. */
  datatype GrainEnd = Rested(at: Point) | Escaped | TooManyIterations

  /** The inner loop of fall_sand from `p` after `iterations` falling steps:
      a step that falls counts one iteration, and more than MAX_ITERATIONS of
      them is fatal. */
  function DropFrom(g: seq<seq<char>>, p: Point, iterations: nat): (r: GrainEnd)
    requires WellFormed(g) && InGrid(g, p) && iterations <= MAX_ITERATIONS
    decreases MAX_ITERATIONS - iterations
  {
    var step := FallAt(g, p);
    match step.0
    case OutOfBounds => Escaped
    case Resting => Rested(p)
    case Falling =>
      if iterations + 1 > MAX_ITERATIONS then TooManyIterations
      else DropFrom(g, step.1, iterations + 1)
  }

  /** A grain comes to rest where it was placed or in a cell that was empty,
      with all three cells below it blocked. */
  lemma {:induction false} DropFromRests(g: seq<seq<char>>, p: Point, iterations: nat)
    requires WellFormed(g) && InGrid(g, p) && iterations <= MAX_ITERATIONS
    ensures DropFrom(g, p, iterations).Rested? ==>
      var q := DropFrom(g, p, iterations).at;
      InGrid(g, q) && (q == p || g[q.y][q.x] == '.') && FallAt(g, q).0 == Resting
    decreases MAX_ITERATIONS - iterations
  {
    var step := FallAt(g, p);
    if step.0 == Falling && iterations + 1 <= MAX_ITERATIONS {
      DropFromRests(g, step.1, iterations + 1);
    }
  }

  function Mark(g: seq<seq<char>>, q: Point): (h: seq<seq<char>>)
    requires WellFormed(g) && InGrid(g, q)
    ensures WellFormed(h) && |h| == |g| && |h[0]| == |g[0]|
  {
    g[q.y := g[q.y][q.x := 'o']]
  }

  /** Number of cells holding `ch`. */
  function Count(g: seq<seq<char>>, ch: char): nat
  {
    if g == [] then 0 else multiset(g[0])[ch] + Count(g[1..], ch)
  }

  lemma {:induction false} CountUpdate(g: seq<seq<char>>, i: nat, row: seq<char>, ch: char)
    requires i < |g|
    ensures Count(g[i := row], ch) + multiset(g[i])[ch] == Count(g, ch) + multiset(row)[ch]
    decreases i
  {
    if i > 0 {
      assert g[i := row][1..] == g[1..][i - 1 := row];
      CountUpdate(g[1..], i - 1, row, ch);
    } else {
      assert g[i := row][1..] == g[1..];
    }
  }

  /** Marking a cell 'o' changes each character's count by the cell it replaces. */
  lemma MarkCount(g: seq<seq<char>>, q: Point, ch: char)
    requires WellFormed(g) && InGrid(g, q)
    ensures Count(Mark(g, q), ch) + (if g[q.y][q.x] == ch then 1 else 0) ==
            Count(g, ch) + (if ch == 'o' then 1 else 0)
  {
    var row := g[q.y][q.x := 'o'];
    CountUpdate(g, q.y, row, ch);
    assert multiset(row) == multiset(g[q.y]) - multiset{g[q.y][q.x]} + multiset{'o'};
  }

  /** What drives the outer loop to its end: empty cells plus the entry mark. */
  function Remaining(g: seq<seq<char>>, entry: nat): nat
    requires WellFormed(g) && entry < |g[0]|
  {
    Count(g, '.') + (if g[0][entry] == '+' then 1 else 0)
  }

  lemma MarkShrinks(g: seq<seq<char>>, entry: nat, q: Point)
    requires WellFormed(g) && entry < |g[0]| && InGrid(g, q) && g[0][entry] == '+'
    requires q == Point(entry, 0) || g[q.y][q.x] == '.'
    ensures Remaining(Mark(g, q), entry) < Remaining(g, entry)
  {
    MarkCount(g, q, '.');
  }

  /** `h` is `g` with sand poured in: the same shape, and every cell that
      differs was empty or the entry mark and now holds sand. Rock is never
      overwritten. */
  predicate Poured(g: seq<seq<char>>, h: seq<seq<char>>)
  {
    |h| == |g| && (forall r :: 0 <= r < |g| ==> |h[r]| == |g[r]|) &&
    forall r, c :: 0 <= r < |g| && 0 <= c < |g[r]| && h[r][c] != g[r][c] ==>
      h[r][c] == 'o' && (g[r][c] == '.' || g[r][c] == '+')
  }

  lemma PouredMark(g: seq<seq<char>>, q: Point)
    requires WellFormed(g) && InGrid(g, q)
    requires g[q.y][q.x] == '.' || g[q.y][q.x] == '+'
    ensures Poured(g, Mark(g, q))
  {
  }

  lemma PouredTrans(g1: seq<seq<char>>, g2: seq<seq<char>>, g3: seq<seq<char>>)
    requires Poured(g1, g2) && Poured(g2, g3)
    ensures Poured(g1, g3)
  {
    forall r, c | 0 <= r < |g1| && 0 <= c < |g1[r]| && g3[r][c] != g1[r][c]
      ensures g3[r][c] == 'o' && (g1[r][c] == '.' || g1[r][c] == '+')
    {
      if g2[r][c] != g1[r][c] {
        assert g3[r][c] == g2[r][c];
      }
    }
  }

  /** fall_sand's outer loop on a grid: stop once the entry cell is no longer
      '+'; otherwise drop a grain from the entry; an escaping grain ends the
      run without changing the grid, a resting grain becomes 'o'. A finished
      run has only poured sand into the grid, and it stopped because the
      entry is covered or because the next grain would leave the grid. */
  function Simulate(g: seq<seq<char>>, entry: nat): (r: Result<seq<seq<char>>>)
    requires WellFormed(g) && entry < |g[0]|
    ensures r.Ok? ==> WellFormed(r.value) && Poured(g, r.value)
    ensures r.Ok? ==> |r.value[0]| == |g[0]|
    ensures r.Ok? ==> r.value[0][entry] != '+' || DropFrom(r.value, Point(entry, 0), 0) == Escaped
    decreases Remaining(g, entry)
  {
    if g[0][entry] != '+' then Ok(g)
    else
      match DropFrom(g, Point(entry, 0), 0)
      case Escaped => Ok(g)
      case TooManyIterations => Err("too many iterations")
      case Rested(q) =>
        DropFromRests(g, Point(entry, 0), 0);
        MarkShrinks(g, entry, q);
        PouredMark(g, q);
        var r := Simulate(Mark(g, q), entry);
        if r.Ok? then PouredTrans(g, Mark(g, q), r.value); r else r
  }

  /** Each resting grain adds exactly one 'o' to count_sand. */
  lemma MarkAddsOneGrain(g: seq<seq<char>>, q: Point)
    requires WellFormed(g) && InGrid(g, q) && g[q.y][q.x] != 'o'
    ensures CountSand(Mark(g, q)) == CountSand(g) + 1
  {
    MarkCount(g, q, 'o');
  }

  /** Pouring never removes sand. */
  lemma {:induction false} SimulateKeepsSand(g: seq<seq<char>>, entry: nat)
    requires WellFormed(g) && entry < |g[0]|
    requires Simulate(g, entry).Ok?
    ensures CountSand(Simulate(g, entry).value) >= CountSand(g)
    decreases Remaining(g, entry)
  {
    if g[0][entry] == '+' {
      match DropFrom(g, Point(entry, 0), 0)
      case Escaped =>
      case TooManyIterations =>
      case Rested(q) =>
        DropFromRests(g, Point(entry, 0), 0);
        MarkShrinks(g, entry, q);
        MarkAddsOneGrain(g, q);
        SimulateKeepsSand(Mark(g, q), entry);
    }
  }

  // The bedrock run never loses a grain.

  function LastRow(g: seq<seq<char>>): seq<char>
    requires |g| >= 1
  {
    g[|g| - 1]
  }

  /** The floor in grid terms: the last row is rock in every column within
      its row number of the entry column. */
  predicate FloorBelow(g: seq<seq<char>>, entry: nat)
    requires WellFormed(g)
  {
    |g| - 1 <= entry && entry + |g| - 1 < |g[0]| &&
    forall c :: entry - (|g| - 1) <= c <= entry + (|g| - 1) ==> LastRow(g)[c] == '#'
  }

  /** Where a grain from the entry can be: above the floor, and no further
      from the entry column than it has fallen. */
  predicate InCone(g: seq<seq<char>>, entry: nat, p: Point)
  {
    p.y + 1 < |g| && entry - p.y <= p.x <= entry + p.y
  }

  lemma FallInCone(g: seq<seq<char>>, entry: nat, p: Point)
    requires WellFormed(g) && FloorBelow(g, entry) && InCone(g, entry, p)
    ensures FallAt(g, p).0 != OutOfBounds
    ensures FallAt(g, p).0 == Falling ==> InCone(g, entry, FallAt(g, p).1)
  {
    var next := FallAt(g, p);
    if next.0 == Falling {
      var floor := |g| - 1;
      assert entry - floor <= next.1.x <= entry + floor;
      assert LastRow(g)[next.1.x] == '#';
    }
  }

  lemma {:induction false} DropInCone(g: seq<seq<char>>, entry: nat, p: Point, iterations: nat)
    requires WellFormed(g) && FloorBelow(g, entry) && InCone(g, entry, p)
    requires iterations <= MAX_ITERATIONS
    ensures DropFrom(g, p, iterations) != Escaped
    ensures DropFrom(g, p, iterations).Rested? ==> InCone(g, entry, DropFrom(g, p, iterations).at)
    decreases MAX_ITERATIONS - iterations
  {
    FallInCone(g, entry, p);
    var step := FallAt(g, p);
    if step.0 == Falling && iterations + 1 <= MAX_ITERATIONS {
      DropInCone(g, entry, step.1, iterations + 1);
    }
  }

  /** With a floor under the whole cone below the entry, a run ends only when
      the entry cell is covered (or a grain falls too long). */
  lemma {:induction false} FloorStopsAtEntry(g: seq<seq<char>>, entry: nat)
    requires WellFormed(g) && entry < |g[0]| && |g| >= 2 && FloorBelow(g, entry)
    requires Simulate(g, entry).Ok?
    ensures Simulate(g, entry).value[0][entry] != '+'
    decreases Remaining(g, entry)
  {
    if g[0][entry] == '+' {
      DropInCone(g, entry, Point(entry, 0), 0);
      match DropFrom(g, Point(entry, 0), 0)
      case TooManyIterations =>
      case Rested(q) =>
        DropFromRests(g, Point(entry, 0), 0);
        MarkShrinks(g, entry, q);
        assert LastRow(Mark(g, q)) == LastRow(g);
        FloorStopsAtEntry(Mark(g, q), entry);
    }
  }

  /** The floor the bedrock run adds two rows below the lowest rock, wide
      enough that no grain can pass its ends. */
  function FloorPolygon(height: nat): Polygon
    requires height + 2 <= SAND_ENTRY_X
  {
    Polygon([Point(SAND_ENTRY_X - height - 2, height + 2), Point(SAND_ENTRY_X + height + 2, height + 2)])
  }

  /** The polygons fall_sand rasterises: the parsed ones, plus the floor in
      the bedrock run. The floor's left end 500 - height - 2 is a usize
      subtraction that fails below zero. */
  function CavePolygons(input: string, bedrock: bool): Result<seq<Polygon>>
  {
    var polys := ParsePolygons(input);
    var height := CaveBounds(polys).height;
    if !bedrock then Ok(polys)
    else if height + 2 > SAND_ENTRY_X then Err("attempt to subtract with overflow")
    else Ok(polys + [FloorPolygon(height)])
  }

  /** The grid fall_sand returns for `input`. */
  function SandOutcome(input: string, bedrock: bool): Result<seq<seq<char>>>
  {
    match CavePolygons(input, bedrock)
    case Err(msg) => Err(msg)
    case Ok(polys) => SandRun(polys)
  }

  function SandRun(polys: seq<Polygon>): Result<seq<seq<char>>>
  {
    Simulate(InitialGrid(polys), SAND_ENTRY_X - CaveBounds(polys).min)
  }

  /** count_sand: the cells holding sand. */
  function CountSand(g: seq<seq<char>>): nat
  {
    Count(g, 'o')
  }

  lemma FoldPointsPair(b: Bounds, p: Point, q: Point)
    ensures FoldPoints(b, [p, q]) == Bounds(Min(q.x, Min(p.x, b.min)), Max(q.x, Max(p.x, b.max)), Max(q.y, Max(p.y, b.height)))
  {
    assert [p, q][1..] == [q];
    assert [q][1..] == [];
  }

  lemma FloorIsRock(polys: seq<Polygon>, height: nat, x: int)
    requires |polys| >= 1 && height + 2 <= SAND_ENTRY_X
    requires polys[|polys| - 1] == FloorPolygon(height)
    requires SAND_ENTRY_X - height - 2 <= x <= SAND_ENTRY_X + height + 2
    ensures Rock(polys, x, height + 2)
  {
    var pts := FloorPolygon(height).points;
    assert OnSegment(pts[0], pts[1], x, height + 2);
    assert OnPathUpTo(pts, 1, x, height + 2);
    assert OnPathUpTo(pts, 2, x, height + 2);
  }

  /** Adding the floor makes the cave two rows deeper than the rock and
      wide enough to hold both ends of the floor. */
  lemma FloorBounds(base: seq<Polygon>, polys: seq<Polygon>)
    requires CaveBounds(base).height + 2 <= SAND_ENTRY_X
    requires polys == base + [FloorPolygon(CaveBounds(base).height)]
    ensures CaveBounds(polys).height == CaveBounds(base).height + 2
    ensures CaveBounds(polys).min <= SAND_ENTRY_X - CaveBounds(base).height - 2
    ensures CaveBounds(polys).max >= SAND_ENTRY_X + CaveBounds(base).height + 2
  {
    CaveBoundsAppend(base, FloorPolygon(CaveBounds(base).height));
    FloorFold(CaveBounds(base));
  }

  lemma FloorFold(b: Bounds)
    requires b.min <= SAND_ENTRY_X <= b.max && b.height + 2 <= SAND_ENTRY_X
    ensures FoldPoints(b, FloorPolygon(b.height).points).height == b.height + 2
    ensures FoldPoints(b, FloorPolygon(b.height).points).min <= SAND_ENTRY_X - b.height - 2
    ensures FoldPoints(b, FloorPolygon(b.height).points).max >= SAND_ENTRY_X + b.height + 2
  {
    var p, q := Point(SAND_ENTRY_X - b.height - 2, b.height + 2), Point(SAND_ENTRY_X + b.height + 2, b.height + 2);
    assert FloorPolygon(b.height).points == [p, q];
    FoldPointsPair(b, p, q);
  }

  lemma CaveBoundsAppend(base: seq<Polygon>, last: Polygon)
    ensures CaveBounds(base + [last]) == FoldPoints(CaveBounds(base), last.points)
  {
    FoldPolygonsAppend(Bounds(SAND_ENTRY_X, SAND_ENTRY_X, 0), base, last);
  }

  lemma InitialGridCell(polys: seq<Polygon>, r: nat, c: nat)
    requires r < |InitialGrid(polys)| && c < |InitialGrid(polys)[0]|
    ensures InitialGrid(polys)[r][c] == InitialCell(polys, CaveBounds(polys), r, c)
  {
  }

  /** The bedrock cave is two rows deeper than the rock, and its last row is
      rock under the whole cone below the entry. */
  lemma BedrockFloor(base: seq<Polygon>, polys: seq<Polygon>)
    requires CaveBounds(base).height + 2 <= SAND_ENTRY_X
    requires polys == base + [FloorPolygon(CaveBounds(base).height)]
    ensures |InitialGrid(polys)| == CaveBounds(base).height + 3
    ensures SAND_ENTRY_X - CaveBounds(polys).min < |InitialGrid(polys)[0]|
    ensures FloorBelow(InitialGrid(polys), SAND_ENTRY_X - CaveBounds(polys).min)
  {
    var h := CaveBounds(base).height;
    FloorBounds(base, polys);
    var b := CaveBounds(polys);
    var g := InitialGrid(polys);
    var e := SAND_ENTRY_X - b.min;
    assert polys[|polys| - 1] == FloorPolygon(h);
    forall c | e - (h + 2) <= c <= e + (h + 2)
      ensures LastRow(g)[c] == '#'
    {
      FloorCell(polys, h, c);
    }
  }

  lemma FloorCell(polys: seq<Polygon>, h: nat, c: nat)
    requires |polys| >= 1 && h + 2 <= SAND_ENTRY_X
    requires polys[|polys| - 1] == FloorPolygon(h)
    requires |InitialGrid(polys)| == h + 3 && c < |InitialGrid(polys)[0]|
    requires SAND_ENTRY_X - h - 2 <= c + CaveBounds(polys).min <= SAND_ENTRY_X + h + 2
    ensures LastRow(InitialGrid(polys))[c] == '#'
  {
    FloorCellIsRock(polys, h, c, CaveBounds(polys));
    InitialGridCell(polys, h + 2, c);
  }

  lemma FloorCellIsRock(polys: seq<Polygon>, h: nat, c: nat, b: Bounds)
    requires |polys| >= 1 && h + 2 <= SAND_ENTRY_X
    requires polys[|polys| - 1] == FloorPolygon(h)
    requires SAND_ENTRY_X - h - 2 <= c + b.min <= SAND_ENTRY_X + h + 2
    ensures InitialCell(polys, b, h + 2, c) == '#'
  {
    FloorIsRock(polys, h, c + b.min);
    InitialCellAway(polys, b, h + 2, c);
  }

  lemma SandOutcomeOf(input: string, bedrock: bool, polys: seq<Polygon>)
    requires CavePolygons(input, bedrock) == Ok(polys)
    ensures SandOutcome(input, bedrock) == SandRun(polys)
  {
  }

  lemma BedrockPolygons(input: string, polys: seq<Polygon>)
    requires CavePolygons(input, true) == Ok(polys)
    ensures CaveBounds(ParsePolygons(input)).height + 2 <= SAND_ENTRY_X
    ensures polys == ParsePolygons(input) + [FloorPolygon(CaveBounds(ParsePolygons(input)).height)]
  {
  }

  lemma BedrockRunCoversEntry(base: seq<Polygon>, polys: seq<Polygon>)
    requires CaveBounds(base).height + 2 <= SAND_ENTRY_X
    requires polys == base + [FloorPolygon(CaveBounds(base).height)]
    requires SandRun(polys).Ok?
    ensures WellFormed(SandRun(polys).value)
    ensures SAND_ENTRY_X - CaveBounds(polys).min < |SandRun(polys).value[0]|
    ensures SandRun(polys).value[0][SAND_ENTRY_X - CaveBounds(polys).min] == 'o'
  {
    var g := InitialGrid(polys);
    var e := SAND_ENTRY_X - CaveBounds(polys).min;
    BedrockFloor(base, polys);
    FloorStopsAtEntry(g, e);
    InitialGridCell(polys, 0, e);
    var h := Simulate(g, e).value;
    assert h[0][e] != g[0][e];
  }

  /** In the bedrock run every finished pour ends with sand on the entry
      cell: no grain leaves the cave. */
  lemma BedrockCoversEntry(input: string, polys: seq<Polygon>)
    requires CavePolygons(input, true) == Ok(polys)
    requires SandOutcome(input, true).Ok?
    ensures WellFormed(SandOutcome(input, true).value)
    ensures SAND_ENTRY_X - CaveBounds(polys).min < |SandOutcome(input, true).value[0]|
    ensures SandOutcome(input, true).value[0][SAND_ENTRY_X - CaveBounds(polys).min] == 'o'
  {
    SandOutcomeOf(input, true, polys);
    BedrockPolygons(input, polys);
    BedrockRunCoversEntry(ParsePolygons(input), polys);
  }

  /** One falling step of the inner loop, unfolded. */
  lemma DropStep(g: seq<seq<char>>, p: Point, iterations: nat)
    requires WellFormed(g) && InGrid(g, p) && iterations <= MAX_ITERATIONS
    ensures FallAt(g, p).0 == Resting ==> DropFrom(g, p, iterations) == Rested(p)
    ensures FallAt(g, p).0 == OutOfBounds ==> DropFrom(g, p, iterations) == Escaped
    ensures FallAt(g, p).0 == Falling && iterations + 1 > MAX_ITERATIONS ==>
      DropFrom(g, p, iterations) == TooManyIterations
    ensures FallAt(g, p).0 == Falling && iterations + 1 <= MAX_ITERATIONS ==>
      InGrid(g, FallAt(g, p).1) && DropFrom(g, p, iterations) == DropFrom(g, FallAt(g, p).1, iterations + 1)
  {
  }

  /** The inner loop's state: a grain at `p` after `iterations` falling
      steps ends as the grain dropped from the entry does. */
  predicate Dropping(g: seq<seq<char>>, entry: nat, p: Point, iterations: nat)
  {
    WellFormed(g) && entry < |g[0]| && InGrid(g, p) && iterations <= MAX_ITERATIONS &&
    DropFrom(g, p, iterations) == DropFrom(g, Point(entry, 0), 0)
  }

  /** One pass of the inner loop of fall_sand: the grain falls once, and the
      loop is done when it rests, leaves the grid or has fallen too long. */
  method FallOnce(sand: Sand, cave: array2<char>, entry: nat, iterations: nat, ghost g: seq<seq<char>>)
      returns (done: bool, end: GrainEnd)
    requires g == Grid(cave) && Dropping(g, entry, sand.position, iterations)
    modifies sand
    ensures done ==> end == DropFrom(g, Point(entry, 0), 0)
    ensures !done ==> Dropping(g, entry, sand.position, iterations + 1)
  {
    ghost var p := sand.position;
    var state := sand.Fall(cave);
    DropStep(g, p, iterations);
    if state == Resting {
      return true, Rested(sand.position);
    } else if state == OutOfBounds {
      return true, Escaped;
    }
    if iterations + 1 > MAX_ITERATIONS {
      return true, TooManyIterations;
    }
    return false, Escaped;
  }

  /** The inner loop of fall_sand: a new grain at the entry falls until it
      rests, leaves the grid or exceeds the iteration limit. */
  method DropGrain(cave: array2<char>, entry: nat) returns (end: GrainEnd)
    requires 0 < cave.Length0 && entry < cave.Length1
    ensures end == DropFrom(Grid(cave), Point(entry, 0), 0)
  {
    ghost var g := Grid(cave);
    var sand := new Sand(Point(entry, 0));
    var iterations: nat := 0;
    while true
      invariant Grid(cave) == g && Dropping(g, entry, sand.position, iterations)
      decreases MAX_ITERATIONS - iterations
    {
      var done, e := FallOnce(sand, cave, entry, iterations, g);
      if done {
        return e;
      }
      iterations := iterations + 1;
    }
  }

  /** Writes a resting grain into the cave. */
  method Settle(cave: array2<char>, q: Point)
    requires q.y < cave.Length0 && q.x < cave.Length1
    modifies cave
    ensures Grid(cave) == Mark(old(Grid(cave)), q)
  {
    ghost var g := Grid(cave);
    cave[q.y, q.x] := 'o';
    GridsEqual(Grid(cave), Mark(g, q));
  }

  /** The outer loop of fall_sand: grains are dropped until the entry cell is
      covered or a grain leaves the grid; false when a grain falls too long. */
  method PourSand(cave: array2<char>, entry: nat) returns (ok: bool)
    requires 0 < cave.Length0 && entry < cave.Length1
    modifies cave
    ensures ok <==> Simulate(old(Grid(cave)), entry).Ok?
    ensures ok ==> Grid(cave) == Simulate(old(Grid(cave)), entry).value
  {
    while true
      invariant Simulate(Grid(cave), entry) == Simulate(old(Grid(cave)), entry)
      decreases Remaining(Grid(cave), entry)
    {
      if cave[0, entry] != '+' {
        return true;
      }
      var end := DropGrain(cave, entry);
      match end
      case Escaped =>
        return true;
      case TooManyIterations =>
        return false;
      case Rested(q) =>
        DropFromRests(Grid(cave), Point(entry, 0), 0);
        MarkShrinks(Grid(cave), entry, q);
        Settle(cave, q);
    }
  }

  /** The start of fall_sand: the parsed polygons, with the floor added in
      the bedrock run. */
  method BuildPolygons(input: string, bedrock: bool) returns (r: Result<seq<Polygon>>)
    ensures r == CavePolygons(input, bedrock)
  {
    var polygons := ParsePolygons(input);
    if bedrock {
      var height := CaveBounds(polygons).height;
      if height + 2 > SAND_ENTRY_X {
        return Err("attempt to subtract with overflow");
      }
      polygons := polygons + [FloorPolygon(height)];
    }
    return Ok(polygons);
  }

  /** The rest of fall_sand once the polygons are known: rasterise them and
      pour sand from the entry column. */
  method RunCave(polygons: seq<Polygon>) returns (r: Result<array2<char>>)
    ensures r.Ok? <==> SandRun(polygons).Ok?
    ensures r.Ok? ==> fresh(r.value) && Grid(r.value) == SandRun(polygons).value
  {
    var min := CaveBounds(polygons).min;
    var cave := ParseCave(polygons);
    var ok := PourSand(cave, SAND_ENTRY_X - min);
    if !ok {
      return Err("too many iterations");
    }
    return Ok(cave);
  }

  /** fall_sand: build the polygons, rasterise them and pour sand from the
      entry column. */
  method FallSand(input: string, bedrock: bool) returns (r: Result<array2<char>>)
    ensures r.Ok? <==> SandOutcome(input, bedrock).Ok?
    ensures r.Ok? ==> fresh(r.value) && Grid(r.value) == SandOutcome(input, bedrock).value
  {
    var polygons :- BuildPolygons(input, bedrock);
    SandOutcomeOf(input, bedrock, polygons);
    r := RunCave(polygons);
  }

  /** part1 and part2: the number of resting grains in the open-pit run
      (`bedrock` false) or the bedrock run (`bedrock` true). */
  method CountRestingSand(input: string, bedrock: bool) returns (r: Result<nat>)
    ensures r.Ok? <==> SandOutcome(input, bedrock).Ok?
    ensures r.Ok? ==> r.value == CountSand(SandOutcome(input, bedrock).value)
  {
    var cave := FallSand(input, bedrock);
    if cave.Err? {
      return Err(cave.msg);
    }
    return Ok(CountSand(Grid(cave.value)));
  }
}
