/** Day 15: lines "Sensor at x=.., y=..: closest beacon is at x=.., y=..",
    drawn as a picture of the cave with 'S' for sensors and 'B' for
    beacons. */
module Sensors {
  import opened Wrappers
  import opened Text
  import opened Seqs

  /** Positions are usize values, so they are never negative. */
  datatype Sensor = Sensor(x: nat, y: nat)

  datatype Beacon = Beacon(x: nat, y: nat)

  type Reading = (Sensor, Beacon)

  /** A usize field: nom's digit1 read with `str::parse`. */
  function Field(s: string): Option<(nat, string)>
  {
    NatPrefix(s, U64_LIMIT)
  }

  /** A tag, then a usize field. */
  function TaggedField(s: string, t: string): (r: Option<(nat, string)>)
    ensures r.Some? ==> |r.value.1| < |s|
  {
    match Tag(s, t)
    case None => None
    case Some(a) => Field(a)
  }

  /** Two tagged fields: an "x=" part and a "y=" part. */
  function Coordinates(s: string, tx: string, ty: string): (r: Option<(nat, nat, string)>)
    ensures r.Some? ==> |r.value.2| < |s|
  {
    match TaggedField(s, tx)
    case None => None
    case Some((x, a)) =>
      match TaggedField(a, ty)
      case None => None
      case Some((y, rest)) => Some((x, y, rest))
  }

  /** parse_line: optional white space, then the sentence with four
      unsigned numbers in it. */
  function ParseLine(s: string): (r: Option<(Reading, string)>)
    ensures r.Some? ==> |r.value.1| < |s|
  {
    match Coordinates(SkipMultispace(s), SENSOR_TAG, Y_TAG)
    case None => None
    case Some((sx, sy, a)) =>
      match Coordinates(a, BEACON_TAG, Y_TAG)
      case None => None
      case Some((bx, beaconY, rest)) => Some(((Sensor(sx, sy), Beacon(bx, beaconY)), rest))
  }

  /** `many0(parse_line)`: readings up to the first place where no line
      can be read. */
  function MoreReadings(s: string): seq<Reading>
    decreases |s|
  {
    match ParseLine(s)
    case None => []
    case Some((p, rest)) => [p] + MoreReadings(rest)
  }

  /** `many1(parse_line)`: like many0, but the first line must parse; the
      input left over is dropped. */
  function ParseReadings(s: string): (r: Option<seq<Reading>>)
    ensures r.Some? ==> |r.value| >= 1
  {
    match ParseLine(s)
    case None => None
    case Some((p, rest)) => Some([p] + MoreReadings(rest))
  }

  // The text of readings, used to state that the parser reads it back.

  /** `tx`, the number x, `ty`, the number y, then `rest`. */
  function CoordText(tx: string, ty: string, x: nat, y: nat, rest: string): string
  {
    tx + (NatToString(x) + (ty + (NatToString(y) + rest)))
  }

  const SENSOR_TAG := "Sensor at x="
  const BEACON_TAG := ": closest beacon is at x="
  const Y_TAG := ", y="

  /** The text of a reading, followed by `rest`. */
  function LineText(p: Reading, rest: string): string
  {
    CoordText(SENSOR_TAG, Y_TAG, p.0.x, p.0.y, CoordText(BEACON_TAG, Y_TAG, p.1.x, p.1.y, rest))
  }

  predicate Fits(p: Reading)
  {
    p.0.x < U64_LIMIT && p.0.y < U64_LIMIT && p.1.x < U64_LIMIT && p.1.y < U64_LIMIT
  }

  /** One reading per line. */
  function ReadingsText(ps: seq<Reading>): string
    requires |ps| >= 1
  {
    LineText(ps[0], if |ps| == 1 then "" else "\n" + ReadingsText(ps[1..]))
  }

  /** A tag, then a number, then the rest. */
  lemma TaggedFieldOf(t: string, n: nat, rest: string)
    requires n < U64_LIMIT
    requires rest == [] || !IsDigit(rest[0])
    ensures TaggedField(t + (NatToString(n) + rest), t) == Some((n, rest))
  {
    TagOfPrefix(t, NatToString(n) + rest);
    NatPrefixOfString(n, rest, U64_LIMIT);
  }

  lemma CoordinatesOf(tx: string, ty: string, x: nat, y: nat, rest: string)
    requires x < U64_LIMIT && y < U64_LIMIT
    requires |ty| >= 1 && !IsDigit(ty[0])
    requires rest == [] || !IsDigit(rest[0])
    ensures Coordinates(CoordText(tx, ty, x, y, rest), tx, ty) == Some((x, y, rest))
  {
    TaggedFieldOf(tx, x, ty + (NatToString(y) + rest));
    TaggedFieldOf(ty, y, rest);
  }

  lemma CoordTextStart(tx: string, ty: string, x: nat, y: nat, rest: string)
    requires |tx| >= 1
    ensures |CoordText(tx, ty, x, y, rest)| >= 1 && CoordText(tx, ty, x, y, rest)[0] == tx[0]
  {
  }

  /** The facts about the three tags that parsing relies on. */
  lemma Tags()
    ensures |SENSOR_TAG| >= 1 && SENSOR_TAG[0] == 'S'
    ensures |BEACON_TAG| >= 1 && BEACON_TAG[0] == ':'
    ensures |Y_TAG| >= 1 && Y_TAG[0] == ','
  {
  }

  lemma LineTextSkipped(p: Reading, rest: string)
    ensures SkipMultispace(LineText(p, rest)) == LineText(p, rest)
    ensures SkipMultispace("\n" + LineText(p, rest)) == LineText(p, rest)
  {
    Tags();
    CoordTextStart(SENSOR_TAG, Y_TAG, p.0.x, p.0.y, CoordText(BEACON_TAG, Y_TAG, p.1.x, p.1.y, rest));
  }

  /** parse_line reads back the text of any reading, leaving what follows
      when that does not start with a digit. */
  lemma ParseLineText(p: Reading, rest: string)
    requires Fits(p)
    requires rest == [] || !IsDigit(rest[0])
    ensures ParseLine(LineText(p, rest)) == Some((p, rest))
  {
    LineTextSkipped(p, rest);
    SensorPart(p, rest);
    BeaconPart(p, rest);
  }

  lemma SensorPart(p: Reading, rest: string)
    requires Fits(p)
    ensures Coordinates(LineText(p, rest), SENSOR_TAG, Y_TAG) ==
      Some((p.0.x, p.0.y, CoordText(BEACON_TAG, Y_TAG, p.1.x, p.1.y, rest)))
  {
    Tags();
    CoordTextStart(BEACON_TAG, Y_TAG, p.1.x, p.1.y, rest);
    CoordinatesOf(SENSOR_TAG, Y_TAG, p.0.x, p.0.y, CoordText(BEACON_TAG, Y_TAG, p.1.x, p.1.y, rest));
  }

  lemma BeaconPart(p: Reading, rest: string)
    requires Fits(p)
    requires rest == [] || !IsDigit(rest[0])
    ensures Coordinates(CoordText(BEACON_TAG, Y_TAG, p.1.x, p.1.y, rest), BEACON_TAG, Y_TAG) == Some((p.1.x, p.1.y, rest))
  {
    Tags();
    CoordinatesOf(BEACON_TAG, Y_TAG, p.1.x, p.1.y, rest);
  }

  /** After a reading, a line feed and the next reading: the line feed is
      white space that parse_line skips. */
  lemma {:induction false} MoreReadingsText(ps: seq<Reading>)
    requires |ps| >= 1 && forall p :: p in ps ==> Fits(p)
    ensures MoreReadings("\n" + ReadingsText(ps)) == ps
  {
    if |ps| == 1 {
      FirstReading(ps, "");
      NothingMore();
      ConsTail(ps, []);
    } else {
      var rest := "\n" + ReadingsText(ps[1..]);
      FirstReading(ps, rest);
      MoreReadingsText(ps[1..]);
      ConsTail(ps, ps[1..]);
    }
  }

  lemma FirstReading(ps: seq<Reading>, rest: string)
    requires |ps| >= 1 && Fits(ps[0])
    requires rest == (if |ps| == 1 then "" else "\n" + ReadingsText(ps[1..]))
    ensures ParseLine(ReadingsText(ps)) == Some((ps[0], rest))
    ensures ParseLine("\n" + ReadingsText(ps)) == Some((ps[0], rest))
  {
    LineTextSkipped(ps[0], rest);
    ParseLineText(ps[0], rest);
  }

  lemma NothingMore()
    ensures MoreReadings("") == []
  {
    assert SkipMultispace("") == "";
    Tags();
  }

  /** The parser reads back the text of one or more readings. */
  lemma ParseReadingsText(ps: seq<Reading>)
    requires |ps| >= 1 && forall p :: p in ps ==> Fits(p)
    ensures ParseReadings(ReadingsText(ps)) == Some(ps)
  {
    if |ps| == 1 {
      FirstReading(ps, "");
      NothingMore();
      ConsTail(ps, []);
    } else {
      FirstReading(ps, "\n" + ReadingsText(ps[1..]));
      MoreReadingsText(ps[1..]);
      ConsTail(ps, ps[1..]);
    }
  }

  /** A negative coordinate has a '-' where digit1 needs a digit, so the
      line does not parse; with many1, neither does an input starting with
      such a line. The first test line has beacon x=-2. */
  lemma NegativeBeaconLine(sx: nat, sy: nat, rest: string)
    requires sx < U64_LIMIT && sy < U64_LIMIT
    ensures ParseLine(CoordText(SENSOR_TAG, Y_TAG, sx, sy, BEACON_TAG + ("-" + rest))) == None
  {
    var beacon := BEACON_TAG + ("-" + rest);
    Tags();
    CoordTextStart(SENSOR_TAG, Y_TAG, sx, sy, beacon);
    CoordinatesOf(SENSOR_TAG, Y_TAG, sx, sy, beacon);
    TagOfPrefix(BEACON_TAG, "-" + rest);
    assert DigitRun("-" + rest) == 0;
  }

  lemma NegativeBeaconFails(sx: nat, sy: nat, rest: string)
    requires sx < U64_LIMIT && sy < U64_LIMIT
    ensures ParseReadings(CoordText(SENSOR_TAG, Y_TAG, sx, sy, BEACON_TAG + ("-" + rest))) == None
  {
    NegativeBeaconLine(sx, sy, rest);
  }

  /** get_sensor_beacon_bounds: the largest x and the largest y of every
      sensor and beacon, folded from (0, 0). */
  function Bounds(ps: seq<Reading>): (b: (nat, nat))
    ensures forall p :: p in ps ==> p.0.x <= b.0 && p.1.x <= b.0 && p.0.y <= b.1 && p.1.y <= b.1
    ensures b.0 == 0 || exists p :: p in ps && (p.0.x == b.0 || p.1.x == b.0)
    ensures b.1 == 0 || exists p :: p in ps && (p.0.y == b.1 || p.1.y == b.1)
  {
    if ps == [] then (0, 0)
    else
      var b := Bounds(ps[..|ps| - 1]);
      var p := ps[|ps| - 1];
      assert forall q :: q in ps <==> q in ps[..|ps| - 1] || q == p;
      (MaxOf(b.0, MaxOf(p.0.x, p.1.x)), MaxOf(b.1, MaxOf(p.0.y, p.1.y)))
  }

  function MaxOf(a: nat, b: nat): nat
  {
    if a >= b then a else b
  }

  /** Every sensor and beacon lies in a grid of `rows` rows of `cols`
      columns. */
  predicate InGrid(ps: seq<Reading>, cols: nat, rows: nat)
  {
    forall p :: p in ps ==> p.0.x < cols && p.0.y < rows && p.1.x < cols && p.1.y < rows
  }

  /** The grid parse allocates, y rows of x columns for the bounds (x, y),
      never holds every reading: some reading sits on the largest x. */
  lemma BoundsGridTooSmall(ps: seq<Reading>)
    requires |ps| >= 1
    ensures !InGrid(ps, Bounds(ps).0, Bounds(ps).1)
  {
    var b := Bounds(ps);
    if b.0 == 0 {
      assert ps[0] in ps;
    } else {
      var p :| p in ps && (p.0.x == b.0 || p.1.x == b.0);
    }
  }

  /** One more row and one more column hold every reading. */
  lemma BoundsGridFits(ps: seq<Reading>)
    ensures InGrid(ps, Bounds(ps).0 + 1, Bounds(ps).1 + 1)
  {
  }

  /** The character drawn at the cell: the last write to it, where the
      sensor of each reading is written before its beacon. */
  function Cell(ps: seq<Reading>, row: nat, col: nat): (c: char)
    ensures c == '.' <==> forall p :: p in ps ==> (p.0.x, p.0.y) != (col, row) && (p.1.x, p.1.y) != (col, row)
    ensures c == 'S' ==> exists p :: p in ps && (p.0.x, p.0.y) == (col, row)
    ensures c == 'B' ==> exists p :: p in ps && (p.1.x, p.1.y) == (col, row)
    ensures c == '.' || c == 'S' || c == 'B'
  {
    if ps == [] then '.'
    else
      var p := ps[|ps| - 1];
      assert forall q :: q in ps <==> q in ps[..|ps| - 1] || q == p;
      if (p.1.x, p.1.y) == (col, row) then 'B'
      else if (p.0.x, p.0.y) == (col, row) then 'S'
      else Cell(ps[..|ps| - 1], row, col)
  }

  /** The picture: `rows` rows of `cols` cells. */
  function Picture(ps: seq<Reading>, cols: nat, rows: nat): (g: seq<string>)
    ensures |g| == rows && forall r :: 0 <= r < rows ==> |g[r]| == cols
    ensures forall r, c :: 0 <= r < rows && 0 <= c < cols ==> g[r][c] == Cell(ps, r, c)
  {
    seq(rows, r requires 0 <= r => seq(cols, c requires 0 <= c => Cell(ps, r, c)))
  }

  /** The picture as one string: cell (row, col) at row*cols+col. */
  lemma PictureText(ps: seq<Reading>, cols: nat, rows: nat, row: nat, col: nat)
    requires row < rows && col < cols
    ensures |Flatten(Picture(ps, cols, rows))| == rows * cols
    ensures row * cols + col < rows * cols
    ensures Flatten(Picture(ps, cols, rows))[row * cols + col] == Cell(ps, row, col)
  {
    FlattenRowMajor(Picture(ps, cols, rows), cols, row, col);
  }

  /** A snapshot of the grid as rows of cells. */
  function Rows(grid: array2<char>): (g: seq<string>)
    reads grid
    ensures |g| == grid.Length0 && forall r :: 0 <= r < grid.Length0 ==> |g[r]| == grid.Length1
    ensures forall r, c :: 0 <= r < grid.Length0 && 0 <= c < grid.Length1 ==> g[r][c] == grid[r, c]
  {
    seq(grid.Length0, r requires 0 <= r < grid.Length0 reads grid =>
      seq(grid.Length1, c requires 0 <= c < grid.Length1 reads grid => grid[r, c]))
  }

  lemma CellSnoc(ps: seq<Reading>, i: nat, row: nat, col: nat)
    requires i < |ps|
    ensures Cell(ps[..i + 1], row, col) ==
      if (ps[i].1.x, ps[i].1.y) == (col, row) then 'B'
      else if (ps[i].0.x, ps[i].0.y) == (col, row) then 'S'
      else Cell(ps[..i], row, col)
  {
    assert ps[..i + 1][..i] == ps[..i];
  }

  /** The loop of parse: write 'S' at each sensor and then 'B' at its
      beacon; a position outside the grid panics on the index. */
  method Draw(grid: array2<char>, ps: seq<Reading>) returns (ok: bool)
    requires forall r, c :: 0 <= r < grid.Length0 && 0 <= c < grid.Length1 ==> grid[r, c] == '.'
    modifies grid
    ensures ok <==> InGrid(ps, grid.Length1, grid.Length0)
    ensures ok ==> forall r, c :: 0 <= r < grid.Length0 && 0 <= c < grid.Length1 ==> grid[r, c] == Cell(ps, r, c)
  {
    for i := 0 to |ps|
      invariant InGrid(ps[..i], grid.Length1, grid.Length0)
      invariant forall r, c :: 0 <= r < grid.Length0 && 0 <= c < grid.Length1 ==> grid[r, c] == Cell(ps[..i], r, c)
    {
      var (sensor, beacon) := ps[i];
      if sensor.y >= grid.Length0 || sensor.x >= grid.Length1 {
        assert ps[i] in ps;
        return false;
      }
      grid[sensor.y, sensor.x] := 'S';
      if beacon.y >= grid.Length0 || beacon.x >= grid.Length1 {
        assert ps[i] in ps;
        return false;
      }
      grid[beacon.y, beacon.x] := 'B';
      forall r, c | 0 <= r < grid.Length0 && 0 <= c < grid.Length1
        ensures grid[r, c] == Cell(ps[..i + 1], r, c)
      {
        CellSnoc(ps, i, r, c);
      }
      assert forall q :: q in ps[..i + 1] <==> q in ps[..i] || q == ps[i];
    }
    assert ps[..|ps|] == ps;
    return true;
  }

  /** cave_to_string: the rows appended one after another, with no line
      breaks between them. */
  method CaveToString(cave: array2<char>) returns (s: string)
    ensures s == Flatten(Rows(cave))
  {
    s := [];
    for r := 0 to cave.Length0
      invariant s == Flatten(Rows(cave)[..r])
    {
      var row: string := [];
      for c := 0 to cave.Length1
        invariant row == Rows(cave)[r][..c]
      {
        row := row + [cave[r, c]];
        assert Rows(cave)[r][..c + 1] == Rows(cave)[r][..c] + [cave[r, c]];
      }
      assert Rows(cave)[r][..cave.Length1] == Rows(cave)[r];
      assert Rows(cave)[..r + 1][..r] == Rows(cave)[..r];
      s := s + row;
    }
    assert Rows(cave)[..cave.Length0] == Rows(cave);
  }

  lemma RowsArePicture(grid: array2<char>, ps: seq<Reading>)
    requires forall r, c :: 0 <= r < grid.Length0 && 0 <= c < grid.Length1 ==> grid[r, c] == Cell(ps, r, c)
    ensures Rows(grid) == Picture(ps, grid.Length1, grid.Length0)
  {
    var g, h := Rows(grid), Picture(ps, grid.Length1, grid.Length0);
    forall r | 0 <= r < |g| ensures g[r] == h[r] {
    }
  }

  /** parse as written: a grid of y rows of x columns for the bounds
      (x, y). It succeeds only when every reading lies inside that grid,
      which BoundsGridTooSmall shows never happens. */
  method ParseAsWritten(input: string) returns (r: Result<string>)
    ensures r.Ok? <==> ParseReadings(input).Some? && InGrid(ParseReadings(input).value, Bounds(ParseReadings(input).value).0, Bounds(ParseReadings(input).value).1)
    ensures r.Ok? ==> r.value == Flatten(Picture(ParseReadings(input).value, Bounds(ParseReadings(input).value).0, Bounds(ParseReadings(input).value).1))
  {
    var parsed := ParseReadings(input);
    if parsed.None? {
      return Err("Parsing Error");
    }
    var ps := parsed.value;
    var b := Bounds(ps);
    r := Render(ps, b.0, b.1);
  }

  /** parse with the smallest change that removes its panic: the grid is
      one larger each way, y+1 rows of x+1 columns, which holds every
      reading, so only a parse error fails. */
  method Parse(input: string) returns (r: Result<string>)
    ensures r.Ok? <==> ParseReadings(input).Some?
    ensures r.Ok? ==> r.value == CorrectedPicture(ParseReadings(input).value)
  {
    var parsed := ParseReadings(input);
    if parsed.None? {
      return Err("Parsing Error");
    }
    var ps := parsed.value;
    BoundsGridFits(ps);
    r := Render(ps, Bounds(ps).0 + 1, Bounds(ps).1 + 1);
  }

  /** The picture parse draws: one more column and one more row than the
      bounds. */
  function CorrectedPicture(ps: seq<Reading>): string
  {
    Flatten(Picture(ps, Bounds(ps).0 + 1, Bounds(ps).1 + 1))
  }

  /** A grid of `rows` rows of `cols` columns of '.', the readings drawn
      on it, as one string. */
  method Render(ps: seq<Reading>, cols: nat, rows: nat) returns (r: Result<string>)
    ensures r.Ok? <==> InGrid(ps, cols, rows)
    ensures r.Ok? ==> r.value == Flatten(Picture(ps, cols, rows))
  {
    var output := new char[rows, cols]((i, j) => '.');
    var ok := Draw(output, ps);
    if !ok {
      return Err("index out of bounds");
    }
    RowsArePicture(output, ps);
    var s := CaveToString(output);
    return Ok(s);
  }
}
