/** Day 9: a rope of knots on the integer grid. The head moves one square
    at a time and every other knot follows the knot before it; the
    positions the last knot visits are collected. */
module Rope {
  import opened Wrappers
  import opened Text

  /** A knot position. Coordinates are i32 in the solution; they are
      unbounded here. */
  datatype Point = Point(x: int, y: int)

  const ORIGIN := Point(0, 0)

  function Abs(n: int): nat
  {
    if n < 0 then -n else n
  }

  predicate IsDirection(dir: string)
  {
    dir == "R" || dir == "L" || dir == "U" || dir == "D"
  }

  /** do_move: one square right, left, up or down; any other direction
      panics. */
  function DoMove(p: Point, dir: string): (r: Result<Point>)
    ensures r.Ok? <==> IsDirection(dir)
    ensures r.Ok? ==> Abs(r.value.x - p.x) + Abs(r.value.y - p.y) == 1
  {
    if dir == "R" then Ok(Point(p.x + 1, p.y))
    else if dir == "L" then Ok(Point(p.x - 1, p.y))
    else if dir == "U" then Ok(Point(p.x, p.y + 1))
    else if dir == "D" then Ok(Point(p.x, p.y - 1))
    else Err("Got " + dir + " for move instruction")
  }

  /** `n` unit moves in direction `dir`. */
  function Moves(p: Point, dir: string, n: nat): Result<Point>
    decreases n
  {
    if n == 0 then Ok(p)
    else
      var q :- DoMove(p, dir);
      Moves(q, dir, n - 1)
  }

  /** motion: "<dir> <size>" with the size an i32, applied in one go; a
      line without a size or with an unknown direction panics. */
  function Motion(p: Point, input: string): Result<Point>
  {
    var m := Split(input, ' ');
    if |m| < 2 then Err("index out of bounds: the len is 1 but the index is 1")
    else
      match ParseI32(m[1])
      case None => Err("called `Result::unwrap()` on an `Err` value: ParseIntError")
      case Some(size) => MotionBy(p, m[0], size)
  }

  function MotionBy(p: Point, dir: string, size: int): (r: Result<Point>)
    ensures r.Ok? <==> IsDirection(dir)
  {
    if dir == "R" then Ok(Point(p.x + size, p.y))
    else if dir == "L" then Ok(Point(p.x - size, p.y))
    else if dir == "U" then Ok(Point(p.x, p.y + size))
    else if dir == "D" then Ok(Point(p.x, p.y - size))
    else Err("Got " + dir + " for move instruction")
  }

  /** The line "<dir> <size>" of any direction without a space and any i32
      size is the motion by that size. */
  lemma MotionOfLine(p: Point, dir: string, size: int)
    requires ' ' !in dir && I32_MIN <= size <= I32_MAX
    ensures Motion(p, dir + " " + IntToString(size)) == MotionBy(p, dir, size)
  {
    var s := IntToString(size);
    assert ' ' !in s by {
      var d := NatToString(if size < 0 then -size else size);
      assert s == d || s == "-" + d;
      assert forall i :: 0 <= i < |d| ==> IsDigit(d[i]);
    }
    assert dir + " " + s == Join([dir, s], ' ');
    SplitJoin([dir, s], ' ');
    ParseI32OfString(size);
  }

  /** A motion by a non-negative size is that many unit moves. */
  lemma {:induction false} MotionIsRepeatedMoves(p: Point, dir: string, n: nat)
    requires IsDirection(dir)
    ensures MotionBy(p, dir, n) == Moves(p, dir, n)
    decreases n
  {
    if n > 0 {
      var q := DoMove(p, dir).value;
      MotionIsRepeatedMoves(q, dir, n - 1);
    }
  }

  /** Two knots touch when they are at most one apart in each axis. */
  predicate Touching(a: Point, b: Point)
  {
    Abs(a.x - b.x) <= 1 && Abs(a.y - b.y) <= 1
  }

  /** `next` is `from` or one square closer to `target`, in one axis. */
  predicate Toward(from: int, next: int, target: int)
  {
    next == from || (Abs(next - from) == 1 && (next - from) * (target - from) > 0)
  }

  /** follow: more than two away in total means a diagonal step, otherwise
      a straight step along an axis more than one away. The step is at
      most one in each axis, and a touching knot stays where it is. */
  function Follow(tail: Point, leader: Point): (r: Point)
    ensures Abs(r.x - tail.x) <= 1 && Abs(r.y - tail.y) <= 1
    ensures Touching(tail, leader) ==> r == tail
  {
    var dx := leader.x - tail.x;
    var dy := leader.y - tail.y;
    if Abs(dx) + Abs(dy) > 2 then
      Point(tail.x + (if dx > 0 then 1 else -1), tail.y + (if dy > 0 then 1 else -1))
    else if Abs(dx) > 1 then
      Point(tail.x + (if dx > 0 then 1 else -1), tail.y)
    else if Abs(dy) > 1 then
      Point(tail.x, tail.y + (if dy > 0 then 1 else -1))
    else tail
  }

  /** A leader at most two away in each axis is caught up with: the knot
      moves toward it in each axis and ends up touching it. */
  lemma FollowCatchesUp(tail: Point, leader: Point)
    requires Abs(leader.x - tail.x) <= 2 && Abs(leader.y - tail.y) <= 2
    ensures Touching(Follow(tail, leader), leader)
    ensures Toward(tail.x, Follow(tail, leader).x, leader.x)
    ensures Toward(tail.y, Follow(tail, leader).y, leader.y)
  {
  }

  /** Further away in one axis only, the diagonal step also moves the
      other coordinate, away from the leader: "toward" needs the bound
      above, which a connected rope always meets. */
  lemma FollowFarInOneAxis()
    ensures Follow(ORIGIN, Point(0, 3)) == Point(-1, 1)
  {
  }

  /** The straight and diagonal follow cases of the tests. */
  lemma ExampleFollows()
    ensures Follow(ORIGIN, Point(2, 0)) == Point(1, 0) && Follow(ORIGIN, Point(-2, 0)) == Point(-1, 0)
    ensures Follow(ORIGIN, Point(0, 2)) == Point(0, 1) && Follow(ORIGIN, Point(0, -2)) == Point(0, -1)
    ensures Follow(ORIGIN, Point(2, 1)) == Point(1, 1) && Follow(ORIGIN, Point(1, 2)) == Point(1, 1)
    ensures Follow(ORIGIN, Point(-1, 2)) == Point(-1, 1) && Follow(ORIGIN, Point(-2, 1)) == Point(-1, 1)
    ensures Follow(ORIGIN, Point(-2, -1)) == Point(-1, -1) && Follow(ORIGIN, Point(-1, -2)) == Point(-1, -1)
    ensures Follow(ORIGIN, Point(1, -2)) == Point(1, -1) && Follow(ORIGIN, Point(2, -1)) == Point(1, -1)
  {
  }

  /** The unit moves of the tests. */
  lemma ExampleMoves()
    ensures DoMove(ORIGIN, "R") == Ok(Point(1, 0)) && DoMove(ORIGIN, "U") == Ok(Point(0, 1))
    ensures DoMove(ORIGIN, "L") == Ok(Point(-1, 0)) && DoMove(ORIGIN, "D") == Ok(Point(0, -1))
  {
  }

  // ---------------------------------------------------------------------
  // The rope: a head and the knots behind it
  // ---------------------------------------------------------------------

  /** The knots behind `leader`, each following the one before it after
      that one has moved. */
  function Drag(leader: Point, rest: seq<Point>): (r: seq<Point>)
    ensures |r| == |rest|
    decreases |rest|
  {
    if rest == [] then []
    else
      var k := Follow(rest[0], leader);
      [k] + Drag(k, rest[1..])
  }

  /** Knot i of the dragged rope follows the already moved knot i-1. */
  lemma {:induction false} DragIndex(leader: Point, rest: seq<Point>, i: nat)
    requires i < |rest|
    ensures Drag(leader, rest)[i] == Follow(rest[i], if i == 0 then leader else Drag(leader, rest)[i - 1])
    decreases |rest|
  {
    if i > 0 {
      var k := Follow(rest[0], leader);
      if i > 1 {
        DragIndex(k, rest[1..], i - 1);
      }
    }
  }

  /** One unit step of the rope: the head moves and the others follow. */
  function StepRope(rope: seq<Point>, dir: string): (r: Result<seq<Point>>)
    requires |rope| >= 1
    ensures r.Ok? ==> |r.value| == |rope|
  {
    var h :- DoMove(rope[0], dir);
    Ok([h] + Drag(h, rope[1..]))
  }

  /** Every knot touches the knot before it. */
  predicate Connected(rope: seq<Point>)
  {
    |rope| <= 1 || (Touching(rope[1], rope[0]) && Connected(rope[1..]))
  }

  /** When the leader of a connected rope moves at most one square in
      each axis, the dragged rope is connected again. */
  lemma {:induction false} DragConnected(prev: Point, next: Point, rest: seq<Point>)
    requires Abs(next.x - prev.x) <= 1 && Abs(next.y - prev.y) <= 1
    requires Connected([prev] + rest)
    ensures Connected([next] + Drag(next, rest))
    decreases |rest|
  {
    if rest != [] {
      assert ([prev] + rest)[1..] == rest;
      assert rest == [rest[0]] + rest[1..];
      FollowCatchesUp(rest[0], next);
      var k := Follow(rest[0], next);
      DragConnected(rest[0], k, rest[1..]);
      assert ([next] + Drag(next, rest))[1..] == [k] + Drag(k, rest[1..]);
    }
  }

  /** A unit step keeps the rope connected. */
  lemma StepKeepsConnected(rope: seq<Point>, dir: string)
    requires |rope| >= 1 && Connected(rope) && StepRope(rope, dir).Ok?
    ensures Connected(StepRope(rope, dir).value)
  {
    assert rope == [rope[0]] + rope[1..];
    DragConnected(rope[0], DoMove(rope[0], dir).value, rope[1..]);
  }

  /** The cell of the last knot. */
  function TailCell(rope: seq<Point>): (int, int)
    requires |rope| >= 1
  {
    (rope[|rope| - 1].x, rope[|rope| - 1].y)
  }

  /** `n` unit steps, recording the last knot after each. */
  function Steps(rope: seq<Point>, visited: set<(int, int)>, dir: string, n: nat): (r: Result<(seq<Point>, set<(int, int)>)>)
    requires |rope| >= 1
    ensures r.Ok? ==> |r.value.0| == |rope| && visited <= r.value.1
    decreases n
  {
    if n == 0 then Ok((rope, visited))
    else
      var next :- StepRope(rope, dir);
      Steps(next, visited + {TailCell(next)}, dir, n - 1)
  }

  /** The direction and the i32 size of a line "<dir> <size>". */
  function LineMove(line: string): Result<(string, int)>
  {
    var m := Split(line, ' ');
    if |m| < 2 then Err("index out of bounds: the len is 1 but the index is 1")
    else
      match ParseI32(m[1])
      case None => Err("called `Result::unwrap()` on an `Err` value: ParseIntError")
      case Some(size) => Ok((m[0], size))
  }

  /** `0..size` is empty for a size below one. */
  function StepCount(size: int): nat
  {
    if size > 0 then size else 0
  }

  /** Every line's steps in order, from `rope` and `visited`. */
  function Run(rope: seq<Point>, visited: set<(int, int)>, lines: seq<string>): (r: Result<(seq<Point>, set<(int, int)>)>)
    requires |rope| >= 1
    ensures r.Ok? ==> |r.value.0| == |rope| && visited <= r.value.1
    decreases |lines|
  {
    if lines == [] then Ok((rope, visited))
    else
      var mv :- LineMove(lines[0]);
      var st :- Steps(rope, visited, mv.0, StepCount(mv.1));
      Run(st.0, st.1, lines[1..])
  }

  lemma {:induction false} StepsKeepConnected(rope: seq<Point>, visited: set<(int, int)>, dir: string, n: nat)
    requires |rope| >= 1 && Connected(rope) && Steps(rope, visited, dir, n).Ok?
    ensures Connected(Steps(rope, visited, dir, n).value.0)
    decreases n
  {
    if n > 0 {
      StepKeepsConnected(rope, dir);
      var next := StepRope(rope, dir).value;
      StepsKeepConnected(next, visited + {TailCell(next)}, dir, n - 1);
    }
  }

  /** A rope that starts connected is connected after every line. */
  lemma {:induction false} RunKeepsConnected(rope: seq<Point>, visited: set<(int, int)>, lines: seq<string>)
    requires |rope| >= 1 && Connected(rope) && Run(rope, visited, lines).Ok?
    ensures Connected(Run(rope, visited, lines).value.0)
    decreases |lines|
  {
    if lines != [] {
      var mv := LineMove(lines[0]).value;
      StepsKeepConnected(rope, visited, mv.0, StepCount(mv.1));
      var st := Steps(rope, visited, mv.0, StepCount(mv.1)).value;
      RunKeepsConnected(st.0, st.1, lines[1..]);
    }
  }

  /** A rope of knots all at the origin is connected. */
  lemma StartConnected(n: nat)
    ensures Connected(seq(n, i => ORIGIN))
  {
    if n > 1 {
      assert seq(n, i => ORIGIN)[1..] == seq(n - 1, i => ORIGIN);
      StartConnected(n - 1);
    }
  }

  // ---------------------------------------------------------------------
  // short_rope and long_rope
  // ---------------------------------------------------------------------

  lemma RunStep(rope: seq<Point>, visited: set<(int, int)>, lines: seq<string>, i: nat)
    requires |rope| >= 1 && i < |lines| && LineMove(lines[i]).Ok?
    ensures Run(rope, visited, lines[i..]) ==
      match Steps(rope, visited, LineMove(lines[i]).value.0, StepCount(LineMove(lines[i]).value.1))
      case Err(msg) => Err(msg)
      case Ok(st) => Run(st.0, st.1, lines[i + 1..])
  {
    assert lines[i..][1..] == lines[i + 1..];
  }

  lemma StepsStep(rope: seq<Point>, visited: set<(int, int)>, dir: string, n: nat)
    requires |rope| >= 1 && n >= 1 && StepRope(rope, dir).Ok?
    ensures Steps(rope, visited, dir, n) ==
      Steps(StepRope(rope, dir).value, visited + {TailCell(StepRope(rope, dir).value)}, dir, n - 1)
  {
  }

  /** The inner loop of short_rope: `n` unit steps of the head and the
      tail, recording the tail's cell after each. */
  method ShortSteps(head: Point, tail: Point, visited: set<(int, int)>, dir: string, n: nat)
    returns (r: Result<(Point, Point, set<(int, int)>)>)
    ensures r.Ok? <==> Steps([head, tail], visited, dir, n).Ok?
    ensures r.Ok? ==> Steps([head, tail], visited, dir, n).value == ([r.value.0, r.value.1], r.value.2)
  {
    var h, t, v := head, tail, visited;
    for k := 0 to n
      invariant Steps([h, t], v, dir, n - k) == Steps([head, tail], visited, dir, n)
    {
      var moved := DoMove(h, dir);
      if moved.Err? {
        return Err(moved.msg);
      }
      StepsStep([h, t], v, dir, n - k);
      assert [h, t][1..] == [t];
      assert StepRope([h, t], dir).value == [moved.value, Follow(t, moved.value)];
      h := moved.value;
      t := Follow(t, h);
      v := v + {(t.x, t.y)};
    }
    return Ok((h, t, v));
  }

  /** short_rope: the head and the tail start at the origin; after every
      unit step of every line the tail's cell is recorded. */
  method ShortRope(input: string) returns (r: Result<set<(int, int)>>)
    ensures r.Ok? <==> Run([ORIGIN, ORIGIN], {}, Split(input, '\n')).Ok?
    ensures r.Ok? ==> r.value == Run([ORIGIN, ORIGIN], {}, Split(input, '\n')).value.1
  {
    var lines := Split(input, '\n');
    var head, tail := ORIGIN, ORIGIN;
    var visited: set<(int, int)> := {};
    for i := 0 to |lines|
      invariant Run([head, tail], visited, lines[i..]) == Run([ORIGIN, ORIGIN], {}, lines)
    {
      var mv := LineMove(lines[i]);
      if mv.Err? {
        return Err(mv.msg);
      }
      RunStep([head, tail], visited, lines, i);
      var st :- ShortSteps(head, tail, visited, mv.value.0, StepCount(mv.value.1));
      head, tail, visited := st.0, st.1, st.2;
    }
    return Ok(visited);
  }

  const KNOTS := 10

  /** The inner loop of long_rope: `n` unit steps of the whole rope,
      recording the last knot's cell after each. */
  method LongSteps(rope: array<Point>, visited: set<(int, int)>, dir: string, n: nat)
    returns (r: Result<set<(int, int)>>)
    requires rope.Length >= 1
    modifies rope
    ensures r.Ok? <==> Steps(old(rope[..]), visited, dir, n).Ok?
    ensures r.Ok? ==> Steps(old(rope[..]), visited, dir, n).value == (rope[..], r.value)
  {
    var v := visited;
    ghost var start := rope[..];
    for k := 0 to n
      invariant Steps(rope[..], v, dir, n - k) == Steps(start, visited, dir, n)
    {
      var moved := DoMove(rope[0], dir);
      if moved.Err? {
        return Err(moved.msg);
      }
      StepsStep(rope[..], v, dir, n - k);
      PullRope(rope, moved.value);
      v := v + {(rope[rope.Length - 1].x, rope[rope.Length - 1].y)};
    }
    return Ok(v);
  }

  /** long_rope: ten knots at the origin; on every unit step the head
      moves, then knots 1..9 in turn follow the knot before them, already
      moved, and the last knot's cell is recorded. */
  method LongRope(input: string) returns (r: Result<set<(int, int)>>)
    ensures r.Ok? <==> Run(seq(KNOTS, i => ORIGIN), {}, Split(input, '\n')).Ok?
    ensures r.Ok? ==> r.value == Run(seq(KNOTS, i => ORIGIN), {}, Split(input, '\n')).value.1
  {
    var lines := Split(input, '\n');
    var rope := new Point[KNOTS](i => ORIGIN);
    assert rope[..] == seq(KNOTS, i => ORIGIN);
    r := LongRopeLines(rope, lines);
  }

  /** The loop of long_rope over the lines of the input. */
  method LongRopeLines(rope: array<Point>, lines: seq<string>) returns (r: Result<set<(int, int)>>)
    requires rope.Length >= 1
    modifies rope
    ensures r.Ok? <==> Run(old(rope[..]), {}, lines).Ok?
    ensures r.Ok? ==> r.value == Run(old(rope[..]), {}, lines).value.1
  {
    ghost var start := rope[..];
    var visited: set<(int, int)> := {};
    for i := 0 to |lines|
      invariant Run(rope[..], visited, lines[i..]) == Run(start, {}, lines)
    {
      var mv := LineMove(lines[i]);
      if mv.Err? {
        return Err(mv.msg);
      }
      RunStep(rope[..], visited, lines, i);
      visited :- LongSteps(rope, visited, mv.value.0, StepCount(mv.value.1));
    }
    return Ok(visited);
  }

  /** The head moved to `h`, then each knot after it follows the one
      before it, in order. */
  method PullRope(rope: array<Point>, h: Point)
    requires rope.Length >= 1
    modifies rope
    ensures rope[..] == [h] + Drag(h, old(rope[..])[1..])
  {
    ghost var before := rope[..];
    rope[0] := h;
    ghost var after := [h] + Drag(h, before[1..]);
    for i := 1 to rope.Length
      invariant forall k :: 0 <= k < i ==> rope[k] == after[k]
      invariant forall k :: i <= k < rope.Length ==> rope[k] == before[k]
    {
      DragIndex(h, before[1..], i - 1);
      rope[i] := Follow(rope[i], rope[i - 1]);
    }
    assert rope[..] == after;
  }

  /** short_rope_unique_locations: how many cells the tail visits. */
  method ShortRopeUniqueLocations(input: string) returns (r: Result<nat>)
    ensures r.Ok? <==> Run([ORIGIN, ORIGIN], {}, Split(input, '\n')).Ok?
    ensures r.Ok? ==> r.value == |Run([ORIGIN, ORIGIN], {}, Split(input, '\n')).value.1|
  {
    var hs :- ShortRope(input);
    return Ok(|hs|);
  }

  /** long_rope_unique_locations: how many cells the last knot visits. */
  method LongRopeUniqueLocations(input: string) returns (r: Result<nat>)
    ensures r.Ok? <==> Run(seq(KNOTS, i => ORIGIN), {}, Split(input, '\n')).Ok?
    ensures r.Ok? ==> r.value == |Run(seq(KNOTS, i => ORIGIN), {}, Split(input, '\n')).value.1|
  {
    var hs :- LongRope(input);
    return Ok(|hs|);
  }
}
