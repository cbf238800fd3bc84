/** Day 8: a grid of tree heights. A tree is visible when it stands on the
    border or is strictly taller than every tree between it and one edge;
    its viewing distance in a direction is the number of trees up to and
    including the first one at least as tall, or up to the edge; its scenic
    score multiplies the four viewing distances. The matrix code takes the
    number of columns from the first row, the length of a column from the
    first row too, and the size of its result matrices from the number of
    rows, so on a grid that is not square it reads part of the grid or
    indexes out of bounds; an out-of-bounds index is an `Err` here. */
module Trees {
  import opened Wrappers
  import opened Text
  import opened Seqs

  /** Rows of heights, as Matrix2D's `Vec<Vec<usize>>`. */
  type Grid = seq<seq<nat>>

  /** `n` rows of `n` heights each. */
  predicate IsSquare(g: Grid)
  {
    forall r :: 0 <= r < |g| ==> |g[r]| == |g|
  }

  /** Every row as long as the first. */
  predicate IsRectangular(g: Grid)
  {
    |g| > 0 && forall r :: 0 <= r < |g| ==> |g[r]| == |g[0]|
  }

  /** The `size` by `size` matrix of zeros. */
  function Zeros(size: nat): Grid
  {
    seq(size, _ => seq(size, _ => 0))
  }

  /** get_col can read element `c` of each of the first |g[0]| rows: there
      are that many rows, and each of them is long enough. */
  predicate ColumnReadable(g: Grid, c: nat)
  {
    |g| > 0 && |g[0]| <= |g| && forall j :: 0 <= j < |g[0]| ==> c < |g[j]|
  }

  /** What get_col reads: element `c` of the first |g[0]| rows, the length
      of the first row standing for the number of rows. On a square grid
      this is the whole column. */
  function Column(g: Grid, c: nat): seq<nat>
    requires ColumnReadable(g, c)
  {
    seq(|g[0]|, j requires 0 <= j < |g[0]| => g[j][c])
  }

  class Matrix {
    var data: Grid

    constructor (data: Grid)
      ensures this.data == data
    {
      this.data := data;
    }

    /** from_size: `size` rows of `size` zeros, pushed one at a time. */
    constructor FromSize(size: nat)
      ensures data == Zeros(size)
    {
      var rows: Grid := [];
      for i := 0 to size
        invariant |rows| == i
        invariant forall r :: 0 <= r < i ==> rows[r] == seq(size, _ => 0)
      {
        var row: seq<nat> := [];
        for k := 0 to size
          invariant row == seq(k, _ => 0)
        {
          row := row + [0];
        }
        rows := rows + [row];
      }
      data := rows;
    }

    function Rows(): nat
      reads this
    {
      |data|
    }

    function Cols(): nat
      reads this
      requires |data| > 0
    {
      |data[0]|
    }

    function Get(row: nat, col: nat): nat
      reads this
      requires row < |data| && col < |data[row]|
    {
      data[row][col]
    }

    function GetRow(i: nat): seq<nat>
      reads this
      requires i < |data|
    {
      data[i]
    }

    /** get_col: element `i` of the first |data[0]| rows, pushed one at a
        time; indexing past the rows or past the end of a row panics. */
    method GetCol(i: nat) returns (v: Result<seq<nat>>)
      requires |data| > 0
      ensures v.Ok? <==> ColumnReadable(data, i)
      ensures v.Ok? ==> v.value == Column(data, i)
    {
      var col: seq<nat> := [];
      for j := 0 to |data[0]|
        invariant |col| == j && j <= |data|
        invariant forall k :: 0 <= k < j ==> i < |data[k]| && col[k] == data[k][i]
      {
        if j >= |data| || i >= |data[j]| {
          return Err("index out of bounds");
        }
        col := col + [data[j][i]];
      }
      return Ok(col);
    }

    method Set(row: nat, col: nat, val: nat)
      requires row < |data| && col < |data[row]|
      modifies this
      ensures data == SetCell(old(data), row, col, val)
    {
      data := SetCell(data, row, col, val);
    }
  }

  /** The grid with one cell replaced. */
  function SetCell(g: Grid, row: nat, col: nat, val: nat): Grid
    requires row < |g| && col < |g[row]|
  {
    var newRow: seq<nat> := g[row][col := val];
    g[row := newRow]
  }

  lemma SetCellAt(g: Grid, row: nat, col: nat, val: nat)
    requires row < |g| && col < |g[row]|
    ensures |SetCell(g, row, col, val)| == |g|
    ensures forall r :: 0 <= r < |g| ==> |SetCell(g, row, col, val)[r]| == |g[r]|
    ensures forall r, c :: 0 <= r < |g| && 0 <= c < |g[r]| ==>
      SetCell(g, row, col, val)[r][c] == if r == row && c == col then val else g[r][c]
  {
  }

  // ---------------------------------------------------------------------
  // Reading the grid

  function DigitValue(c: char): nat
    requires IsDigit(c)
  {
    c as int - '0' as int
  }

  predicate AllDigitLines(lines: seq<string>)
  {
    forall i :: 0 <= i < |lines| ==> AllDigits(lines[i])
  }

  /** The heights of lines of decimal digits, one row per line. */
  function Heights(lines: seq<string>): Grid
    requires AllDigitLines(lines)
  {
    seq(|lines|, i requires 0 <= i < |lines| => RowValues(lines[i]))
  }

  function RowValues(line: string): seq<nat>
    requires AllDigits(line)
  {
    seq(|line|, k requires 0 <= k < |line| => DigitValue(line[k]))
  }

  /** One line's digits; `to_digit(10).unwrap()` panics on anything else. */
  function RowHeights(line: string): (r: Result<seq<nat>>)
    ensures r.Ok? <==> AllDigits(line)
    ensures r.Ok? ==> |r.value| == |line| && forall k :: 0 <= k < |line| ==> r.value[k] == DigitValue(line[k])
  {
    if AllDigits(line) then Ok(RowValues(line))
    else Result<seq<nat>>.Err("called `Option::unwrap()` on a `None` value")
  }

  /** init_matrix: one row per line of the input. */
  method InitMatrix(input: string) returns (r: Result<Grid>)
    ensures r.Ok? <==> AllDigitLines(Split(input, '\n'))
    ensures r.Ok? ==> r.value == Heights(Split(input, '\n'))
  {
    var lines := Split(input, '\n');
    var v: Grid := [];
    for i := 0 to |lines|
      invariant |v| == i
      invariant forall j :: 0 <= j < i ==> AllDigits(lines[j]) && v[j] == RowValues(lines[j])
    {
      var row := RowHeights(lines[i]);
      if row.Err? {
        assert !AllDigits(lines[i]);
        return Err(row.msg);
      }
      assert row.value == RowValues(lines[i]);
      v := v + [row.value];
    }
    assert v == Heights(lines);
    return Ok(v);
  }

  /** The digit that writes a height below ten. */
  function DigitChar(h: nat): char
    requires h <= 9
  {
    ('0' as int + h) as char
  }

  predicate SmallHeights(g: Grid)
  {
    forall r, c :: 0 <= r < |g| && 0 <= c < |g[r]| ==> g[r][c] <= 9
  }

  /** Each row of heights below ten written as a line of digits. */
  function TextLines(g: Grid): seq<string>
    requires SmallHeights(g)
  {
    seq(|g|, r requires 0 <= r < |g| => seq(|g[r]|, c requires 0 <= c < |g[r]| => DigitChar(g[r][c])))
  }

  /** A grid of heights below ten written as text, one line per row. */
  function GridText(g: Grid): string
    requires SmallHeights(g)
  {
    Join(TextLines(g), '\n')
  }

  /** Reading the text of a non-empty grid of single digits gives the grid
      back. */
  lemma HeightsOfText(g: Grid)
    requires |g| >= 1 && SmallHeights(g)
    ensures AllDigitLines(Split(GridText(g), '\n'))
    ensures Heights(Split(GridText(g), '\n')) == g
  {
    var lines := TextLines(g);
    forall i | 0 <= i < |lines|
      ensures '\n' !in lines[i]
    {
      assert forall c :: 0 <= c < |lines[i]| ==> IsDigit(lines[i][c]);
    }
    SplitJoin(lines, '\n');
    assert Split(GridText(g), '\n') == lines;
    forall r | 0 <= r < |g|
      ensures RowValues(lines[r]) == g[r]
    {
      assert forall c :: 0 <= c < |g[r]| ==> RowValues(lines[r])[c] == g[r][c];
    }
    assert Heights(lines) == g;
  }

  // ---------------------------------------------------------------------
  // Visibility in one line of trees

  /** Every tree before position `z` is shorter than `h`. */
  predicate ShorterBefore(line: seq<nat>, h: nat, z: nat)
    requires z <= |line|
  {
    z == 0 || (line[z - 1] < h && ShorterBefore(line, h, z - 1))
  }

  /** Every tree from position `z` on is shorter than `h`. */
  predicate ShorterFrom(line: seq<nat>, h: nat, z: nat)
    decreases |line| - z
  {
    z >= |line| || (line[z] < h && ShorterFrom(line, h, z + 1))
  }

  lemma {:induction false} ShorterBeforeMeans(line: seq<nat>, h: nat, z: nat)
    requires z <= |line|
    ensures ShorterBefore(line, h, z) <==> forall k :: 0 <= k < z ==> line[k] < h
  {
    if z > 0 {
      ShorterBeforeMeans(line, h, z - 1);
    }
  }

  lemma {:induction false} ShorterFromMeans(line: seq<nat>, h: nat, z: nat)
    ensures ShorterFrom(line, h, z) <==> forall k :: z <= k < |line| ==> line[k] < h
    decreases |line| - z
  {
    if z < |line| {
      ShorterFromMeans(line, h, z + 1);
    }
  }

  /** The tree at `i` is visible along its line: it stands at an end, or
      every tree on one side of it is shorter. */
  predicate VisibleInLine(line: seq<nat>, i: nat)
    requires i < |line|
  {
    i == 0 || i == |line| - 1 || ShorterBefore(line, line[i], i) || ShorterFrom(line, line[i], i + 1)
  }

  lemma VisibleInLineMeans(line: seq<nat>, i: nat)
    requires i < |line|
    ensures VisibleInLine(line, i) <==>
      (i == 0 || i == |line| - 1 ||
       (forall k :: 0 <= k < i ==> line[k] < line[i]) ||
       (forall k :: i < k < |line| ==> line[k] < line[i]))
  {
    ShorterBeforeMeans(line, line[i], i);
    ShorterFromMeans(line, line[i], i + 1);
  }

  /** is_visible_in_row: a running maximum from the left up to `index`, then
      from the right down to it; the tree is visible from a side when the
      maximum was last raised by the tree itself. `max_index` is not reset
      between the two scans. */
  method IsVisibleInRow(row: seq<nat>, index: nat) returns (b: bool)
    requires index < |row|
    ensures b == VisibleInLine(row, index)
  {
    VisibleInLineMeans(row, index);
    if index == 0 || index == |row| - 1 {
      return true;
    }
    var max := 0;
    var maxIndex := 0;
    for i := 0 to index + 1
      invariant forall k :: 0 <= k < i ==> row[k] <= max
      invariant max > 0 ==> maxIndex < i && row[maxIndex] == max
      invariant maxIndex < i || maxIndex == 0
      invariant i > index ==> maxIndex < index
      invariant i > index ==> exists k :: 0 <= k < index && row[k] >= row[index]
    {
      if row[i] > max {
        max := row[i];
        maxIndex := i;
      }
      if i == index && (max < row[i] || (max == row[i] && maxIndex == i)) {
        return true;
      }
      if i == index {
        if max > 0 {
          assert row[maxIndex] >= row[index];
        } else {
          assert row[0] >= row[index];
        }
      }
    }
    max := 0;
    var j := |row|;
    while j > index
      invariant index <= j <= |row|
      invariant forall k :: j <= k < |row| ==> row[k] <= max
      invariant max > 0 ==> j <= maxIndex < |row| && row[maxIndex] == max
      invariant maxIndex != index
      invariant j < |row| ==> max >= row[|row| - 1]
    {
      j := j - 1;
      if row[j] > max {
        max := row[j];
        maxIndex := j;
      }
      if j == index && (max < row[j] || (max == row[j] && maxIndex == j)) {
        return true;
      }
    }
    assert row[|row| - 1] <= max;
    assert exists k :: index < k < |row| && row[k] >= row[index] by {
      if max > 0 {
        assert row[maxIndex] >= row[index];
      } else {
        assert row[|row| - 1] >= row[index];
      }
    }
    return false;
  }

  // ---------------------------------------------------------------------
  // Visibility in the grid

  function Last(g: Grid): nat
    requires |g| > 0
  {
    |g| - 1
  }

  /** The first or last row, or the first or last of the |g[0]| columns
      the loop visits. */
  predicate OnBorder(g: Grid, r: nat, c: nat)
    requires |g| > 0
  {
    r == 0 || r == Last(g) || c == 0 || c == |g[0]| - 1
  }

  /** get_visibility_matrix decides cell (r, c) without indexing out of
      bounds: the cell exists in its row, and when neither the border nor
      the row makes the tree visible, the column can be read and is long
      enough to hold position `r`. */
  predicate CellVisitable(g: Grid, r: nat, c: nat)
    requires r < |g|
  {
    c < |g[r]| &&
    (OnBorder(g, r, c) || VisibleInLine(g[r], c) || (ColumnReadable(g, c) && r < |g[0]|))
  }

  /** The cell of the visibility matrix: 1 on the border; inside, 1 when the
      tree is visible in its row or in the column get_col reads. */
  function VisibilityCell(g: Grid, r: nat, c: nat): nat
    requires r < |g| && CellVisitable(g, r, c)
  {
    if OnBorder(g, r, c) then 1
    else if VisibleInLine(g[r], c) || VisibleInLine(Column(g, c), r) then 1
    else 0
  }

  /** Every cell the loop visits in row `r` can be decided. */
  predicate RowVisitable(g: Grid, r: nat)
    requires r < |g|
  {
    forall c :: 0 <= c < |g[0]| ==> CellVisitable(g, r, c)
  }

  /** Row `r` of the copy after the loop: its first |g[0]| cells replaced by
      their visibility, any cells past them still holding their heights. */
  function VisibilityRow(g: Grid, r: nat): seq<nat>
    requires r < |g| && RowVisitable(g, r)
  {
    assert |g[0]| == 0 || CellVisitable(g, r, |g[0]| - 1);
    seq(|g[0]|, c requires 0 <= c < |g[0]| => VisibilityCell(g, r, c)) + g[r][|g[0]|..]
  }

  predicate GridVisitable(g: Grid)
  {
    |g| > 0 && forall r, c :: 0 <= r < |g| && 0 <= c < |g[0]| ==> CellVisitable(g, r, c)
  }

  function VisibilityGrid(g: Grid): Grid
    requires GridVisitable(g)
  {
    seq(|g|, r requires 0 <= r < |g| => VisibilityRow(g, r))
  }

  /** On a square grid every cell can be decided. */
  lemma SquareVisitable(g: Grid)
    requires IsSquare(g) && |g| > 0
    ensures GridVisitable(g)
  {
    forall r, c | 0 <= r < |g| && 0 <= c < |g[0]|
      ensures CellVisitable(g, r, c)
    {
      assert ColumnReadable(g, c);
    }
  }

  /** Row `r` of the visibility matrix keeps the length of row `r` of the
      grid; its cells past the first row's length keep their heights. */
  lemma VisibilityRowAt(g: Grid, r: nat)
    requires r < |g| && RowVisitable(g, r)
    ensures |VisibilityRow(g, r)| == |g[r]|
    ensures forall c :: 0 <= c < |g[r]| ==>
      VisibilityRow(g, r)[c] == if c < |g[0]| then VisibilityCell(g, r, c) else g[r][c]
  {
    assert |g[0]| == 0 || CellVisitable(g, r, |g[0]| - 1);
  }

  /** With a line feed at the end of the input the last line is empty, and
      a first row that is not empty sends the loop past that line's end. */
  lemma EmptyLastRow(g: Grid)
    requires |g| > 0 && |g[0]| > 0 && g[|g| - 1] == []
    ensures !GridVisitable(g)
  {
    assert !CellVisitable(g, |g| - 1, 0);
  }

  /** So get_visibility_matrix panics on a text that ends in a line feed
      and does not start with one. */
  lemma TrailingLineFeed(text: string)
    requires Split(text, '\n')[0] != []
    ensures !(AllDigitLines(Split(text + "\n", '\n')) && GridVisitable(Heights(Split(text + "\n", '\n'))))
  {
    SplitSnocSeparator(text, '\n');
    var lines := Split(text + "\n", '\n');
    if AllDigitLines(lines) {
      assert lines[0] == Split(text, '\n')[0];
      EmptyLastRow(Heights(lines));
    }
  }

  /** A cell of the visibility matrix of a square grid is 0 or 1, and 1
      exactly when the tree is on the border or strictly taller than all
      trees towards one of the four edges. */
  lemma VisibilityCellMeans(g: Grid, r: nat, c: nat)
    requires IsSquare(g) && r < |g| && c < |g|
    ensures CellVisitable(g, r, c)
    ensures VisibilityCell(g, r, c) == 0 || VisibilityCell(g, r, c) == 1
    ensures VisibilityCell(g, r, c) == 1 <==>
      (OnBorder(g, r, c) ||
       (forall k :: 0 <= k < c ==> g[r][k] < g[r][c]) ||
       (forall k :: c < k < |g| ==> g[r][k] < g[r][c]) ||
       (forall k :: 0 <= k < r ==> g[k][c] < g[r][c]) ||
       (forall k :: r < k < |g| ==> g[k][c] < g[r][c]))
  {
    assert ColumnReadable(g, c);
    VisibleInLineMeans(g[r], c);
    var col := Column(g, c);
    VisibleInLineMeans(col, r);
    assert forall k :: 0 <= k < |g| ==> col[k] == g[k][c];
  }

  /** Every border cell the loop visits is 1. */
  lemma BorderVisible(g: Grid, r: nat, c: nat)
    requires GridVisitable(g) && r < |g| && c < |g[0]| && OnBorder(g, r, c)
    ensures VisibilityGrid(g)[r][c] == 1
  {
    assert CellVisitable(g, r, c);
    VisibilityRowAt(g, r);
  }

  /** The visibility of one cell, as get_visibility_matrix's loop body
      decides it; reading the column past the rows or past a row's end,
      or looking position `row` up in a column shorter than that, panics. */
  method VisitCell(m: Matrix, row: nat, col: nat) returns (cell: Result<nat>)
    requires row < |m.data| && col < |m.data[0]| && col < |m.data[row]|
    ensures cell.Ok? <==> CellVisitable(m.data, row, col)
    ensures cell.Ok? ==> cell.value == VisibilityCell(m.data, row, col)
  {
    if row == 0 || row == m.Rows() - 1 || col == 0 || col == m.Cols() - 1 {
      return Ok(1);
    }
    var inRow := IsVisibleInRow(m.GetRow(row), col);
    if inRow {
      return Ok(1);
    }
    var column :- m.GetCol(col);
    if row >= |column| {
      return Err("index out of bounds");
    }
    var inCol := IsVisibleInRow(column, row);
    return Ok(if inCol then 1 else 0);
  }

  /** One row of get_visibility_matrix's loop: the first |data[0]| cells of
      row `row` of the copy `v` overwritten in place. `ok` is false when
      the loop panics. */
  method MarkRow(m: Matrix, v: Matrix, row: nat) returns (ok: bool)
    requires m != v && row < |m.data| && |v.data| == |m.data| && v.data[row] == m.data[row]
    modifies v
    ensures |v.data| == |m.data|
    ensures ok <==> RowVisitable(m.data, row)
    ensures ok ==> v.data[row] == VisibilityRow(m.data, row)
    ensures forall i :: 0 <= i < |v.data| && i != row ==> v.data[i] == old(v.data[i])
  {
    ghost var g := m.data;
    for col := 0 to m.Cols()
      invariant |v.data| == |g| && |v.data[row]| == |g[row]|
      invariant forall i :: 0 <= i < |v.data| && i != row ==> v.data[i] == old(v.data[i])
      invariant forall j :: 0 <= j < col ==> CellVisitable(g, row, j) && v.data[row][j] == VisibilityCell(g, row, j)
      invariant forall j :: col <= j < |g[row]| ==> v.data[row][j] == g[row][j]
    {
      if col >= |v.data[row]| {
        assert !CellVisitable(g, row, col);
        return false;
      }
      var cell := VisitCell(m, row, col);
      if cell.Err? {
        return false;
      }
      SetCellAt(v.data, row, col, cell.value);
      v.data := SetCell(v.data, row, col, cell.value);
    }
    VisibilityRowAt(g, row);
    assert v.data[row] == VisibilityRow(g, row);
    return true;
  }

  /** get_visibility_matrix: a copy of the heights, every visited cell
      overwritten in place with its visibility, row by row. It panics when
      init_matrix does or when the loop indexes out of bounds. */
  method VisibilityMatrix(input: string) returns (r: Result<Grid>)
    ensures r.Ok? <==> AllDigitLines(Split(input, '\n')) && GridVisitable(Heights(Split(input, '\n')))
    ensures r.Ok? ==> r.value == VisibilityGrid(Heights(Split(input, '\n')))
  {
    var g :- InitMatrix(input);
    var m := new Matrix(g);
    var v := new Matrix(g);
    for row := 0 to m.Rows()
      invariant m.data == g && |v.data| == |g|
      invariant forall i :: 0 <= i < row ==> RowVisitable(g, i) && v.data[i] == VisibilityRow(g, i)
      invariant forall i :: row <= i < |g| ==> v.data[i] == g[i]
    {
      var ok := MarkRow(m, v, row);
      if !ok {
        return Err("index out of bounds");
      }
    }
    forall i, c | 0 <= i < |g| && 0 <= c < |g[0]|
      ensures CellVisitable(g, i, c)
    {
      assert RowVisitable(g, i);
    }
    assert v.data == VisibilityGrid(g);
    return Ok(v.data);
  }

  // ---------------------------------------------------------------------
  // Counting visible trees

  /** The cells with a 1 in the first `k` rows of a matrix. */
  function Ones(v: Grid, k: nat): set<(nat, nat)>
    requires k <= |v|
  {
    set r: nat, c: nat | r < k && c < |v[r]| && v[r][c] == 1 :: (r, c)
  }

  /** The cells with a 1 among the first `k` of row `r`. */
  function RowOnes(v: Grid, r: nat, k: nat): set<(nat, nat)>
    requires r < |v| && k <= |v[r]|
  {
    set c: nat | c < k && v[r][c] == 1 :: (r, c)
  }

  predicate ZeroOne(v: Grid)
  {
    forall r, c :: 0 <= r < |v| && 0 <= c < |v[r]| ==> v[r][c] == 0 || v[r][c] == 1
  }

  lemma {:induction false} SumRow(v: Grid, r: nat, k: nat)
    requires ZeroOne(v) && r < |v| && k <= |v[r]|
    ensures Sum(v[r][..k]) == |RowOnes(v, r, k)|
  {
    if k > 0 {
      SumRow(v, r, k - 1);
      assert v[r][..k][..k - 1] == v[r][..k - 1];
      if v[r][k - 1] == 1 {
        assert RowOnes(v, r, k) == RowOnes(v, r, k - 1) + {(r, k - 1)};
      } else {
        assert RowOnes(v, r, k) == RowOnes(v, r, k - 1);
      }
    } else {
      assert RowOnes(v, r, k) == {};
    }
  }

  lemma {:induction false} SumRows(v: Grid, k: nat)
    requires ZeroOne(v) && k <= |v|
    ensures Sum(Flatten(v[..k])) == |Ones(v, k)|
  {
    if k > 0 {
      SumRows(v, k - 1);
      assert v[..k][..k - 1] == v[..k - 1];
      SumAppend(Flatten(v[..k - 1]), v[k - 1]);
      SumRow(v, k - 1, |v[k - 1]|);
      assert v[k - 1][..|v[k - 1]|] == v[k - 1];
      OnesStep(v, k);
    } else {
      assert Ones(v, k) == {};
    }
  }

  /** Row k-1 adds its own cells to those of the rows above it. */
  lemma OnesStep(v: Grid, k: nat)
    requires 0 < k <= |v|
    ensures |Ones(v, k)| == |Ones(v, k - 1)| + |RowOnes(v, k - 1, |v[k - 1]|)|
  {
    assert Ones(v, k) == Ones(v, k - 1) + RowOnes(v, k - 1, |v[k - 1]|);
    assert Ones(v, k - 1) !! RowOnes(v, k - 1, |v[k - 1]|);
  }

  /** The trees the loop finds visible, as cells. */
  function VisibleCells(g: Grid): set<(nat, nat)>
    requires GridVisitable(g)
  {
    set r: nat, c: nat | r < |g| && c < |g[0]| && VisibilityCell(g, r, c) == 1 :: (r, c)
  }

  /** On a grid whose rows are all as long as the first, summing the
      visibility matrix counts the visible trees. */
  lemma SumVisibility(g: Grid)
    requires GridVisitable(g) && IsRectangular(g)
    ensures Sum(Flatten(VisibilityGrid(g))) == |VisibleCells(g)|
  {
    var v := VisibilityGrid(g);
    forall r | 0 <= r < |v|
      ensures |v[r]| == |g[0]|
      ensures forall c :: 0 <= c < |g[0]| ==> v[r][c] == VisibilityCell(g, r, c)
    {
      VisibilityRowAt(g, r);
    }
    assert ZeroOne(v);
    SumRows(v, |v|);
    assert v[..|v|] == v;
    assert Ones(v, |v|) == VisibleCells(g);
  }

  /** Heights add up to a natural number, as the `usize` sum does. */
  lemma {:induction false} SumOfHeights(s: seq<nat>)
    ensures Sum(s) >= 0
  {
    if s != [] {
      SumOfHeights(s[..|s| - 1]);
    }
  }

  /** get_number_of_visible_trees: the sum of the visibility matrix, which
      counts the visible trees when the rows are all as long as the first. */
  method NumberOfVisibleTrees(input: string) returns (r: Result<nat>)
    ensures r.Ok? <==> AllDigitLines(Split(input, '\n')) && GridVisitable(Heights(Split(input, '\n')))
    ensures r.Ok? ==> r.value == Sum(Flatten(VisibilityGrid(Heights(Split(input, '\n')))))
    ensures r.Ok? && IsRectangular(Heights(Split(input, '\n'))) ==>
      r.value == |VisibleCells(Heights(Split(input, '\n')))|
  {
    var v :- VisibilityMatrix(input);
    var g := Heights(Split(input, '\n'));
    if IsRectangular(g) {
      SumVisibility(g);
    }
    SumOfHeights(Flatten(v));
    return Ok(Sum(Flatten(v)));
  }

  // ---------------------------------------------------------------------
  // Viewing distances

  /** Trees seen looking from just after position `z` towards the start of
      the line, for a tree of height `h`: each tree counts, and the first
      one at least `h` tall ends the view. */
  function LookBefore(line: seq<nat>, h: nat, z: nat): (d: nat)
    requires z <= |line|
    ensures d <= z
  {
    if z == 0 then 0
    else if line[z - 1] >= h then 1
    else 1 + LookBefore(line, h, z - 1)
  }

  /** Trees seen looking from position `z` towards the end of the line. */
  function LookFrom(line: seq<nat>, h: nat, z: nat): (d: nat)
    ensures z <= |line| ==> d <= |line| - z
    decreases |line| - z
  {
    if z >= |line| then 0
    else if line[z] >= h then 1
    else 1 + LookFrom(line, h, z + 1)
  }

  function DistanceBefore(line: seq<nat>, j: nat): nat
    requires j < |line|
  {
    LookBefore(line, line[j], j)
  }

  function DistanceAfter(line: seq<nat>, j: nat): nat
    requires j < |line|
  {
    LookFrom(line, line[j], j + 1)
  }

  lemma {:induction false} LookBeforeMeans(line: seq<nat>, h: nat, z: nat)
    requires z <= |line|
    ensures (LookBefore(line, h, z) == 0) == (z == 0)
    ensures forall k :: z - LookBefore(line, h, z) < k < z ==> line[k] < h
    ensures LookBefore(line, h, z) == z || line[z - LookBefore(line, h, z)] >= h
  {
    if z > 0 && line[z - 1] < h {
      LookBeforeMeans(line, h, z - 1);
    }
  }

  lemma {:induction false} LookFromMeans(line: seq<nat>, h: nat, z: nat)
    requires z <= |line|
    ensures (LookFrom(line, h, z) == 0) == (z == |line|)
    ensures forall k :: z <= k < z + LookFrom(line, h, z) - 1 ==> line[k] < h
    ensures z + LookFrom(line, h, z) == |line| || line[z + LookFrom(line, h, z) - 1] >= h
    decreases |line| - z
  {
    if z < |line| && line[z] < h {
      LookFromMeans(line, h, z + 1);
    }
  }

  /** Looking towards the start from `j`, the distance `d` reaches back to
      position j - d; every tree strictly between is shorter, and the view
      ends at a tree at least as tall or at the first tree of the line. It
      is 0 only for the first tree. */
  lemma DistanceBeforeMeans(line: seq<nat>, j: nat)
    requires j < |line|
    ensures DistanceBefore(line, j) <= j
    ensures DistanceBefore(line, j) == 0 <==> j == 0
    ensures forall k :: j - DistanceBefore(line, j) < k < j ==> line[k] < line[j]
    ensures DistanceBefore(line, j) == j || line[j - DistanceBefore(line, j)] >= line[j]
  {
    LookBeforeMeans(line, line[j], j);
  }

  /** Looking towards the end from `j`, the distance `d` reaches position
      j + d; every tree strictly between is shorter, and the view ends at a
      tree at least as tall or at the last tree. It is 0 only for the last
      tree. */
  lemma DistanceAfterMeans(line: seq<nat>, j: nat)
    requires j < |line|
    ensures j + DistanceAfter(line, j) < |line|
    ensures DistanceAfter(line, j) == 0 <==> j == |line| - 1
    ensures forall k :: j < k < j + DistanceAfter(line, j) ==> line[k] < line[j]
    ensures j + DistanceAfter(line, j) == |line| - 1 || line[j + DistanceAfter(line, j)] >= line[j]
  {
    LookFromMeans(line, line[j], j + 1);
  }

  /** The inner loop looking towards the start: one more tree per step,
      stopping after the first tree at least as tall. */
  method ViewBefore(line: seq<nat>, j: nat) returns (d: nat)
    requires j < |line|
    ensures d == DistanceBefore(line, j)
  {
    d := 0;
    var z: nat := j;
    while z > 0
      invariant z <= j
      invariant d + LookBefore(line, line[j], z) == DistanceBefore(line, j)
    {
      z := z - 1;
      d := d + 1;
      if line[z] >= line[j] {
        return;
      }
    }
  }

  /** The inner loop looking towards the end. */
  method ViewAfter(line: seq<nat>, j: nat) returns (d: nat)
    requires j < |line|
    ensures d == DistanceAfter(line, j)
  {
    d := 0;
    for z := j + 1 to |line|
      invariant d + LookFrom(line, line[j], z) == DistanceAfter(line, j)
    {
      d := d + 1;
      if line[z] >= line[j] {
        return;
      }
    }
  }

  datatype Direction = Up | Down | Left | Right

  /** get_col can read every column the first row has. */
  predicate ColumnsReadable(g: Grid)
  {
    |g| > 0 && forall c :: 0 <= c < |g[0]| ==> ColumnReadable(g, c)
  }

  /** No row is longer than the side of the result matrices, which is the
      number of rows. */
  predicate RowsFit(g: Grid)
  {
    |g| > 0 && forall r :: 0 <= r < |g| ==> |g[r]| <= |g|
  }

  /** get_viewing_distance_matrix stays in bounds in direction `dir`. */
  predicate Readable(g: Grid, dir: Direction)
  {
    if dir == Up || dir == Down then ColumnsReadable(g) else RowsFit(g)
  }

  /** Cell (r, c) of the viewing-distance matrix, whose side is the number
      of rows: looking up or down, the distance along the column get_col
      reads, for the |g[0]| by |g[0]| corner that loop writes; looking left
      or right, the distance along the row, for the cells the row has; 0 in
      the cells no loop writes. */
  function Distance(g: Grid, dir: Direction, r: nat, c: nat): nat
    requires Readable(g, dir) && r < |g| && c < |g|
  {
    match dir
    case Up => if r < |g[0]| && c < |g[0]| then DistanceBefore(Column(g, c), r) else 0
    case Down => if r < |g[0]| && c < |g[0]| then DistanceAfter(Column(g, c), r) else 0
    case Left => if c < |g[r]| then DistanceBefore(g[r], c) else 0
    case Right => if c < |g[r]| then DistanceAfter(g[r], c) else 0
  }

  /** The edge a direction looks towards. */
  predicate Facing(g: Grid, dir: Direction, r: nat, c: nat)
    requires |g| > 0
  {
    match dir
    case Up => r == 0
    case Down => r == Last(g)
    case Left => c == 0
    case Right => c == Last(g)
  }

  /** A square grid can be read in every direction. */
  lemma SquareReadable(g: Grid)
    requires IsSquare(g) && |g| > 0
    ensures ColumnsReadable(g) && RowsFit(g)
  {
    forall c | 0 <= c < |g[0]|
      ensures ColumnReadable(g, c)
    {
    }
  }

  /** On a square grid the viewing distance is 0 exactly for a tree on the
      edge it faces. */
  lemma DistanceZero(g: Grid, dir: Direction, r: nat, c: nat)
    requires IsSquare(g) && r < |g| && c < |g|
    ensures Readable(g, dir)
    ensures Distance(g, dir, r, c) == 0 <==> Facing(g, dir, r, c)
  {
    SquareReadable(g);
    match dir
    case Up => DistanceBeforeMeans(Column(g, c), r);
    case Down => DistanceAfterMeans(Column(g, c), r);
    case Left => DistanceBeforeMeans(g[r], c);
    case Right => DistanceAfterMeans(g[r], c);
  }

  function DistanceRow(g: Grid, dir: Direction, r: nat): seq<nat>
    requires Readable(g, dir) && r < |g|
  {
    seq(|g|, c requires 0 <= c < |g| => Distance(g, dir, r, c))
  }

  function DistanceGrid(g: Grid, dir: Direction): Grid
    requires Readable(g, dir)
  {
    seq(|g|, r requires 0 <= r < |g| => DistanceRow(g, dir, r))
  }

  /** The viewing distances along one line, towards its start or its end. */
  function LineDistances(line: seq<nat>, backward: bool): seq<nat>
  {
    seq(|line|, j requires 0 <= j < |line| => if backward then DistanceBefore(line, j) else DistanceAfter(line, j))
  }

  /** The viewing distances of one column written into column `i` of `m`.
      Looking up, the walk starts at the second tree, so the first keeps the
      zero it was created with. */
  method FillColumn(m: Matrix, col: seq<nat>, i: nat, up: bool)
    requires IsSquare(m.data) && |col| <= |m.data| && i < |m.data|
    modifies m
    ensures |m.data| == |old(m.data)| && IsSquare(m.data)
    ensures forall r, c :: 0 <= r < |m.data| && 0 <= c < |m.data| ==>
      m.data[r][c] == (if c != i || (up && r == 0) || r >= |col| then old(m.data[r][c]) else LineDistances(col, up)[r])
  {
    var start := if up && |col| > 0 then 1 else 0;
    for j := start to |col|
      invariant |m.data| == |old(m.data)| && IsSquare(m.data)
      invariant forall r, c :: 0 <= r < |m.data| && 0 <= c < |m.data| ==>
        m.data[r][c] == (if c != i || r < start || r >= j then old(m.data[r][c]) else LineDistances(col, up)[r])
    {
      var d;
      if up {
        d := ViewBefore(col, j);
      } else {
        d := ViewAfter(col, j);
      }
      assert d == LineDistances(col, up)[j];
      SetCellAt(m.data, j, i, d);
      m.Set(j, i, d);
    }
  }

  /** The viewing distances of one row written into row `i` of `m`; a row
      longer than `m` is written up to the edge of `m`, where `set` panics. */
  method FillRow(m: Matrix, row: seq<nat>, i: nat, left: bool) returns (ok: bool)
    requires IsSquare(m.data) && i < |m.data|
    modifies m
    ensures |m.data| == |old(m.data)| && IsSquare(m.data)
    ensures ok <==> |row| <= |m.data|
    ensures ok ==> forall c :: 0 <= c < |m.data| ==>
      m.data[i][c] == if c < |row| then LineDistances(row, left)[c] else old(m.data[i][c])
    ensures forall r :: 0 <= r < |m.data| && r != i ==> m.data[r] == old(m.data[r])
  {
    for j := 0 to |row|
      invariant |m.data| == |old(m.data)| && IsSquare(m.data) && j <= |m.data|
      invariant forall r :: 0 <= r < |m.data| && r != i ==> m.data[r] == old(m.data[r])
      invariant forall c :: 0 <= c < |m.data| ==>
        m.data[i][c] == if c < j then LineDistances(row, left)[c] else old(m.data[i][c])
    {
      if j >= |m.data| {
        return false;
      }
      var d;
      if left {
        d := ViewBefore(row, j);
      } else {
        d := ViewAfter(row, j);
      }
      assert d == LineDistances(row, left)[j];
      SetCellAt(m.data, i, j, d);
      m.Set(i, j, d);
    }
    return true;
  }

  /** Looking up or down, a cell's distance is the one its column gives,
      inside the corner get_col reads, and 0 outside it. */
  lemma ColumnDistance(g: Grid, dir: Direction, r: nat, c: nat)
    requires (dir == Up || dir == Down) && ColumnsReadable(g) && r < |g| && c < |g|
    ensures Distance(g, dir, r, c) ==
      if r < |g[0]| && c < |g[0]| then LineDistances(Column(g, c), dir == Up)[r] else 0
  {
  }

  /** The up and down branch: one column at a time, each as get_col reads
      it. `ok` is false when get_col panics. */
  method FillColumns(input: Matrix, m: Matrix, dir: Direction) returns (ok: bool)
    requires dir == Up || dir == Down
    requires m != input && |input.data| > 0
    requires m.data == Zeros(|input.data|)
    modifies m
    ensures ok <==> ColumnsReadable(input.data)
    ensures ok ==> m.data == DistanceGrid(input.data, dir)
  {
    var g := input.data;
    var n := |g|;
    var up := dir == Up;
    var cols := input.Cols();
    for i := 0 to cols
      invariant |m.data| == n && IsSquare(m.data)
      invariant forall c :: 0 <= c < i ==> ColumnReadable(g, c)
      invariant forall r, c :: 0 <= r < n && 0 <= c < n ==>
        m.data[r][c] == (if c < i && r < |g[0]| then LineDistances(Column(g, c), up)[r] else 0)
    {
      var col := input.GetCol(i);
      if col.Err? {
        return false;
      }
      FillColumn(m, col.value, i, up);
    }
    assert cols == |g[0]|;
    forall r, c | 0 <= r < n && 0 <= c < n
      ensures m.data[r][c] == Distance(g, dir, r, c)
    {
      ColumnDistance(g, dir, r, c);
      assert m.data[r][c] == (if c < cols && r < |g[0]| then LineDistances(Column(g, c), up)[r] else 0);
    }
    forall r | 0 <= r < n
      ensures m.data[r] == DistanceRow(g, dir, r)
    {
      assert forall c :: 0 <= c < n ==> m.data[r][c] == DistanceRow(g, dir, r)[c];
    }
    assert m.data == DistanceGrid(g, dir);
    return true;
  }

  /** The left and right branch: one row at a time. `ok` is false when a
      row is longer than the result matrix. */
  method FillRows(input: Matrix, m: Matrix, dir: Direction) returns (ok: bool)
    requires dir == Left || dir == Right
    requires m != input && |input.data| > 0
    requires m.data == Zeros(|input.data|)
    modifies m
    ensures ok <==> RowsFit(input.data)
    ensures ok ==> m.data == DistanceGrid(input.data, dir)
  {
    var g := input.data;
    var n := |g|;
    var left := dir == Left;
    for i := 0 to input.Rows()
      invariant |m.data| == n && IsSquare(m.data)
      invariant forall r :: 0 <= r < i ==> |g[r]| <= n
      invariant forall r, c :: 0 <= r < n && 0 <= c < n ==>
        m.data[r][c] == (if r < i && c < |g[r]| then LineDistances(g[r], left)[c] else 0)
    {
      var fits := FillRow(m, input.GetRow(i), i, left);
      if !fits {
        return false;
      }
    }
    forall r | 0 <= r < n
      ensures m.data[r] == DistanceRow(g, dir, r)
    {
      assert forall c :: 0 <= c < n ==> m.data[r][c] == DistanceRow(g, dir, r)[c];
    }
    assert m.data == DistanceGrid(g, dir);
    return true;
  }

  /** get_viewing_distance_matrix: a zero matrix with as many rows and
      columns as the input has rows, filled column by column looking up or
      down, row by row looking left or right. */
  method ViewingDistanceMatrix(input: Matrix, dir: Direction) returns (d: Result<Grid>)
    requires |input.data| > 0
    ensures d.Ok? <==> Readable(input.data, dir)
    ensures d.Ok? ==> d.value == DistanceGrid(input.data, dir)
  {
    var m := new Matrix.FromSize(input.Rows());
    var ok;
    if dir == Up || dir == Down {
      ok := FillColumns(input, m, dir);
    } else {
      ok := FillRows(input, m, dir);
    }
    if !ok {
      return Err("index out of bounds");
    }
    return Ok(m.data);
  }

  // ---------------------------------------------------------------------
  // Scenic scores

  /** All four viewing-distance matrices can be built. */
  predicate ScenicReadable(g: Grid)
  {
    ColumnsReadable(g) && RowsFit(g)
  }

  /** The product of the four viewing distances. */
  function Scenic(g: Grid, r: nat, c: nat): nat
    requires ScenicReadable(g) && r < |g| && c < |g|
  {
    Mul(Mul(Mul(Distance(g, Down, r, c), Distance(g, Up, r, c)), Distance(g, Left, r, c)), Distance(g, Right, r, c))
  }

  function Mul(a: nat, b: nat): nat
  {
    a * b
  }

  lemma MulZero(a: nat, b: nat)
    ensures Mul(a, b) == 0 <==> a == 0 || b == 0
  {
    if a > 0 && b > 0 {
      assert a * b >= b;
    }
  }

  function ScenicRow(g: Grid, r: nat): seq<nat>
    requires ScenicReadable(g) && r < |g|
  {
    seq(|g|, c requires 0 <= c < |g| => Scenic(g, r, c))
  }

  function ScenicGrid(g: Grid): Grid
    requires ScenicReadable(g)
  {
    seq(|g|, r requires 0 <= r < |g| => ScenicRow(g, r))
  }

  /** On a square grid a scenic score is 0 exactly on the border, where one
      view is empty. */
  lemma ScenicZero(g: Grid, r: nat, c: nat)
    requires IsSquare(g) && r < |g| && c < |g|
    ensures ScenicReadable(g)
    ensures Scenic(g, r, c) == 0 <==> OnBorder(g, r, c)
  {
    SquareReadable(g);
    DistanceZero(g, Up, r, c);
    DistanceZero(g, Down, r, c);
    DistanceZero(g, Left, r, c);
    DistanceZero(g, Right, r, c);
    var (dd, du, dl, dr) := (Distance(g, Down, r, c), Distance(g, Up, r, c), Distance(g, Left, r, c), Distance(g, Right, r, c));
    MulZero(dd, du);
    MulZero(Mul(dd, du), dl);
    MulZero(Mul(Mul(dd, du), dl), dr);
  }

  /** One row of get_scenic_score's loop. */
  method ScoreRow(g: Grid, m: Matrix, md: Grid, mu: Grid, ml: Grid, mr: Grid, i: nat)
    requires ScenicReadable(g) && i < |g|
    requires md == DistanceGrid(g, Down) && mu == DistanceGrid(g, Up)
    requires ml == DistanceGrid(g, Left) && mr == DistanceGrid(g, Right)
    requires |m.data| == |g| && IsSquare(m.data)
    modifies m
    ensures |m.data| == |g| && IsSquare(m.data)
    ensures m.data[i] == ScenicRow(g, i)
    ensures forall r :: 0 <= r < |g| && r != i ==> m.data[r] == old(m.data[r])
  {
    for j := 0 to |md[0]|
      invariant |m.data| == |g| && IsSquare(m.data)
      invariant forall r :: 0 <= r < |g| && r != i ==> m.data[r] == old(m.data[r])
      invariant forall c :: 0 <= c < j ==> m.data[i][c] == Scenic(g, i, c)
    {
      var score := Mul(Mul(Mul(md[i][j], mu[i][j]), ml[i][j]), mr[i][j]);
      assert score == Scenic(g, i, j);
      SetCellAt(m.data, i, j, score);
      m.Set(i, j, score);
    }
  }

  /** get_scenic_score: the four distance matrices multiplied cell by cell
      into a fresh zero matrix. It panics when one of them does. */
  method ScenicScore(input: Matrix) returns (s: Result<Grid>)
    requires |input.data| > 0
    ensures s.Ok? <==> ScenicReadable(input.data)
    ensures s.Ok? ==> s.value == ScenicGrid(input.data)
  {
    var g := input.data;
    var md :- ViewingDistanceMatrix(input, Down);
    var mu :- ViewingDistanceMatrix(input, Up);
    var ml :- ViewingDistanceMatrix(input, Left);
    var mr :- ViewingDistanceMatrix(input, Right);
    var m := new Matrix.FromSize(|md|);
    for i := 0 to |md|
      invariant |m.data| == |g| && IsSquare(m.data)
      invariant forall r :: 0 <= r < i ==> m.data[r] == ScenicRow(g, r)
    {
      ScoreRow(g, m, md, mu, ml, mr, i);
    }
    assert m.data == ScenicGrid(g);
    return Ok(m.data);
  }

  /** Every value of the concatenated rows is a cell of the grid. */
  lemma {:induction false} FlattenMember(v: Grid, x: nat)
    requires x in Flatten(v)
    ensures exists r, c :: 0 <= r < |v| && 0 <= c < |v[r]| && v[r][c] == x
  {
    var init := v[..|v| - 1];
    if x in Flatten(init) {
      FlattenMember(init, x);
      var r, c :| 0 <= r < |init| && 0 <= c < |init[r]| && init[r][c] == x;
      assert v[r][c] == x;
    } else {
      var c :| 0 <= c < |v[|v| - 1]| && v[|v| - 1][c] == x;
    }
  }

  /** `best` is the scenic score of some cell and no cell scores more. */
  predicate IsBestScenic(g: Grid, best: nat)
    requires ScenicReadable(g)
  {
    (exists r, c :: 0 <= r < |g| && 0 <= c < |g| && best == Scenic(g, r, c)) &&
    (forall r, c :: 0 <= r < |g| && 0 <= c < |g| ==> Scenic(g, r, c) <= best)
  }

  /** The largest value of the scenic grid is the best scenic score. */
  lemma MaxOfScenicGrid(g: Grid)
    requires ScenicReadable(g)
    ensures |Flatten(ScenicGrid(g))| > 0
    ensures IsBestScenic(g, Max(Flatten(ScenicGrid(g))))
  {
    var s := ScenicGrid(g);
    var flat := Flatten(s);
    FlattenHas(s, 0, 0);
    var best := Max(flat);
    FlattenMember(s, best);
    forall r, c | 0 <= r < |g| && 0 <= c < |g|
      ensures Scenic(g, r, c) <= best
    {
      FlattenHas(s, r, c);
      assert s[r][c] == Scenic(g, r, c);
    }
  }

  /** get_max_scenic_score: the largest scenic score, reached at some cell
      and at least every cell's score. */
  method MaxScenicScore(input: Matrix) returns (best: Result<nat>)
    requires |input.data| > 0
    ensures best.Ok? <==> ScenicReadable(input.data)
    ensures best.Ok? ==> IsBestScenic(input.data, best.value)
  {
    var s :- ScenicScore(input);
    MaxOfScenicGrid(input.data);
    return Ok(Max(Flatten(s)));
  }

  /** get_scenic_score_from_string: the heights read from the input, then
      their largest scenic score. */
  method ScenicScoreFromString(input: string) returns (r: Result<nat>)
    ensures r.Ok? <==> AllDigitLines(Split(input, '\n')) && ScenicReadable(Heights(Split(input, '\n')))
    ensures r.Ok? ==> IsBestScenic(Heights(Split(input, '\n')), r.value)
  {
    var g :- InitMatrix(input);
    var m := new Matrix(g);
    r := MaxScenicScore(m);
  }
}
