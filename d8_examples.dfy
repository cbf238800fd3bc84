/** The 5 by 5 example grid of the day 8 tests, checked against the
    expected matrices of those tests, and a grid with more rows than
    columns. */
module TreesExamples {
  import opened Trees
  import opened Seqs
  import opened Text

  const EXAMPLE: Grid := [[3, 0, 3, 7, 3], [2, 5, 5, 1, 2], [6, 5, 3, 3, 2], [3, 3, 5, 4, 9], [3, 5, 3, 9, 0]]

  /** The example is a square grid. */
  lemma ExampleSquare()
    ensures IsSquare(EXAMPLE) && |EXAMPLE| == 5
  {
    forall r | 0 <= r < |EXAMPLE|
      ensures |EXAMPLE[r]| == |EXAMPLE|
    {
      assert r == 0 || r == 1 || r == 2 || r == 3 || r == 4;
    }
  }

  /** The two rows of test_is_visible_in_row. */
  lemma ExampleVisibleInRow()
    ensures VisibleInLine([2, 3, 1, 4, 7, 4, 6, 2], 0)
    ensures VisibleInLine([2, 3, 1, 4, 7, 4, 6, 2], 1)
    ensures !VisibleInLine([2, 3, 1, 4, 7, 4, 6, 2], 2)
    ensures VisibleInLine([2, 3, 1, 4, 7, 4, 6, 2], 3)
    ensures VisibleInLine([2, 3, 1, 4, 7, 4, 6, 2], 4)
    ensures !VisibleInLine([2, 3, 1, 4, 7, 4, 6, 2], 5)
    ensures VisibleInLine([2, 3, 1, 4, 7, 4, 6, 2], 6)
    ensures VisibleInLine([2, 3, 1, 4, 7, 4, 6, 2], 7)
    ensures VisibleInLine([3, 3, 5, 4, 9], 0)
    ensures !VisibleInLine([3, 3, 5, 4, 9], 1)
    ensures VisibleInLine([3, 3, 5, 4, 9], 2)
    ensures !VisibleInLine([3, 3, 5, 4, 9], 3)
    ensures VisibleInLine([3, 3, 5, 4, 9], 4)
  {
  }

  /** test_matrix2d_get_col, extended to every column. */
  lemma ExampleColumns()
    ensures Column(EXAMPLE, 0) == [3, 2, 6, 3, 3]
    ensures Column(EXAMPLE, 1) == [0, 5, 5, 3, 5]
    ensures Column(EXAMPLE, 2) == [3, 5, 3, 5, 3]
    ensures Column(EXAMPLE, 3) == [7, 1, 3, 4, 9]
    ensures Column(EXAMPLE, 4) == [3, 2, 2, 9, 0]
  {
    ExampleSquare();
    assert Column(EXAMPLE, 0) == [3, 2, 6, 3, 3] by {
      assert Column(EXAMPLE, 0)[0] == 3;
      assert Column(EXAMPLE, 0)[1] == 2;
      assert Column(EXAMPLE, 0)[2] == 6;
      assert Column(EXAMPLE, 0)[3] == 3;
      assert Column(EXAMPLE, 0)[4] == 3;
    }
    assert Column(EXAMPLE, 1) == [0, 5, 5, 3, 5] by {
      assert Column(EXAMPLE, 1)[0] == 0;
      assert Column(EXAMPLE, 1)[1] == 5;
      assert Column(EXAMPLE, 1)[2] == 5;
      assert Column(EXAMPLE, 1)[3] == 3;
      assert Column(EXAMPLE, 1)[4] == 5;
    }
    assert Column(EXAMPLE, 2) == [3, 5, 3, 5, 3] by {
      assert Column(EXAMPLE, 2)[0] == 3;
      assert Column(EXAMPLE, 2)[1] == 5;
      assert Column(EXAMPLE, 2)[2] == 3;
      assert Column(EXAMPLE, 2)[3] == 5;
      assert Column(EXAMPLE, 2)[4] == 3;
    }
    assert Column(EXAMPLE, 3) == [7, 1, 3, 4, 9] by {
      assert Column(EXAMPLE, 3)[0] == 7;
      assert Column(EXAMPLE, 3)[1] == 1;
      assert Column(EXAMPLE, 3)[2] == 3;
      assert Column(EXAMPLE, 3)[3] == 4;
      assert Column(EXAMPLE, 3)[4] == 9;
    }
    assert Column(EXAMPLE, 4) == [3, 2, 2, 9, 0] by {
      assert Column(EXAMPLE, 4)[0] == 3;
      assert Column(EXAMPLE, 4)[1] == 2;
      assert Column(EXAMPLE, 4)[2] == 2;
      assert Column(EXAMPLE, 4)[3] == 9;
      assert Column(EXAMPLE, 4)[4] == 0;
    }
  }

  lemma ExampleTextLines()
    ensures SmallHeights(EXAMPLE)
    ensures TextLines(EXAMPLE) == ["30373", "25512", "65332", "33549", "35390"]
  {
    var lines := TextLines(EXAMPLE);
    assert lines[0] == "30373" by {
      assert lines[0][0] == '3';
      assert lines[0][1] == '0';
      assert lines[0][2] == '3';
      assert lines[0][3] == '7';
      assert lines[0][4] == '3';
    }
    assert lines[1] == "25512" by {
      assert lines[1][0] == '2';
      assert lines[1][1] == '5';
      assert lines[1][2] == '5';
      assert lines[1][3] == '1';
      assert lines[1][4] == '2';
    }
    assert lines[2] == "65332" by {
      assert lines[2][0] == '6';
      assert lines[2][1] == '5';
      assert lines[2][2] == '3';
      assert lines[2][3] == '3';
      assert lines[2][4] == '2';
    }
    assert lines[3] == "33549" by {
      assert lines[3][0] == '3';
      assert lines[3][1] == '3';
      assert lines[3][2] == '5';
      assert lines[3][3] == '4';
      assert lines[3][4] == '9';
    }
    assert lines[4] == "35390" by {
      assert lines[4][0] == '3';
      assert lines[4][1] == '5';
      assert lines[4][2] == '3';
      assert lines[4][3] == '9';
      assert lines[4][4] == '0';
    }
  }

  /** test_init_ndarray: the five lines of the example read as the example
      grid. */
  lemma ExampleInitMatrix()
    ensures AllDigitLines(Split(Join(["30373", "25512", "65332", "33549", "35390"], '\n'), '\n'))
    ensures Heights(Split(Join(["30373", "25512", "65332", "33549", "35390"], '\n'), '\n')) == EXAMPLE
  {
    ExampleSquare();
    ExampleTextLines();
    HeightsOfText(EXAMPLE);
  }

  lemma ExampleUpRow0()
    ensures DistanceRow(EXAMPLE, Up, 0) == [0, 0, 0, 0, 0]
  {
    ExampleSquare();
    ExampleColumns();
    assert Distance(EXAMPLE, Up, 0, 0) == 0;
    assert Distance(EXAMPLE, Up, 0, 1) == 0;
    assert Distance(EXAMPLE, Up, 0, 2) == 0;
    assert Distance(EXAMPLE, Up, 0, 3) == 0;
    assert Distance(EXAMPLE, Up, 0, 4) == 0;
  }

  lemma ExampleUpRow1()
    ensures DistanceRow(EXAMPLE, Up, 1) == [1, 1, 1, 1, 1]
  {
    ExampleSquare();
    ExampleColumns();
    assert Distance(EXAMPLE, Up, 1, 0) == 1;
    assert Distance(EXAMPLE, Up, 1, 1) == 1;
    assert Distance(EXAMPLE, Up, 1, 2) == 1;
    assert Distance(EXAMPLE, Up, 1, 3) == 1;
    assert Distance(EXAMPLE, Up, 1, 4) == 1;
  }

  lemma ExampleUpRow2()
    ensures DistanceRow(EXAMPLE, Up, 2) == [2, 1, 1, 2, 1]
  {
    ExampleSquare();
    ExampleColumns();
    assert Distance(EXAMPLE, Up, 2, 0) == 2;
    assert Distance(EXAMPLE, Up, 2, 1) == 1;
    assert Distance(EXAMPLE, Up, 2, 2) == 1;
    assert Distance(EXAMPLE, Up, 2, 3) == 2;
    assert Distance(EXAMPLE, Up, 2, 4) == 1;
  }

  lemma ExampleUpRow3()
    ensures DistanceRow(EXAMPLE, Up, 3) == [1, 1, 2, 3, 3]
  {
    ExampleSquare();
    ExampleColumns();
    assert Distance(EXAMPLE, Up, 3, 0) == 1;
    assert Distance(EXAMPLE, Up, 3, 1) == 1;
    assert Distance(EXAMPLE, Up, 3, 2) == 2;
    assert Distance(EXAMPLE, Up, 3, 3) == 3;
    assert Distance(EXAMPLE, Up, 3, 4) == 3;
  }

  lemma ExampleUpRow4()
    ensures DistanceRow(EXAMPLE, Up, 4) == [1, 2, 1, 4, 1]
  {
    ExampleSquare();
    ExampleColumns();
    assert Distance(EXAMPLE, Up, 4, 0) == 1;
    assert Distance(EXAMPLE, Up, 4, 1) == 2;
    assert Distance(EXAMPLE, Up, 4, 2) == 1;
    assert Distance(EXAMPLE, Up, 4, 3) == 4;
    assert Distance(EXAMPLE, Up, 4, 4) == 1;
  }

  /** test_get_viewing_distance_matrix, looking up. */
  lemma ExampleUpDistances()
    ensures DistanceGrid(EXAMPLE, Up) == [[0, 0, 0, 0, 0], [1, 1, 1, 1, 1], [2, 1, 1, 2, 1], [1, 1, 2, 3, 3], [1, 2, 1, 4, 1]]
  {
    ExampleSquare();
    ExampleUpRow0();
    ExampleUpRow1();
    ExampleUpRow2();
    ExampleUpRow3();
    ExampleUpRow4();
  }

  lemma ExampleDownRow0()
    ensures DistanceRow(EXAMPLE, Down, 0) == [2, 1, 1, 4, 3]
  {
    ExampleSquare();
    ExampleColumns();
    assert Distance(EXAMPLE, Down, 0, 0) == 2;
    assert Distance(EXAMPLE, Down, 0, 1) == 1;
    assert Distance(EXAMPLE, Down, 0, 2) == 1;
    assert Distance(EXAMPLE, Down, 0, 3) == 4;
    assert Distance(EXAMPLE, Down, 0, 4) == 3;
  }

  lemma ExampleDownRow1()
    ensures DistanceRow(EXAMPLE, Down, 1) == [1, 1, 2, 1, 1]
  {
    ExampleSquare();
    ExampleColumns();
    assert Distance(EXAMPLE, Down, 1, 0) == 1;
    assert Distance(EXAMPLE, Down, 1, 1) == 1;
    assert Distance(EXAMPLE, Down, 1, 2) == 2;
    assert Distance(EXAMPLE, Down, 1, 3) == 1;
    assert Distance(EXAMPLE, Down, 1, 4) == 1;
  }

  lemma ExampleDownRow2()
    ensures DistanceRow(EXAMPLE, Down, 2) == [2, 2, 1, 1, 1]
  {
    ExampleSquare();
    ExampleColumns();
    assert Distance(EXAMPLE, Down, 2, 0) == 2;
    assert Distance(EXAMPLE, Down, 2, 1) == 2;
    assert Distance(EXAMPLE, Down, 2, 2) == 1;
    assert Distance(EXAMPLE, Down, 2, 3) == 1;
    assert Distance(EXAMPLE, Down, 2, 4) == 1;
  }

  lemma ExampleDownRow3()
    ensures DistanceRow(EXAMPLE, Down, 3) == [1, 1, 1, 1, 1]
  {
    ExampleSquare();
    ExampleColumns();
    assert Distance(EXAMPLE, Down, 3, 0) == 1;
    assert Distance(EXAMPLE, Down, 3, 1) == 1;
    assert Distance(EXAMPLE, Down, 3, 2) == 1;
    assert Distance(EXAMPLE, Down, 3, 3) == 1;
    assert Distance(EXAMPLE, Down, 3, 4) == 1;
  }

  lemma ExampleDownRow4()
    ensures DistanceRow(EXAMPLE, Down, 4) == [0, 0, 0, 0, 0]
  {
    ExampleSquare();
    ExampleColumns();
    assert Distance(EXAMPLE, Down, 4, 0) == 0;
    assert Distance(EXAMPLE, Down, 4, 1) == 0;
    assert Distance(EXAMPLE, Down, 4, 2) == 0;
    assert Distance(EXAMPLE, Down, 4, 3) == 0;
    assert Distance(EXAMPLE, Down, 4, 4) == 0;
  }

  /** test_get_viewing_distance_matrix, looking down. */
  lemma ExampleDownDistances()
    ensures DistanceGrid(EXAMPLE, Down) == [[2, 1, 1, 4, 3], [1, 1, 2, 1, 1], [2, 2, 1, 1, 1], [1, 1, 1, 1, 1], [0, 0, 0, 0, 0]]
  {
    ExampleSquare();
    ExampleDownRow0();
    ExampleDownRow1();
    ExampleDownRow2();
    ExampleDownRow3();
    ExampleDownRow4();
  }

  lemma ExampleLeftRow0()
    ensures DistanceRow(EXAMPLE, Left, 0) == [0, 1, 2, 3, 1]
  {
    ExampleSquare();
    assert Distance(EXAMPLE, Left, 0, 0) == 0;
    assert Distance(EXAMPLE, Left, 0, 1) == 1;
    assert Distance(EXAMPLE, Left, 0, 2) == 2;
    assert Distance(EXAMPLE, Left, 0, 3) == 3;
    assert Distance(EXAMPLE, Left, 0, 4) == 1;
  }

  lemma ExampleLeftRow1()
    ensures DistanceRow(EXAMPLE, Left, 1) == [0, 1, 1, 1, 2]
  {
    ExampleSquare();
    assert Distance(EXAMPLE, Left, 1, 0) == 0;
    assert Distance(EXAMPLE, Left, 1, 1) == 1;
    assert Distance(EXAMPLE, Left, 1, 2) == 1;
    assert Distance(EXAMPLE, Left, 1, 3) == 1;
    assert Distance(EXAMPLE, Left, 1, 4) == 2;
  }

  lemma ExampleLeftRow2()
    ensures DistanceRow(EXAMPLE, Left, 2) == [0, 1, 1, 1, 1]
  {
    ExampleSquare();
    assert Distance(EXAMPLE, Left, 2, 0) == 0;
    assert Distance(EXAMPLE, Left, 2, 1) == 1;
    assert Distance(EXAMPLE, Left, 2, 2) == 1;
    assert Distance(EXAMPLE, Left, 2, 3) == 1;
    assert Distance(EXAMPLE, Left, 2, 4) == 1;
  }

  lemma ExampleLeftRow3()
    ensures DistanceRow(EXAMPLE, Left, 3) == [0, 1, 2, 1, 4]
  {
    ExampleSquare();
    assert Distance(EXAMPLE, Left, 3, 0) == 0;
    assert Distance(EXAMPLE, Left, 3, 1) == 1;
    assert Distance(EXAMPLE, Left, 3, 2) == 2;
    assert Distance(EXAMPLE, Left, 3, 3) == 1;
    assert Distance(EXAMPLE, Left, 3, 4) == 4;
  }

  lemma ExampleLeftRow4()
    ensures DistanceRow(EXAMPLE, Left, 4) == [0, 1, 1, 3, 1]
  {
    ExampleSquare();
    assert Distance(EXAMPLE, Left, 4, 0) == 0;
    assert Distance(EXAMPLE, Left, 4, 1) == 1;
    assert Distance(EXAMPLE, Left, 4, 2) == 1;
    assert Distance(EXAMPLE, Left, 4, 3) == 3;
    assert Distance(EXAMPLE, Left, 4, 4) == 1;
  }

  /** test_get_viewing_distance_matrix, looking left. */
  lemma ExampleLeftDistances()
    ensures DistanceGrid(EXAMPLE, Left) == [[0, 1, 2, 3, 1], [0, 1, 1, 1, 2], [0, 1, 1, 1, 1], [0, 1, 2, 1, 4], [0, 1, 1, 3, 1]]
  {
    ExampleSquare();
    ExampleLeftRow0();
    ExampleLeftRow1();
    ExampleLeftRow2();
    ExampleLeftRow3();
    ExampleLeftRow4();
  }

  lemma ExampleRightRow0()
    ensures DistanceRow(EXAMPLE, Right, 0) == [2, 1, 1, 1, 0]
  {
    ExampleSquare();
    assert Distance(EXAMPLE, Right, 0, 0) == 2;
    assert Distance(EXAMPLE, Right, 0, 1) == 1;
    assert Distance(EXAMPLE, Right, 0, 2) == 1;
    assert Distance(EXAMPLE, Right, 0, 3) == 1;
    assert Distance(EXAMPLE, Right, 0, 4) == 0;
  }

  lemma ExampleRightRow1()
    ensures DistanceRow(EXAMPLE, Right, 1) == [1, 1, 2, 1, 0]
  {
    ExampleSquare();
    assert Distance(EXAMPLE, Right, 1, 0) == 1;
    assert Distance(EXAMPLE, Right, 1, 1) == 1;
    assert Distance(EXAMPLE, Right, 1, 2) == 2;
    assert Distance(EXAMPLE, Right, 1, 3) == 1;
    assert Distance(EXAMPLE, Right, 1, 4) == 0;
  }

  lemma ExampleRightRow2()
    ensures DistanceRow(EXAMPLE, Right, 2) == [4, 3, 1, 1, 0]
  {
    ExampleSquare();
    assert Distance(EXAMPLE, Right, 2, 0) == 4;
    assert Distance(EXAMPLE, Right, 2, 1) == 3;
    assert Distance(EXAMPLE, Right, 2, 2) == 1;
    assert Distance(EXAMPLE, Right, 2, 3) == 1;
    assert Distance(EXAMPLE, Right, 2, 4) == 0;
  }

  lemma ExampleRightRow3()
    ensures DistanceRow(EXAMPLE, Right, 3) == [1, 1, 2, 1, 0]
  {
    ExampleSquare();
    assert Distance(EXAMPLE, Right, 3, 0) == 1;
    assert Distance(EXAMPLE, Right, 3, 1) == 1;
    assert Distance(EXAMPLE, Right, 3, 2) == 2;
    assert Distance(EXAMPLE, Right, 3, 3) == 1;
    assert Distance(EXAMPLE, Right, 3, 4) == 0;
  }

  lemma ExampleRightRow4()
    ensures DistanceRow(EXAMPLE, Right, 4) == [1, 2, 1, 1, 0]
  {
    ExampleSquare();
    assert Distance(EXAMPLE, Right, 4, 0) == 1;
    assert Distance(EXAMPLE, Right, 4, 1) == 2;
    assert Distance(EXAMPLE, Right, 4, 2) == 1;
    assert Distance(EXAMPLE, Right, 4, 3) == 1;
    assert Distance(EXAMPLE, Right, 4, 4) == 0;
  }

  /** test_get_viewing_distance_matrix, looking right. */
  lemma ExampleRightDistances()
    ensures DistanceGrid(EXAMPLE, Right) == [[2, 1, 1, 1, 0], [1, 1, 2, 1, 0], [4, 3, 1, 1, 0], [1, 1, 2, 1, 0], [1, 2, 1, 1, 0]]
  {
    ExampleSquare();
    ExampleRightRow0();
    ExampleRightRow1();
    ExampleRightRow2();
    ExampleRightRow3();
    ExampleRightRow4();
  }

  lemma ExampleVisibilityRow0()
    ensures VisibilityRow(EXAMPLE, 0) == [1, 1, 1, 1, 1]
  {
    ExampleSquare();
    ExampleColumns();
    assert VisibilityCell(EXAMPLE, 0, 0) == 1;
    assert VisibilityCell(EXAMPLE, 0, 1) == 1;
    assert VisibilityCell(EXAMPLE, 0, 2) == 1;
    assert VisibilityCell(EXAMPLE, 0, 3) == 1;
    assert VisibilityCell(EXAMPLE, 0, 4) == 1;
  }

  lemma ExampleVisibilityRow1()
    ensures VisibilityRow(EXAMPLE, 1) == [1, 1, 1, 0, 1]
  {
    ExampleSquare();
    ExampleColumns();
    assert VisibilityCell(EXAMPLE, 1, 0) == 1;
    assert VisibilityCell(EXAMPLE, 1, 1) == 1;
    assert VisibilityCell(EXAMPLE, 1, 2) == 1;
    assert VisibilityCell(EXAMPLE, 1, 3) == 0;
    assert VisibilityCell(EXAMPLE, 1, 4) == 1;
  }

  lemma ExampleVisibilityRow2()
    ensures VisibilityRow(EXAMPLE, 2) == [1, 1, 0, 1, 1]
  {
    ExampleSquare();
    ExampleColumns();
    assert VisibilityCell(EXAMPLE, 2, 0) == 1;
    assert VisibilityCell(EXAMPLE, 2, 1) == 1;
    assert VisibilityCell(EXAMPLE, 2, 2) == 0;
    assert VisibilityCell(EXAMPLE, 2, 3) == 1;
    assert VisibilityCell(EXAMPLE, 2, 4) == 1;
  }

  lemma ExampleVisibilityRow3()
    ensures VisibilityRow(EXAMPLE, 3) == [1, 0, 1, 0, 1]
  {
    ExampleSquare();
    ExampleColumns();
    assert VisibilityCell(EXAMPLE, 3, 0) == 1;
    assert VisibilityCell(EXAMPLE, 3, 1) == 0;
    assert VisibilityCell(EXAMPLE, 3, 2) == 1;
    assert VisibilityCell(EXAMPLE, 3, 3) == 0;
    assert VisibilityCell(EXAMPLE, 3, 4) == 1;
  }

  lemma ExampleVisibilityRow4()
    ensures VisibilityRow(EXAMPLE, 4) == [1, 1, 1, 1, 1]
  {
    ExampleSquare();
    ExampleColumns();
    assert VisibilityCell(EXAMPLE, 4, 0) == 1;
    assert VisibilityCell(EXAMPLE, 4, 1) == 1;
    assert VisibilityCell(EXAMPLE, 4, 2) == 1;
    assert VisibilityCell(EXAMPLE, 4, 3) == 1;
    assert VisibilityCell(EXAMPLE, 4, 4) == 1;
  }

  /** test_get_visibility_matrix. */
  lemma ExampleVisibility()
    ensures VisibilityGrid(EXAMPLE) == [[1, 1, 1, 1, 1], [1, 1, 1, 0, 1], [1, 1, 0, 1, 1], [1, 0, 1, 0, 1], [1, 1, 1, 1, 1]]
  {
    ExampleSquare();
    ExampleVisibilityRow0();
    ExampleVisibilityRow1();
    ExampleVisibilityRow2();
    ExampleVisibilityRow3();
    ExampleVisibilityRow4();
  }

  lemma SumOfFive(s: seq<int>)
    requires |s| == 5
    ensures Sum(s) == s[0] + s[1] + s[2] + s[3] + s[4]
  {
    SumOfThree(s);
    assert s[..4][..3] == s[..3];
    assert Sum(s[..4]) == s[0] + s[1] + s[2] + s[3];
    assert s[..5] == s;
  }

  /** test_get_number_of_visible_trees: 21 trees are visible. */
  lemma ExampleVisibleCount()
    ensures |VisibleCells(EXAMPLE)| == 21
  {
    ExampleSquare();
    ExampleVisibility();
    SumVisibility(EXAMPLE);
    var v: Grid := [[1, 1, 1, 1, 1], [1, 1, 1, 0, 1], [1, 1, 0, 1, 1], [1, 0, 1, 0, 1], [1, 1, 1, 1, 1]];
    assert Flatten(v[..1]) == v[0] by {
      assert v[..1][..0] == [] && Flatten(v[..0]) == [];
    }
    assert Flatten(v[..2]) == Flatten(v[..1]) + v[1] by {
      assert v[..2][..1] == v[..1];
    }
    assert Flatten(v[..3]) == Flatten(v[..2]) + v[2] by {
      assert v[..3][..2] == v[..2];
    }
    assert Flatten(v[..4]) == Flatten(v[..3]) + v[3] by {
      assert v[..4][..3] == v[..3];
    }
    assert Flatten(v) == Flatten(v[..4]) + v[4];
    SumOfFive(v[0]);
    SumOfFive(v[1]);
    SumOfFive(v[2]);
    SumOfFive(v[3]);
    SumOfFive(v[4]);
    SumAppend(Flatten(v[..1]), v[1]);
    SumAppend(Flatten(v[..2]), v[2]);
    SumAppend(Flatten(v[..3]), v[3]);
    SumAppend(Flatten(v[..4]), v[4]);
  }

  lemma ExampleScenicRow0()
    ensures ScenicRow(EXAMPLE, 0) == [0, 0, 0, 0, 0]
  {
    ExampleSquare();
    ScenicZero(EXAMPLE, 0, 0);
    ScenicZero(EXAMPLE, 0, 1);
    ScenicZero(EXAMPLE, 0, 2);
    ScenicZero(EXAMPLE, 0, 3);
    ScenicZero(EXAMPLE, 0, 4);
  }

  lemma ExampleScenicRow1()
    ensures ScenicRow(EXAMPLE, 1) == [0, 1, 4, 1, 0]
  {
    ExampleSquare();
    ExampleUpRow1();
    ExampleDownRow1();
    ExampleLeftRow1();
    ExampleRightRow1();
    ScenicZero(EXAMPLE, 1, 0);
    assert DistanceRow(EXAMPLE, Down, 1)[1] == Distance(EXAMPLE, Down, 1, 1);
    assert DistanceRow(EXAMPLE, Up, 1)[1] == Distance(EXAMPLE, Up, 1, 1);
    assert DistanceRow(EXAMPLE, Left, 1)[1] == Distance(EXAMPLE, Left, 1, 1);
    assert DistanceRow(EXAMPLE, Right, 1)[1] == Distance(EXAMPLE, Right, 1, 1);
    assert Scenic(EXAMPLE, 1, 1) == 1;
    assert DistanceRow(EXAMPLE, Down, 1)[2] == Distance(EXAMPLE, Down, 1, 2);
    assert DistanceRow(EXAMPLE, Up, 1)[2] == Distance(EXAMPLE, Up, 1, 2);
    assert DistanceRow(EXAMPLE, Left, 1)[2] == Distance(EXAMPLE, Left, 1, 2);
    assert DistanceRow(EXAMPLE, Right, 1)[2] == Distance(EXAMPLE, Right, 1, 2);
    assert Scenic(EXAMPLE, 1, 2) == 4;
    assert DistanceRow(EXAMPLE, Down, 1)[3] == Distance(EXAMPLE, Down, 1, 3);
    assert DistanceRow(EXAMPLE, Up, 1)[3] == Distance(EXAMPLE, Up, 1, 3);
    assert DistanceRow(EXAMPLE, Left, 1)[3] == Distance(EXAMPLE, Left, 1, 3);
    assert DistanceRow(EXAMPLE, Right, 1)[3] == Distance(EXAMPLE, Right, 1, 3);
    assert Scenic(EXAMPLE, 1, 3) == 1;
    ScenicZero(EXAMPLE, 1, 4);
  }

  lemma ExampleScenicRow2()
    ensures ScenicRow(EXAMPLE, 2) == [0, 6, 1, 2, 0]
  {
    ExampleSquare();
    ExampleUpRow2();
    ExampleDownRow2();
    ExampleLeftRow2();
    ExampleRightRow2();
    ScenicZero(EXAMPLE, 2, 0);
    assert DistanceRow(EXAMPLE, Down, 2)[1] == Distance(EXAMPLE, Down, 2, 1);
    assert DistanceRow(EXAMPLE, Up, 2)[1] == Distance(EXAMPLE, Up, 2, 1);
    assert DistanceRow(EXAMPLE, Left, 2)[1] == Distance(EXAMPLE, Left, 2, 1);
    assert DistanceRow(EXAMPLE, Right, 2)[1] == Distance(EXAMPLE, Right, 2, 1);
    assert Scenic(EXAMPLE, 2, 1) == 6;
    assert DistanceRow(EXAMPLE, Down, 2)[2] == Distance(EXAMPLE, Down, 2, 2);
    assert DistanceRow(EXAMPLE, Up, 2)[2] == Distance(EXAMPLE, Up, 2, 2);
    assert DistanceRow(EXAMPLE, Left, 2)[2] == Distance(EXAMPLE, Left, 2, 2);
    assert DistanceRow(EXAMPLE, Right, 2)[2] == Distance(EXAMPLE, Right, 2, 2);
    assert Scenic(EXAMPLE, 2, 2) == 1;
    assert DistanceRow(EXAMPLE, Down, 2)[3] == Distance(EXAMPLE, Down, 2, 3);
    assert DistanceRow(EXAMPLE, Up, 2)[3] == Distance(EXAMPLE, Up, 2, 3);
    assert DistanceRow(EXAMPLE, Left, 2)[3] == Distance(EXAMPLE, Left, 2, 3);
    assert DistanceRow(EXAMPLE, Right, 2)[3] == Distance(EXAMPLE, Right, 2, 3);
    assert Scenic(EXAMPLE, 2, 3) == 2;
    ScenicZero(EXAMPLE, 2, 4);
  }

  lemma ExampleScenicRow3()
    ensures ScenicRow(EXAMPLE, 3) == [0, 1, 8, 3, 0]
  {
    ExampleSquare();
    ExampleUpRow3();
    ExampleDownRow3();
    ExampleLeftRow3();
    ExampleRightRow3();
    ScenicZero(EXAMPLE, 3, 0);
    assert DistanceRow(EXAMPLE, Down, 3)[1] == Distance(EXAMPLE, Down, 3, 1);
    assert DistanceRow(EXAMPLE, Up, 3)[1] == Distance(EXAMPLE, Up, 3, 1);
    assert DistanceRow(EXAMPLE, Left, 3)[1] == Distance(EXAMPLE, Left, 3, 1);
    assert DistanceRow(EXAMPLE, Right, 3)[1] == Distance(EXAMPLE, Right, 3, 1);
    assert Scenic(EXAMPLE, 3, 1) == 1;
    assert DistanceRow(EXAMPLE, Down, 3)[2] == Distance(EXAMPLE, Down, 3, 2);
    assert DistanceRow(EXAMPLE, Up, 3)[2] == Distance(EXAMPLE, Up, 3, 2);
    assert DistanceRow(EXAMPLE, Left, 3)[2] == Distance(EXAMPLE, Left, 3, 2);
    assert DistanceRow(EXAMPLE, Right, 3)[2] == Distance(EXAMPLE, Right, 3, 2);
    assert Scenic(EXAMPLE, 3, 2) == 8;
    assert DistanceRow(EXAMPLE, Down, 3)[3] == Distance(EXAMPLE, Down, 3, 3);
    assert DistanceRow(EXAMPLE, Up, 3)[3] == Distance(EXAMPLE, Up, 3, 3);
    assert DistanceRow(EXAMPLE, Left, 3)[3] == Distance(EXAMPLE, Left, 3, 3);
    assert DistanceRow(EXAMPLE, Right, 3)[3] == Distance(EXAMPLE, Right, 3, 3);
    assert Scenic(EXAMPLE, 3, 3) == 3;
    ScenicZero(EXAMPLE, 3, 4);
  }

  lemma ExampleScenicRow4()
    ensures ScenicRow(EXAMPLE, 4) == [0, 0, 0, 0, 0]
  {
    ExampleSquare();
    ScenicZero(EXAMPLE, 4, 0);
    ScenicZero(EXAMPLE, 4, 1);
    ScenicZero(EXAMPLE, 4, 2);
    ScenicZero(EXAMPLE, 4, 3);
    ScenicZero(EXAMPLE, 4, 4);
  }

  /** test_get_scenic_score. */
  lemma ExampleScenic()
    ensures ScenicGrid(EXAMPLE) == [[0, 0, 0, 0, 0], [0, 1, 4, 1, 0], [0, 6, 1, 2, 0], [0, 1, 8, 3, 0], [0, 0, 0, 0, 0]]
  {
    ExampleSquare();
    ExampleScenicRow0();
    ExampleScenicRow1();
    ExampleScenicRow2();
    ExampleScenicRow3();
    ExampleScenicRow4();
  }

  /** test_get_max_scenic_score: the best scenic score is 8, and no other
      value is the best. */
  lemma ExampleMaxScenic()
    ensures IsBestScenic(EXAMPLE, 8)
    ensures forall best :: IsBestScenic(EXAMPLE, best) ==> best == 8
  {
    ExampleSquare();
    ExampleScenic();
    var s := [[0, 0, 0, 0, 0], [0, 1, 4, 1, 0], [0, 6, 1, 2, 0], [0, 1, 8, 3, 0], [0, 0, 0, 0, 0]];
    assert ScenicRow(EXAMPLE, 3)[2] == Scenic(EXAMPLE, 3, 2) == 8;
    forall r, c | 0 <= r < 5 && 0 <= c < 5
      ensures Scenic(EXAMPLE, r, c) <= 8
    {
      assert Scenic(EXAMPLE, r, c) == ScenicRow(EXAMPLE, r)[c] == s[r][c];
      assert r == 0 || r == 1 || r == 2 || r == 3 || r == 4;
      assert c == 0 || c == 1 || c == 2 || c == 3 || c == 4;
    }
  }

  const TALL: Grid := [[1, 2], [3, 4], [5, 6]]

  /** Three rows of two: every cell the loop visits is on the border,
      since the last column is the second one. */
  lemma TallVisibility()
    ensures GridVisitable(TALL)
    ensures VisibilityGrid(TALL) == [[1, 1], [1, 1], [1, 1]]
  {
    forall r, c | 0 <= r < 3 && 0 <= c < 2
      ensures CellVisitable(TALL, r, c) && VisibilityCell(TALL, r, c) == 1
    {
    }
    assert VisibilityRow(TALL, 0) == [1, 1];
    assert VisibilityRow(TALL, 1) == [1, 1];
    assert VisibilityRow(TALL, 2) == [1, 1];
  }

  lemma TallText()
    ensures AllDigitLines(Split(Join(["12", "34", "56"], '\n'), '\n'))
    ensures Heights(Split(Join(["12", "34", "56"], '\n'), '\n')) == TALL
  {
    var lines := TextLines(TALL);
    assert lines[0] == "12" && lines[1] == "34" && lines[2] == "56";
    assert lines == ["12", "34", "56"];
    HeightsOfText(TALL);
  }

  lemma SumOfOnes(v: Grid)
    requires v == [[1, 1], [1, 1], [1, 1]]
    ensures Sum(Flatten(v)) == 6
  {
    var pair: seq<nat> := [1, 1];
    assert pair[..1][..0] == [];
    assert Sum(pair) == 2;
    assert v[..1][..0] == [] && v[..2][..1] == v[..1] && v[..3][..2] == v[..2];
    assert Flatten(v[..1]) == pair;
    assert Flatten(v[..2]) == Flatten(v[..1]) + pair;
    assert Flatten(v) == Flatten(v[..2]) + pair;
    SumAppend(Flatten(v[..1]), pair);
    SumAppend(Flatten(v[..2]), pair);
  }

  /** A grid with more rows than columns is answered, not refused: the
      text "12\n34\n56" counts six visible trees. */
  lemma ExampleTallGrid()
    ensures AllDigitLines(Split(Join(["12", "34", "56"], '\n'), '\n'))
    ensures Heights(Split(Join(["12", "34", "56"], '\n'), '\n')) == TALL
    ensures GridVisitable(TALL) && IsRectangular(TALL)
    ensures Sum(Flatten(VisibilityGrid(TALL))) == 6
  {
    TallText();
    TallVisibility();
    SumOfOnes(VisibilityGrid(TALL));
  }
}
