/** The parser tests of day 11 and the example's four monkeys. Each line of
    an input is matched against the text the model renders in a lemma of
    its own, and the lines are then put together. */
module MonkeysExamples {
  import opened Wrappers
  import opened Text
  import opened Monkeys

  /** Lines joined by line feeds, followed by `rest`. */
  function Lines(ls: seq<string>, rest: string): string
    requires |ls| >= 1
  {
    if |ls| == 1 then ls[0] + rest else ls[0] + ("\n" + Lines(ls[1..], rest))
  }

  lemma LinesCons(l: string, ls: seq<string>, rest: string)
    requires |ls| >= 1
    ensures Lines([l] + ls, rest) == l + ("\n" + Lines(ls, rest))
  {
    assert ([l] + ls)[1..] == ls;
  }

  lemma {:induction false} JoinLines(ls: seq<string>)
    requires |ls| >= 1
    ensures Join(ls, '\n') == Lines(ls, "")
  {
    if |ls| == 1 {
      assert ls[0] + "" == ls[0];
    } else {
      JoinLines(ls[1..]);
      Assoc(ls[0], "\n", Join(ls[1..], '\n'));
    }
  }

  lemma {:induction false} LinesAppend(a: seq<string>, b: seq<string>, rest: string)
    requires |a| >= 1 && |b| >= 1
    ensures Lines(a + b, rest) == Lines(a, "\n" + Lines(b, rest))
  {
    if |a| == 1 {
      LinesCons(a[0], b, rest);
      assert [a[0]] + b == a + b;
    } else {
      LinesAppend(a[1..], b, rest);
      assert (a + b)[1..] == a[1..] + b;
    }
  }

  lemma Indents()
    ensures Spaces(2) == "  " && Spaces(4) == "    "
  {
    assert Spaces(1) == " ";
    assert Spaces(3) == "   ";
  }

  lemma ItemsCons(w: nat, ws: seq<nat>, x: string)
    requires |ws| >= 1
    ensures ItemsText([w] + ws, x) == NatToString(w) + (SEPARATOR + ItemsText(ws, x))
  {
    assert ([w] + ws)[1..] == ws;
  }

  lemma ItemsOne(w: nat, x: string)
    ensures ItemsText([w], x) == NatToString(w) + x
  {
  }

  /** test_parse_test */
  lemma ExampleTest()
    ensures ParseTest("  Test: divisible by 3") == Some((DivisibleBy(3), ""))
  {
    Indents();
    assert NatToString(3) == "3";
    assert TestText(DivisibleBy(3), "") == "  Test: divisible by 3";
    ParseTestText(DivisibleBy(3), "");
  }

  /** The example's four monkeys, as parse_monkeys returns them. */
  const MONKEY0 := Monkey(0, [79, 98], Multiply(19), DivisibleBy(23), Targets(2, 3), 0)
  const MONKEY1 := Monkey(1, [54, 65, 75, 74], Add(6), DivisibleBy(19), Targets(2, 0), 0)
  const MONKEY2 := Monkey(2, [79, 60, 97], Square, DivisibleBy(13), Targets(1, 3), 0)
  const MONKEY3 := Monkey(3, [74], Add(3), DivisibleBy(17), Targets(0, 1), 0)
  const EXAMPLE := [MONKEY0, MONKEY1, MONKEY2, MONKEY3]

  /** The lines of each monkey of the example input. */
  const MONKEY0_LINES := [
    "Monkey 0:",
    "  Starting items: 79, 98",
    "  Operation: new = old * 19",
    "  Test: divisible by 23",
    "    If true: throw to monkey 2",
    "    If false: throw to monkey 3"
  ]
  const MONKEY1_LINES := [
    "Monkey 1:",
    "  Starting items: 54, 65, 75, 74",
    "  Operation: new = old + 6",
    "  Test: divisible by 19",
    "    If true: throw to monkey 2",
    "    If false: throw to monkey 0"
  ]
  const MONKEY2_LINES := [
    "Monkey 2:",
    "  Starting items: 79, 60, 97",
    "  Operation: new = old * old",
    "  Test: divisible by 13",
    "    If true: throw to monkey 1",
    "    If false: throw to monkey 3"
  ]
  const MONKEY3_LINES := [
    "Monkey 3:",
    "  Starting items: 74",
    "  Operation: new = old + 3",
    "  Test: divisible by 17",
    "    If true: throw to monkey 0",
    "    If false: throw to monkey 1"
  ]

  /** The example input: a blank line between the monkeys and no line feed
      after the last one. */
  const INPUT_LINES := MONKEY0_LINES + ([""] + (MONKEY1_LINES + ([""] + (MONKEY2_LINES + ([""] + MONKEY3_LINES)))))

  /** The input of test_parse_monkey and the monkey it expects. */
  const SINGLE_LINES := [
    "Monkey 0:",
    "  Starting items: 79, 98",
    "  Operation: new = old * 19",
    "  Test: divisible by 23",
    "    If true: throw to monkey 2",
    "    If false: throw to monkey 4"
  ]
  const SINGLE := Monkey(0, [79, 98], Multiply(19), DivisibleBy(23), Targets(2, 4), 0)

  lemma HeaderLine0Pieces()
    ensures "Monkey 0:" == MONKEY_TAG + "0" + ":"
  {
  }

  lemma HeaderLine0(x: string)
    ensures "Monkey 0:" + x == MONKEY_TAG + (NatToString(0) + (":" + x))
  {
    assert NatToString(0) == "0";
    HeaderLine0Pieces();
    Assoc(MONKEY_TAG + "0", ":", x);
    Assoc(MONKEY_TAG, "0", ":" + x);
  }

  lemma ItemsLine79_98Pieces()
    ensures "  Starting items: 79, 98" == "  " + ITEMS_TAG + "79" + SEPARATOR + "98"
  {
  }

  lemma ItemsOf79_98(x: string)
    ensures ItemsText([79, 98], x) == "79" + (SEPARATOR + ("98" + x))
  {
    assert NatToString(79) == "79";
    assert NatToString(98) == "98";
    ItemsOne(98, x);
    ItemsCons(79, [98], x);
    assert [79, 98] == [79] + [98];
  }

  lemma ItemsLine79_98(x: string)
    ensures "  Starting items: 79, 98" + x == Spaces(2) + (ITEMS_TAG + ItemsText([79, 98], x))
  {
    Indents();
    ItemsOf79_98(x);
    ItemsLine79_98Pieces();
    Assoc("  " + ITEMS_TAG + "79" + SEPARATOR, "98", x);
    Assoc("  " + ITEMS_TAG + "79", SEPARATOR, "98" + x);
    Assoc("  " + ITEMS_TAG, "79", SEPARATOR + ("98" + x));
    Assoc("  ", ITEMS_TAG, "79" + (SEPARATOR + ("98" + x)));
  }

  lemma OperationLineMultiply19Pieces()
    ensures "  Operation: new = old * 19" == "  " + OPERATION_TAG + "* " + "19"
  {
  }

  lemma OperationLineMultiply19(x: string)
    ensures "  Operation: new = old * 19" + x == Spaces(2) + (OPERATION_TAG + OperationText(Multiply(19), x))
  {
    Indents();
    assert NatToString(19) == "19";
    OperationLineMultiply19Pieces();
    Assoc("  " + OPERATION_TAG + "* ", "19", x);
    Assoc("  " + OPERATION_TAG, "* ", "19" + x);
    Assoc("  ", OPERATION_TAG, "* " + ("19" + x));
  }

  lemma TestLine23Pieces()
    ensures "  Test: divisible by 23" == "  " + TEST_TAG + DIVISIBLE_TAG + "23"
  {
  }

  lemma TestLine23(x: string)
    ensures "  Test: divisible by 23" + x == TestText(DivisibleBy(23), x)
  {
    Indents();
    assert NatToString(23) == "23";
    TestLine23Pieces();
    Assoc("  " + TEST_TAG + DIVISIBLE_TAG, "23", x);
    Assoc("  " + TEST_TAG, DIVISIBLE_TAG, "23" + x);
    Assoc("  ", TEST_TAG, DIVISIBLE_TAG + ("23" + x));
  }

  lemma TrueLine2Pieces()
    ensures "    If true: throw to monkey 2" == "    " + TRUE_TAG + "2"
  {
  }

  lemma TrueLine2(x: string)
    ensures "    If true: throw to monkey 2" + x == Spaces(4) + (TRUE_TAG + (NatToString(2) + x))
  {
    Indents();
    assert NatToString(2) == "2";
    TrueLine2Pieces();
    Assoc("    " + TRUE_TAG, "2", x);
    Assoc("    ", TRUE_TAG, "2" + x);
  }

  lemma FalseLine3Pieces()
    ensures "    If false: throw to monkey 3" == "    " + FALSE_TAG + "3"
  {
  }

  lemma FalseLine3(x: string)
    ensures "    If false: throw to monkey 3" + x == Spaces(4) + (FALSE_TAG + (NatToString(3) + x))
  {
    Indents();
    assert NatToString(3) == "3";
    FalseLine3Pieces();
    Assoc("    " + FALSE_TAG, "3", x);
    Assoc("    ", FALSE_TAG, "3" + x);
  }

  lemma HeaderLine1Pieces()
    ensures "Monkey 1:" == MONKEY_TAG + "1" + ":"
  {
  }

  lemma HeaderLine1(x: string)
    ensures "Monkey 1:" + x == MONKEY_TAG + (NatToString(1) + (":" + x))
  {
    assert NatToString(1) == "1";
    HeaderLine1Pieces();
    Assoc(MONKEY_TAG + "1", ":", x);
    Assoc(MONKEY_TAG, "1", ":" + x);
  }

  lemma ItemsLine54_65_75_74Pieces()
    ensures "  Starting items: 54, 65, 75, 74" == "  " + ITEMS_TAG + "54" + SEPARATOR + "65" + SEPARATOR + "75" + SEPARATOR + "74"
  {
  }

  lemma ItemsOf54_65_75_74(x: string)
    ensures ItemsText([54, 65, 75, 74], x) == "54" + (SEPARATOR + ("65" + (SEPARATOR + ("75" + (SEPARATOR + ("74" + x))))))
  {
    assert NatToString(54) == "54";
    assert NatToString(65) == "65";
    assert NatToString(74) == "74";
    assert NatToString(75) == "75";
    ItemsOne(74, x);
    ItemsCons(75, [74], x);
    ItemsCons(65, [75, 74], x);
    ItemsCons(54, [65, 75, 74], x);
    assert [75, 74] == [75] + [74];
    assert [65, 75, 74] == [65] + [75, 74];
    assert [54, 65, 75, 74] == [54] + [65, 75, 74];
  }

  lemma ItemsLine54_65_75_74(x: string)
    ensures "  Starting items: 54, 65, 75, 74" + x == Spaces(2) + (ITEMS_TAG + ItemsText([54, 65, 75, 74], x))
  {
    Indents();
    ItemsOf54_65_75_74(x);
    ItemsLine54_65_75_74Pieces();
    Assoc("  " + ITEMS_TAG + "54" + SEPARATOR + "65" + SEPARATOR + "75" + SEPARATOR, "74", x);
    Assoc("  " + ITEMS_TAG + "54" + SEPARATOR + "65" + SEPARATOR + "75", SEPARATOR, "74" + x);
    Assoc("  " + ITEMS_TAG + "54" + SEPARATOR + "65" + SEPARATOR, "75", SEPARATOR + ("74" + x));
    Assoc("  " + ITEMS_TAG + "54" + SEPARATOR + "65", SEPARATOR, "75" + (SEPARATOR + ("74" + x)));
    Assoc("  " + ITEMS_TAG + "54" + SEPARATOR, "65", SEPARATOR + ("75" + (SEPARATOR + ("74" + x))));
    Assoc("  " + ITEMS_TAG + "54", SEPARATOR, "65" + (SEPARATOR + ("75" + (SEPARATOR + ("74" + x)))));
    Assoc("  " + ITEMS_TAG, "54", SEPARATOR + ("65" + (SEPARATOR + ("75" + (SEPARATOR + ("74" + x))))));
    Assoc("  ", ITEMS_TAG, "54" + (SEPARATOR + ("65" + (SEPARATOR + ("75" + (SEPARATOR + ("74" + x)))))));
  }

  lemma OperationLineAdd6Pieces()
    ensures "  Operation: new = old + 6" == "  " + OPERATION_TAG + "+ " + "6"
  {
  }

  lemma OperationLineAdd6(x: string)
    ensures "  Operation: new = old + 6" + x == Spaces(2) + (OPERATION_TAG + OperationText(Add(6), x))
  {
    Indents();
    assert NatToString(6) == "6";
    OperationLineAdd6Pieces();
    Assoc("  " + OPERATION_TAG + "+ ", "6", x);
    Assoc("  " + OPERATION_TAG, "+ ", "6" + x);
    Assoc("  ", OPERATION_TAG, "+ " + ("6" + x));
  }

  lemma TestLine19Pieces()
    ensures "  Test: divisible by 19" == "  " + TEST_TAG + DIVISIBLE_TAG + "19"
  {
  }

  lemma TestLine19(x: string)
    ensures "  Test: divisible by 19" + x == TestText(DivisibleBy(19), x)
  {
    Indents();
    assert NatToString(19) == "19";
    TestLine19Pieces();
    Assoc("  " + TEST_TAG + DIVISIBLE_TAG, "19", x);
    Assoc("  " + TEST_TAG, DIVISIBLE_TAG, "19" + x);
    Assoc("  ", TEST_TAG, DIVISIBLE_TAG + ("19" + x));
  }

  lemma FalseLine0Pieces()
    ensures "    If false: throw to monkey 0" == "    " + FALSE_TAG + "0"
  {
  }

  lemma FalseLine0(x: string)
    ensures "    If false: throw to monkey 0" + x == Spaces(4) + (FALSE_TAG + (NatToString(0) + x))
  {
    Indents();
    assert NatToString(0) == "0";
    FalseLine0Pieces();
    Assoc("    " + FALSE_TAG, "0", x);
    Assoc("    ", FALSE_TAG, "0" + x);
  }

  lemma HeaderLine2Pieces()
    ensures "Monkey 2:" == MONKEY_TAG + "2" + ":"
  {
  }

  lemma HeaderLine2(x: string)
    ensures "Monkey 2:" + x == MONKEY_TAG + (NatToString(2) + (":" + x))
  {
    assert NatToString(2) == "2";
    HeaderLine2Pieces();
    Assoc(MONKEY_TAG + "2", ":", x);
    Assoc(MONKEY_TAG, "2", ":" + x);
  }

  lemma ItemsLine79_60_97Pieces()
    ensures "  Starting items: 79, 60, 97" == "  " + ITEMS_TAG + "79" + SEPARATOR + "60" + SEPARATOR + "97"
  {
  }

  lemma ItemsOf79_60_97(x: string)
    ensures ItemsText([79, 60, 97], x) == "79" + (SEPARATOR + ("60" + (SEPARATOR + ("97" + x))))
  {
    assert NatToString(60) == "60";
    assert NatToString(79) == "79";
    assert NatToString(97) == "97";
    ItemsOne(97, x);
    ItemsCons(60, [97], x);
    ItemsCons(79, [60, 97], x);
    assert [60, 97] == [60] + [97];
    assert [79, 60, 97] == [79] + [60, 97];
  }

  lemma ItemsLine79_60_97(x: string)
    ensures "  Starting items: 79, 60, 97" + x == Spaces(2) + (ITEMS_TAG + ItemsText([79, 60, 97], x))
  {
    Indents();
    ItemsOf79_60_97(x);
    ItemsLine79_60_97Pieces();
    Assoc("  " + ITEMS_TAG + "79" + SEPARATOR + "60" + SEPARATOR, "97", x);
    Assoc("  " + ITEMS_TAG + "79" + SEPARATOR + "60", SEPARATOR, "97" + x);
    Assoc("  " + ITEMS_TAG + "79" + SEPARATOR, "60", SEPARATOR + ("97" + x));
    Assoc("  " + ITEMS_TAG + "79", SEPARATOR, "60" + (SEPARATOR + ("97" + x)));
    Assoc("  " + ITEMS_TAG, "79", SEPARATOR + ("60" + (SEPARATOR + ("97" + x))));
    Assoc("  ", ITEMS_TAG, "79" + (SEPARATOR + ("60" + (SEPARATOR + ("97" + x)))));
  }

  lemma OperationLineSquarePieces()
    ensures "  Operation: new = old * old" == "  " + OPERATION_TAG + "* old"
  {
  }

  lemma OperationLineSquare(x: string)
    ensures "  Operation: new = old * old" + x == Spaces(2) + (OPERATION_TAG + OperationText(Square, x))
  {
    Indents();
    OperationLineSquarePieces();
    Assoc("  " + OPERATION_TAG, "* old", x);
    Assoc("  ", OPERATION_TAG, "* old" + x);
  }

  lemma TestLine13Pieces()
    ensures "  Test: divisible by 13" == "  " + TEST_TAG + DIVISIBLE_TAG + "13"
  {
  }

  lemma TestLine13(x: string)
    ensures "  Test: divisible by 13" + x == TestText(DivisibleBy(13), x)
  {
    Indents();
    assert NatToString(13) == "13";
    TestLine13Pieces();
    Assoc("  " + TEST_TAG + DIVISIBLE_TAG, "13", x);
    Assoc("  " + TEST_TAG, DIVISIBLE_TAG, "13" + x);
    Assoc("  ", TEST_TAG, DIVISIBLE_TAG + ("13" + x));
  }

  lemma TrueLine1Pieces()
    ensures "    If true: throw to monkey 1" == "    " + TRUE_TAG + "1"
  {
  }

  lemma TrueLine1(x: string)
    ensures "    If true: throw to monkey 1" + x == Spaces(4) + (TRUE_TAG + (NatToString(1) + x))
  {
    Indents();
    assert NatToString(1) == "1";
    TrueLine1Pieces();
    Assoc("    " + TRUE_TAG, "1", x);
    Assoc("    ", TRUE_TAG, "1" + x);
  }

  lemma HeaderLine3Pieces()
    ensures "Monkey 3:" == MONKEY_TAG + "3" + ":"
  {
  }

  lemma HeaderLine3(x: string)
    ensures "Monkey 3:" + x == MONKEY_TAG + (NatToString(3) + (":" + x))
  {
    assert NatToString(3) == "3";
    HeaderLine3Pieces();
    Assoc(MONKEY_TAG + "3", ":", x);
    Assoc(MONKEY_TAG, "3", ":" + x);
  }

  lemma ItemsLine74Pieces()
    ensures "  Starting items: 74" == "  " + ITEMS_TAG + "74"
  {
  }

  lemma ItemsOf74(x: string)
    ensures ItemsText([74], x) == "74" + x
  {
    assert NatToString(74) == "74";
    ItemsOne(74, x);
  }

  lemma ItemsLine74(x: string)
    ensures "  Starting items: 74" + x == Spaces(2) + (ITEMS_TAG + ItemsText([74], x))
  {
    Indents();
    ItemsOf74(x);
    ItemsLine74Pieces();
    Assoc("  " + ITEMS_TAG, "74", x);
    Assoc("  ", ITEMS_TAG, "74" + x);
  }

  lemma OperationLineAdd3Pieces()
    ensures "  Operation: new = old + 3" == "  " + OPERATION_TAG + "+ " + "3"
  {
  }

  lemma OperationLineAdd3(x: string)
    ensures "  Operation: new = old + 3" + x == Spaces(2) + (OPERATION_TAG + OperationText(Add(3), x))
  {
    Indents();
    assert NatToString(3) == "3";
    OperationLineAdd3Pieces();
    Assoc("  " + OPERATION_TAG + "+ ", "3", x);
    Assoc("  " + OPERATION_TAG, "+ ", "3" + x);
    Assoc("  ", OPERATION_TAG, "+ " + ("3" + x));
  }

  lemma TestLine17Pieces()
    ensures "  Test: divisible by 17" == "  " + TEST_TAG + DIVISIBLE_TAG + "17"
  {
  }

  lemma TestLine17(x: string)
    ensures "  Test: divisible by 17" + x == TestText(DivisibleBy(17), x)
  {
    Indents();
    assert NatToString(17) == "17";
    TestLine17Pieces();
    Assoc("  " + TEST_TAG + DIVISIBLE_TAG, "17", x);
    Assoc("  " + TEST_TAG, DIVISIBLE_TAG, "17" + x);
    Assoc("  ", TEST_TAG, DIVISIBLE_TAG + ("17" + x));
  }

  lemma TrueLine0Pieces()
    ensures "    If true: throw to monkey 0" == "    " + TRUE_TAG + "0"
  {
  }

  lemma TrueLine0(x: string)
    ensures "    If true: throw to monkey 0" + x == Spaces(4) + (TRUE_TAG + (NatToString(0) + x))
  {
    Indents();
    assert NatToString(0) == "0";
    TrueLine0Pieces();
    Assoc("    " + TRUE_TAG, "0", x);
    Assoc("    ", TRUE_TAG, "0" + x);
  }

  lemma FalseLine1Pieces()
    ensures "    If false: throw to monkey 1" == "    " + FALSE_TAG + "1"
  {
  }

  lemma FalseLine1(x: string)
    ensures "    If false: throw to monkey 1" + x == Spaces(4) + (FALSE_TAG + (NatToString(1) + x))
  {
    Indents();
    assert NatToString(1) == "1";
    FalseLine1Pieces();
    Assoc("    " + FALSE_TAG, "1", x);
    Assoc("    ", FALSE_TAG, "1" + x);
  }

  lemma FalseLine4Pieces()
    ensures "    If false: throw to monkey 4" == "    " + FALSE_TAG + "4"
  {
  }

  lemma FalseLine4(x: string)
    ensures "    If false: throw to monkey 4" + x == Spaces(4) + (FALSE_TAG + (NatToString(4) + x))
  {
    Indents();
    assert NatToString(4) == "4";
    FalseLine4Pieces();
    Assoc("    " + FALSE_TAG, "4", x);
    Assoc("    ", FALSE_TAG, "4" + x);
  }

  /** The lines of monkey 0 are its text. */
  lemma Monkey0Lines(rest: string)
    ensures Lines(MONKEY0_LINES, rest) == MonkeyText(MONKEY0, rest)
  {
    LinesCons("    If true: throw to monkey 2", ["    If false: throw to monkey 3"], rest);
    LinesCons("  Test: divisible by 23", ["    If true: throw to monkey 2", "    If false: throw to monkey 3"], rest);
    LinesCons("  Operation: new = old * 19", ["  Test: divisible by 23", "    If true: throw to monkey 2", "    If false: throw to monkey 3"], rest);
    LinesCons("  Starting items: 79, 98", ["  Operation: new = old * 19", "  Test: divisible by 23", "    If true: throw to monkey 2", "    If false: throw to monkey 3"], rest);
    LinesCons("Monkey 0:", ["  Starting items: 79, 98", "  Operation: new = old * 19", "  Test: divisible by 23", "    If true: throw to monkey 2", "    If false: throw to monkey 3"], rest);
    assert ["    If true: throw to monkey 2", "    If false: throw to monkey 3"] == ["    If true: throw to monkey 2"] + ["    If false: throw to monkey 3"];
    assert ["  Test: divisible by 23", "    If true: throw to monkey 2", "    If false: throw to monkey 3"] == ["  Test: divisible by 23"] + ["    If true: throw to monkey 2", "    If false: throw to monkey 3"];
    assert ["  Operation: new = old * 19", "  Test: divisible by 23", "    If true: throw to monkey 2", "    If false: throw to monkey 3"] == ["  Operation: new = old * 19"] + ["  Test: divisible by 23", "    If true: throw to monkey 2", "    If false: throw to monkey 3"];
    assert ["  Starting items: 79, 98", "  Operation: new = old * 19", "  Test: divisible by 23", "    If true: throw to monkey 2", "    If false: throw to monkey 3"] == ["  Starting items: 79, 98"] + ["  Operation: new = old * 19", "  Test: divisible by 23", "    If true: throw to monkey 2", "    If false: throw to monkey 3"];
    assert ["Monkey 0:", "  Starting items: 79, 98", "  Operation: new = old * 19", "  Test: divisible by 23", "    If true: throw to monkey 2", "    If false: throw to monkey 3"] == ["Monkey 0:"] + ["  Starting items: 79, 98", "  Operation: new = old * 19", "  Test: divisible by 23", "    If true: throw to monkey 2", "    If false: throw to monkey 3"];
    FalseLine3(rest);
    TrueLine2("\n" + (Spaces(4) + (FALSE_TAG + (NatToString(3) + rest))));
    TestLine23(AfterTest(MONKEY0, rest));
    OperationLineMultiply19(AfterOperation(MONKEY0, rest));
    ItemsLine79_98(AfterItems(MONKEY0, rest));
    HeaderLine0("\n" + AfterHeader(MONKEY0, rest));
  }

  /** The lines of monkey 1 are its text. */
  lemma Monkey1Lines(rest: string)
    ensures Lines(MONKEY1_LINES, rest) == MonkeyText(MONKEY1, rest)
  {
    LinesCons("    If true: throw to monkey 2", ["    If false: throw to monkey 0"], rest);
    LinesCons("  Test: divisible by 19", ["    If true: throw to monkey 2", "    If false: throw to monkey 0"], rest);
    LinesCons("  Operation: new = old + 6", ["  Test: divisible by 19", "    If true: throw to monkey 2", "    If false: throw to monkey 0"], rest);
    LinesCons("  Starting items: 54, 65, 75, 74", ["  Operation: new = old + 6", "  Test: divisible by 19", "    If true: throw to monkey 2", "    If false: throw to monkey 0"], rest);
    LinesCons("Monkey 1:", ["  Starting items: 54, 65, 75, 74", "  Operation: new = old + 6", "  Test: divisible by 19", "    If true: throw to monkey 2", "    If false: throw to monkey 0"], rest);
    assert ["    If true: throw to monkey 2", "    If false: throw to monkey 0"] == ["    If true: throw to monkey 2"] + ["    If false: throw to monkey 0"];
    assert ["  Test: divisible by 19", "    If true: throw to monkey 2", "    If false: throw to monkey 0"] == ["  Test: divisible by 19"] + ["    If true: throw to monkey 2", "    If false: throw to monkey 0"];
    assert ["  Operation: new = old + 6", "  Test: divisible by 19", "    If true: throw to monkey 2", "    If false: throw to monkey 0"] == ["  Operation: new = old + 6"] + ["  Test: divisible by 19", "    If true: throw to monkey 2", "    If false: throw to monkey 0"];
    assert ["  Starting items: 54, 65, 75, 74", "  Operation: new = old + 6", "  Test: divisible by 19", "    If true: throw to monkey 2", "    If false: throw to monkey 0"] == ["  Starting items: 54, 65, 75, 74"] + ["  Operation: new = old + 6", "  Test: divisible by 19", "    If true: throw to monkey 2", "    If false: throw to monkey 0"];
    assert ["Monkey 1:", "  Starting items: 54, 65, 75, 74", "  Operation: new = old + 6", "  Test: divisible by 19", "    If true: throw to monkey 2", "    If false: throw to monkey 0"] == ["Monkey 1:"] + ["  Starting items: 54, 65, 75, 74", "  Operation: new = old + 6", "  Test: divisible by 19", "    If true: throw to monkey 2", "    If false: throw to monkey 0"];
    FalseLine0(rest);
    TrueLine2("\n" + (Spaces(4) + (FALSE_TAG + (NatToString(0) + rest))));
    TestLine19(AfterTest(MONKEY1, rest));
    OperationLineAdd6(AfterOperation(MONKEY1, rest));
    ItemsLine54_65_75_74(AfterItems(MONKEY1, rest));
    HeaderLine1("\n" + AfterHeader(MONKEY1, rest));
  }

  /** The lines of monkey 2 are its text. */
  lemma Monkey2Lines(rest: string)
    ensures Lines(MONKEY2_LINES, rest) == MonkeyText(MONKEY2, rest)
  {
    LinesCons("    If true: throw to monkey 1", ["    If false: throw to monkey 3"], rest);
    LinesCons("  Test: divisible by 13", ["    If true: throw to monkey 1", "    If false: throw to monkey 3"], rest);
    LinesCons("  Operation: new = old * old", ["  Test: divisible by 13", "    If true: throw to monkey 1", "    If false: throw to monkey 3"], rest);
    LinesCons("  Starting items: 79, 60, 97", ["  Operation: new = old * old", "  Test: divisible by 13", "    If true: throw to monkey 1", "    If false: throw to monkey 3"], rest);
    LinesCons("Monkey 2:", ["  Starting items: 79, 60, 97", "  Operation: new = old * old", "  Test: divisible by 13", "    If true: throw to monkey 1", "    If false: throw to monkey 3"], rest);
    assert ["    If true: throw to monkey 1", "    If false: throw to monkey 3"] == ["    If true: throw to monkey 1"] + ["    If false: throw to monkey 3"];
    assert ["  Test: divisible by 13", "    If true: throw to monkey 1", "    If false: throw to monkey 3"] == ["  Test: divisible by 13"] + ["    If true: throw to monkey 1", "    If false: throw to monkey 3"];
    assert ["  Operation: new = old * old", "  Test: divisible by 13", "    If true: throw to monkey 1", "    If false: throw to monkey 3"] == ["  Operation: new = old * old"] + ["  Test: divisible by 13", "    If true: throw to monkey 1", "    If false: throw to monkey 3"];
    assert ["  Starting items: 79, 60, 97", "  Operation: new = old * old", "  Test: divisible by 13", "    If true: throw to monkey 1", "    If false: throw to monkey 3"] == ["  Starting items: 79, 60, 97"] + ["  Operation: new = old * old", "  Test: divisible by 13", "    If true: throw to monkey 1", "    If false: throw to monkey 3"];
    assert ["Monkey 2:", "  Starting items: 79, 60, 97", "  Operation: new = old * old", "  Test: divisible by 13", "    If true: throw to monkey 1", "    If false: throw to monkey 3"] == ["Monkey 2:"] + ["  Starting items: 79, 60, 97", "  Operation: new = old * old", "  Test: divisible by 13", "    If true: throw to monkey 1", "    If false: throw to monkey 3"];
    FalseLine3(rest);
    TrueLine1("\n" + (Spaces(4) + (FALSE_TAG + (NatToString(3) + rest))));
    TestLine13(AfterTest(MONKEY2, rest));
    OperationLineSquare(AfterOperation(MONKEY2, rest));
    ItemsLine79_60_97(AfterItems(MONKEY2, rest));
    HeaderLine2("\n" + AfterHeader(MONKEY2, rest));
  }

  /** The lines of monkey 3 are its text. */
  lemma Monkey3Lines(rest: string)
    ensures Lines(MONKEY3_LINES, rest) == MonkeyText(MONKEY3, rest)
  {
    LinesCons("    If true: throw to monkey 0", ["    If false: throw to monkey 1"], rest);
    LinesCons("  Test: divisible by 17", ["    If true: throw to monkey 0", "    If false: throw to monkey 1"], rest);
    LinesCons("  Operation: new = old + 3", ["  Test: divisible by 17", "    If true: throw to monkey 0", "    If false: throw to monkey 1"], rest);
    LinesCons("  Starting items: 74", ["  Operation: new = old + 3", "  Test: divisible by 17", "    If true: throw to monkey 0", "    If false: throw to monkey 1"], rest);
    LinesCons("Monkey 3:", ["  Starting items: 74", "  Operation: new = old + 3", "  Test: divisible by 17", "    If true: throw to monkey 0", "    If false: throw to monkey 1"], rest);
    assert ["    If true: throw to monkey 0", "    If false: throw to monkey 1"] == ["    If true: throw to monkey 0"] + ["    If false: throw to monkey 1"];
    assert ["  Test: divisible by 17", "    If true: throw to monkey 0", "    If false: throw to monkey 1"] == ["  Test: divisible by 17"] + ["    If true: throw to monkey 0", "    If false: throw to monkey 1"];
    assert ["  Operation: new = old + 3", "  Test: divisible by 17", "    If true: throw to monkey 0", "    If false: throw to monkey 1"] == ["  Operation: new = old + 3"] + ["  Test: divisible by 17", "    If true: throw to monkey 0", "    If false: throw to monkey 1"];
    assert ["  Starting items: 74", "  Operation: new = old + 3", "  Test: divisible by 17", "    If true: throw to monkey 0", "    If false: throw to monkey 1"] == ["  Starting items: 74"] + ["  Operation: new = old + 3", "  Test: divisible by 17", "    If true: throw to monkey 0", "    If false: throw to monkey 1"];
    assert ["Monkey 3:", "  Starting items: 74", "  Operation: new = old + 3", "  Test: divisible by 17", "    If true: throw to monkey 0", "    If false: throw to monkey 1"] == ["Monkey 3:"] + ["  Starting items: 74", "  Operation: new = old + 3", "  Test: divisible by 17", "    If true: throw to monkey 0", "    If false: throw to monkey 1"];
    FalseLine1(rest);
    TrueLine0("\n" + (Spaces(4) + (FALSE_TAG + (NatToString(1) + rest))));
    TestLine17(AfterTest(MONKEY3, rest));
    OperationLineAdd3(AfterOperation(MONKEY3, rest));
    ItemsLine74(AfterItems(MONKEY3, rest));
    HeaderLine3("\n" + AfterHeader(MONKEY3, rest));
  }

  /** The lines of test_parse_monkey are the text of the monkey it expects. */
  lemma SingleLines(rest: string)
    ensures Lines(SINGLE_LINES, rest) == MonkeyText(SINGLE, rest)
  {
    LinesCons("    If true: throw to monkey 2", ["    If false: throw to monkey 4"], rest);
    LinesCons("  Test: divisible by 23", ["    If true: throw to monkey 2", "    If false: throw to monkey 4"], rest);
    LinesCons("  Operation: new = old * 19", ["  Test: divisible by 23", "    If true: throw to monkey 2", "    If false: throw to monkey 4"], rest);
    LinesCons("  Starting items: 79, 98", ["  Operation: new = old * 19", "  Test: divisible by 23", "    If true: throw to monkey 2", "    If false: throw to monkey 4"], rest);
    LinesCons("Monkey 0:", ["  Starting items: 79, 98", "  Operation: new = old * 19", "  Test: divisible by 23", "    If true: throw to monkey 2", "    If false: throw to monkey 4"], rest);
    assert ["    If true: throw to monkey 2", "    If false: throw to monkey 4"] == ["    If true: throw to monkey 2"] + ["    If false: throw to monkey 4"];
    assert ["  Test: divisible by 23", "    If true: throw to monkey 2", "    If false: throw to monkey 4"] == ["  Test: divisible by 23"] + ["    If true: throw to monkey 2", "    If false: throw to monkey 4"];
    assert ["  Operation: new = old * 19", "  Test: divisible by 23", "    If true: throw to monkey 2", "    If false: throw to monkey 4"] == ["  Operation: new = old * 19"] + ["  Test: divisible by 23", "    If true: throw to monkey 2", "    If false: throw to monkey 4"];
    assert ["  Starting items: 79, 98", "  Operation: new = old * 19", "  Test: divisible by 23", "    If true: throw to monkey 2", "    If false: throw to monkey 4"] == ["  Starting items: 79, 98"] + ["  Operation: new = old * 19", "  Test: divisible by 23", "    If true: throw to monkey 2", "    If false: throw to monkey 4"];
    assert ["Monkey 0:", "  Starting items: 79, 98", "  Operation: new = old * 19", "  Test: divisible by 23", "    If true: throw to monkey 2", "    If false: throw to monkey 4"] == ["Monkey 0:"] + ["  Starting items: 79, 98", "  Operation: new = old * 19", "  Test: divisible by 23", "    If true: throw to monkey 2", "    If false: throw to monkey 4"];
    FalseLine4(rest);
    TrueLine2("\n" + (Spaces(4) + (FALSE_TAG + (NatToString(4) + rest))));
    TestLine23(AfterTest(SINGLE, rest));
    OperationLineMultiply19(AfterOperation(SINGLE, rest));
    ItemsLine79_98(AfterItems(SINGLE, rest));
    HeaderLine0("\n" + AfterHeader(SINGLE, rest));
  }

  /** parse_TestResultTargetMonkey: the two target lines, joined by a line
      feed. */
  lemma ExampleTargets()
    ensures ParseTargets(Join(["    If true: throw to monkey 2", "    If false: throw to monkey 3"], '\n')) ==
            Some((Targets(2, 3), ""))
  {
    var lines := ["    If true: throw to monkey 2", "    If false: throw to monkey 3"];
    JoinLines(lines);
    LinesCons(lines[0], [lines[1]], "");
    assert lines == [lines[0]] + [lines[1]];
    FalseLine3("");
    TrueLine2("\n" + (Spaces(4) + (FALSE_TAG + (NatToString(3) + ""))));
    ParseTargetsText(Targets(2, 3), "");
  }

  lemma ExampleFits()
    ensures Fits(SINGLE) && Fits(MONKEY0) && Fits(MONKEY1) && Fits(MONKEY2) && Fits(MONKEY3)
  {
  }

  lemma SingleText()
    ensures Join(SINGLE_LINES, '\n') == MonkeyText(SINGLE, "")
  {
    JoinLines(SINGLE_LINES);
    SingleLines("");
  }

  /** test_parse_monkey */
  lemma ExampleMonkey()
    ensures ParseMonkey(Join(SINGLE_LINES, '\n')) == Some((SINGLE, ""))
  {
    SingleText();
    ExampleFits();
    ParseMonkeyText(SINGLE, "");
  }

  lemma BlankLine(a: seq<string>, b: seq<string>, rest: string)
    requires |a| >= 1 && |b| >= 1
    ensures Lines(a + ([""] + b), rest) == Lines(a, "\n\n" + Lines(b, rest))
  {
    var y := Lines(b, rest);
    LinesAppend(a, [""] + b, rest);
    LinesCons("", b, rest);
    assert "" + ("\n" + y) == "\n" + y;
    assert "\n" + "\n" == "\n\n";
    Assoc("\n", "\n", y);
    assert "\n" + Lines([""] + b, rest) == "\n\n" + y;
  }

  lemma ExampleTail2()
    ensures Lines(MONKEY2_LINES + ([""] + MONKEY3_LINES), "") == MonkeysText([MONKEY2, MONKEY3])
  {
    BlankLine(MONKEY2_LINES, MONKEY3_LINES, "");
    Monkey3Lines("");
    Monkey2Lines("\n\n" + Lines(MONKEY3_LINES, ""));
    assert [MONKEY2, MONKEY3][1..] == [MONKEY3];
  }

  lemma ExampleTail1()
    ensures Lines(MONKEY1_LINES + ([""] + (MONKEY2_LINES + ([""] + MONKEY3_LINES))), "") ==
            MonkeysText([MONKEY1, MONKEY2, MONKEY3])
  {
    var tail := MONKEY2_LINES + ([""] + MONKEY3_LINES);
    BlankLine(MONKEY1_LINES, tail, "");
    ExampleTail2();
    Monkey1Lines("\n\n" + Lines(tail, ""));
    assert [MONKEY1, MONKEY2, MONKEY3][1..] == [MONKEY2, MONKEY3];
  }

  /** The example input is the text of its four monkeys. */
  lemma ExampleText()
    ensures Join(INPUT_LINES, '\n') == MonkeysText(EXAMPLE)
  {
    JoinLines(INPUT_LINES);
    var tail := MONKEY1_LINES + ([""] + (MONKEY2_LINES + ([""] + MONKEY3_LINES)));
    BlankLine(MONKEY0_LINES, tail, "");
    ExampleTail1();
    Monkey0Lines("\n\n" + Lines(tail, ""));
    assert EXAMPLE[1..] == [MONKEY1, MONKEY2, MONKEY3];
  }

  /** test_parse_monkeys */
  lemma ExampleMonkeys()
    ensures ParseMonkeys(Join(INPUT_LINES, '\n')) == EXAMPLE
  {
    ExampleText();
    ExampleFits();
    ParseMonkeysText(EXAMPLE);
  }

  /** The example can be simulated with either worry divisor, and the worry
      levels of both parts are kept modulo 23 * 19 * 13 * 17. */
  lemma ExampleValid()
    ensures Valid(EXAMPLE)
    ensures Modulus(EXAMPLE) == 96577
  {
    assert EXAMPLE[..3] == [MONKEY0, MONKEY1, MONKEY2];
    assert EXAMPLE[..3][..2] == [MONKEY0, MONKEY1];
    assert EXAMPLE[..3][..2][..1] == [MONKEY0];
    assert [MONKEY0][..0] == [];
    assert Modulus([MONKEY0]) == 23;
    assert Modulus([MONKEY0, MONKEY1]) == 23 * 19;
    assert Modulus([MONKEY0, MONKEY1, MONKEY2]) == 23 * 19 * 13;
  }
}
