/** Day 11: monkeys pass items around. Each monkey inspects every item it
    holds, changes the item's worry level by its operation, and throws it
    to one of two monkeys depending on whether the new level is divisible
    by its test number. The answer is the product of the two largest
    inspection counts. */
module Monkeys {
  import opened Wrappers
  import opened Text
  import opened Seqs

  datatype Test = DivisibleBy(divisor: nat)

  datatype Operation = Add(n: nat) | Multiply(n: nat) | Square

  datatype Targets = Targets(whenTrue: nat, whenFalse: nat)

  /** A monkey; an item is its worry level, so the queue is a sequence of
      worry levels, front first. */
  datatype Monkey = Monkey(number: nat, items: seq<nat>, operation: Operation,
                           test: Test, targets: Targets, inspected: nat)

  // Parsing

  /** nom's `u64` (or `digit1` read with `str::parse::<u64>`). */
  function Number(s: string): (r: Option<(nat, string)>)
    ensures r.Some? ==> r.value.0 < U64_LIMIT && |r.value.1| < |s|
  {
    NatPrefix(s, U64_LIMIT)
  }

  /** A tag, then a number. */
  function TagNumber(s: string, t: string): (r: Option<(nat, string)>)
    ensures r.Some? ==> r.value.0 < U64_LIMIT && |r.value.1| < |s|
  {
    var a :- Tag(s, t);
    Number(a)
  }

  /** nom's `line_ending`: "\n" or "\r\n". */
  function LineEnding(s: string): (r: Option<string>)
    ensures r.Some? ==> |r.value| < |s|
  {
    if |s| >= 1 && s[0] == '\n' then Some(s[1..])
    else if |s| >= 2 && s[..2] == "\r\n" then Some(s[2..])
    else None
  }

  /** nom's `take_until("\n")`: everything up to the first line feed is
      consumed; without a line feed it is an error. */
  function TakeUntilNewline(s: string): (r: Option<string>)
    ensures r.Some? ==> |r.value| <= |s| && |r.value| >= 1 && r.value[0] == '\n'
  {
    if s == [] then None
    else if s[0] == '\n' then Some(s)
    else TakeUntilNewline(s[1..])
  }

  const TEST_TAG := "Test: "
  const DIVISIBLE_TAG := "divisible by "
  const TRUE_TAG := "If true: throw to monkey "
  const FALSE_TAG := "If false: throw to monkey "
  const MONKEY_TAG := "Monkey "
  const ITEMS_TAG := "Starting items: "
  const OPERATION_TAG := "Operation: new = old "
  const SEPARATOR := ", "

  /** Test::parse: optional white space, "Test: divisible by " and a number. */
  function ParseTest(s: string): (r: Option<(Test, string)>)
    ensures r.Some? ==> r.value.0.divisor < U64_LIMIT && |r.value.1| < |s|
  {
    var a :- Tag(SkipMultispace(s), TEST_TAG);
    var b :- TagNumber(a, DIVISIBLE_TAG);
    Some((DivisibleBy(b.0), b.1))
  }

  /** Item::parse: optional white space, then a number. */
  function ParseItem(s: string): (r: Option<(nat, string)>)
    ensures r.Some? ==> r.value.0 < U64_LIMIT && |r.value.1| < |s|
  {
    Number(SkipMultispace(s))
  }

  /** The tail of `separated_list1(tag(", "), Item::parse)`: further items,
      each after a separator. When the separator or the item after it is
      missing, the list ends before the separator. */
  function MoreItems(s: string): (r: (seq<nat>, string))
    ensures |r.1| <= |s|
    ensures forall w :: w in r.0 ==> w < U64_LIMIT
    decreases |s|
  {
    match Tag(s, SEPARATOR)
    case None => ([], s)
    case Some(a) =>
      match ParseItem(a)
      case None => ([], s)
      case Some((w, rest)) =>
        var more := MoreItems(rest);
        FitsCons(w, more.0);
        ([w] + more.0, more.1)
  }

  lemma FitsCons(w: nat, ws: seq<nat>)
    requires w < U64_LIMIT && forall x :: x in ws ==> x < U64_LIMIT
    ensures forall x :: x in [w] + ws ==> x < U64_LIMIT
  {
  }

  /** `separated_list1(tag(", "), Item::parse)`: one or more items. */
  function ParseItems(s: string): (r: Option<(seq<nat>, string)>)
    ensures r.Some? ==> |r.value.0| >= 1 && |r.value.1| < |s|
    ensures r.Some? ==> forall w :: w in r.value.0 ==> w < U64_LIMIT
  {
    var first :- ParseItem(s);
    var more := MoreItems(first.1);
    Some(([first.0] + more.0, more.1))
  }

  /** The `alt` of "+ n", "* n" and "* old", tried in that order: "* old"
      is reached when "* " is not followed by digits. */
  function ParseOperation(s: string): (r: Option<(Operation, string)>)
    ensures r.Some? ==> |r.value.1| < |s|
    ensures r.Some? && (r.value.0.Add? || r.value.0.Multiply?) ==> r.value.0.n < U64_LIMIT
  {
    match TagNumber(s, "+ ")
    case Some((n, rest)) => Some((Add(n), rest))
    case None =>
      match TagNumber(s, "* ")
      case Some((n, rest)) => Some((Multiply(n), rest))
      case None =>
        match Tag(s, "* old")
        case Some(rest) => Some((Square, rest))
        case None => None
  }

  /** TestResultTargetMonkey::parse: optional white space, the "If true"
      line, a line ending, optional spaces and the "If false" line. */
  function ParseTargets(s: string): (r: Option<(Targets, string)>)
    ensures r.Some? ==> r.value.0.whenTrue < U64_LIMIT && r.value.0.whenFalse < U64_LIMIT
    ensures r.Some? ==> |r.value.1| < |s|
  {
    var t :- TagNumber(SkipMultispace(s), TRUE_TAG);
    var a :- LineEnding(t.1);
    var f :- TagNumber(SkipSpace(a), FALSE_TAG);
    Some((Targets(t.0, f.0), f.1))
  }

  /** The values a parsed monkey can hold: one or more items, every number
      a u64, and nothing inspected yet. */
  predicate Fits(m: Monkey)
  {
    m.number < U64_LIMIT && |m.items| >= 1 && (forall w :: w in m.items ==> w < U64_LIMIT) &&
    (m.operation.Add? || m.operation.Multiply? ==> m.operation.n < U64_LIMIT) &&
    m.test.divisor < U64_LIMIT &&
    m.targets.whenTrue < U64_LIMIT && m.targets.whenFalse < U64_LIMIT &&
    m.inspected == 0
  }

  /** Monkey::parse: the header with the monkey's number (anything after it
      up to the line feed is skipped), the starting items, the operation,
      the test and the two targets. */
  function ParseMonkey(s: string): (r: Option<(Monkey, string)>)
    ensures r.Some? ==> Fits(r.value.0) && |r.value.1| < |s|
  {
    ParseMonkeyAt(SkipMultispace(s))
  }

  /** Monkey::parse after the white space it skips first. */
  function ParseMonkeyAt(s: string): (r: Option<(Monkey, string)>)
    ensures r.Some? ==> Fits(r.value.0) && |r.value.1| < |s|
  {
    var header :- TagNumber(s, MONKEY_TAG);
    var a :- TakeUntilNewline(header.1);
    // take_until stops at a line feed, so line_ending always succeeds
    var b := LineEnding(a).value;
    ParseMonkeyBody(b, header.0)
  }

  /** The lines after the header: the starting items, the operation, the
      test and the two targets, for the monkey numbered `number`. */
  function ParseMonkeyBody(s: string, number: nat): (r: Option<(Monkey, string)>)
    requires number < U64_LIMIT
    ensures r.Some? ==> Fits(r.value.0) && r.value.0.number == number && |r.value.1| < |s|
  {
    var c :- Tag(SkipSpace(s), ITEMS_TAG);
    var items :- ParseItems(c);
    var d :- LineEnding(items.1);
    var e :- Tag(SkipSpace(d), OPERATION_TAG);
    var op :- ParseOperation(e);
    var test :- ParseTest(op.1);
    var targets :- ParseTargets(test.1);
    Some((Monkey(number, items.0, op.0, test.0, targets.0, 0), targets.1))
  }

  /** parse_monkeys, `many0(Monkey::parse)`: monkeys up to the first place
      where none can be read. many0 never fails, so neither does the
      `unwrap` of its result. */
  function ParseMonkeys(s: string): (r: seq<Monkey>)
    ensures forall m :: m in r ==> Fits(m)
    decreases |s|
  {
    match ParseMonkey(s)
    case None => []
    case Some((m, rest)) => [m] + ParseMonkeys(rest)
  }

  // The text of monkeys, used to state that the parsers read it back.

  /** `k` spaces. */
  function Spaces(k: nat): (r: string)
    ensures |r| == k
  {
    if k == 0 then "" else " " + Spaces(k - 1)
  }

  lemma {:induction false} SkipSpaces(k: nat, t: string)
    requires t == [] || !IsMultispace(t[0])
    ensures SkipMultispace(Spaces(k) + t) == t
    ensures SkipSpace(Spaces(k) + t) == t
  {
    var s := Spaces(k) + t;
    if k == 0 {
      assert s == t;
    } else {
      assert s[0] == ' ';
      assert s[1..] == Spaces(k - 1) + t;
      SkipSpaces(k - 1, t);
    }
  }

  /** A line feed is a line ending and white space. */
  lemma Newline(x: string)
    ensures LineEnding("\n" + x) == Some(x)
    ensures SkipMultispace("\n" + x) == SkipMultispace(x)
  {
    assert ("\n" + x)[1..] == x;
  }

  /** A blank line is white space. */
  lemma BlankLineBefore(x: string)
    ensures SkipMultispace("\n\n" + x) == SkipMultispace(x)
  {
    assert "\n\n" + x == "\n" + ("\n" + x);
    Newline("\n" + x);
    Newline(x);
  }

  /** Text that starts with a tag has no white space to skip. */
  lemma NoSpaceAtTag(t: string, x: string)
    requires |t| >= 1 && !IsMultispace(t[0])
    ensures SkipMultispace(t + x) == t + x
  {
    assert (t + x)[0] == t[0];
  }

  /** The rest of the header line, ":", is skipped up to its line feed. */
  lemma ColonLine(x: string)
    ensures TakeUntilNewline(":" + ("\n" + x)) == Some("\n" + x)
  {
    assert (":" + ("\n" + x))[1..] == "\n" + x;
  }

  /** The facts about the tags that parsing relies on. */
  lemma Tags()
    ensures |TEST_TAG| >= 1 && TEST_TAG[0] == 'T'
    ensures |DIVISIBLE_TAG| >= 1 && DIVISIBLE_TAG[0] == 'd'
    ensures |TRUE_TAG| >= 1 && TRUE_TAG[0] == 'I'
    ensures |FALSE_TAG| >= 1 && FALSE_TAG[0] == 'I'
    ensures |MONKEY_TAG| >= 1 && MONKEY_TAG[0] == 'M'
    ensures |ITEMS_TAG| >= 1 && ITEMS_TAG[0] == 'S'
    ensures |OPERATION_TAG| >= 1 && OPERATION_TAG[0] == 'O'
    ensures |SEPARATOR| >= 1 && SEPARATOR[0] == ','
  {
  }

  /** A tag, then a number, then the rest. */
  lemma TagNumberOf(t: string, n: nat, rest: string)
    requires n < U64_LIMIT
    requires rest == [] || !IsDigit(rest[0])
    ensures TagNumber(t + (NatToString(n) + rest), t) == Some((n, rest))
  {
    TagOfPrefix(t, NatToString(n) + rest);
    NatPrefixOfString(n, rest, U64_LIMIT);
  }

  /** The test line, as the input indents it. */
  function TestText(t: Test, rest: string): string
  {
    Spaces(2) + (TEST_TAG + (DIVISIBLE_TAG + (NatToString(t.divisor) + rest)))
  }

  lemma ParseTestText(t: Test, rest: string)
    requires t.divisor < U64_LIMIT
    requires rest == [] || !IsDigit(rest[0])
    ensures ParseTest(TestText(t, rest)) == Some((t, rest))
    ensures ParseTest("\n" + TestText(t, rest)) == Some((t, rest))
  {
    Tags();
    var line := TEST_TAG + (DIVISIBLE_TAG + (NatToString(t.divisor) + rest));
    SkipSpaces(2, line);
    assert SkipMultispace("\n" + TestText(t, rest)) == SkipMultispace(TestText(t, rest));
    TagOfPrefix(TEST_TAG, DIVISIBLE_TAG + (NatToString(t.divisor) + rest));
    TagNumberOf(DIVISIBLE_TAG, t.divisor, rest);
  }

  /** The two target lines, as the input indents them. */
  function TargetsText(t: Targets, rest: string): string
  {
    Spaces(4) + (TRUE_TAG + (NatToString(t.whenTrue) + ("\n" +
      (Spaces(4) + (FALSE_TAG + (NatToString(t.whenFalse) + rest))))))
  }

  lemma ParseTargetsText(t: Targets, rest: string)
    requires t.whenTrue < U64_LIMIT && t.whenFalse < U64_LIMIT
    requires rest == [] || !IsDigit(rest[0])
    ensures ParseTargets(TargetsText(t, rest)) == Some((t, rest))
    ensures ParseTargets("\n" + TargetsText(t, rest)) == Some((t, rest))
  {
    Tags();
    var second := FALSE_TAG + (NatToString(t.whenFalse) + rest);
    var first := TRUE_TAG + (NatToString(t.whenTrue) + ("\n" + (Spaces(4) + second)));
    SkipSpaces(4, first);
    SkipSpaces(4, second);
    assert SkipMultispace("\n" + TargetsText(t, rest)) == SkipMultispace(TargetsText(t, rest));
    TagNumberOf(TRUE_TAG, t.whenTrue, "\n" + (Spaces(4) + second));
    TagNumberOf(FALSE_TAG, t.whenFalse, rest);
  }

  /** The items, separated by ", ". */
  function ItemsText(items: seq<nat>, rest: string): string
  {
    if items == [] then rest
    else NatToString(items[0]) + (if |items| == 1 then rest else SEPARATOR + ItemsText(items[1..], rest))
  }

  lemma ParseItemOf(w: nat, rest: string)
    requires w < U64_LIMIT
    requires rest == [] || !IsDigit(rest[0])
    ensures ParseItem(NatToString(w) + rest) == Some((w, rest))
  {
    var d := NatToString(w);
    assert (d + rest)[0] == d[0];
    SkipMultispaceAtDigit(d + rest);
    NatPrefixOfString(w, rest, U64_LIMIT);
  }

  /** The text after the first item. */
  function ItemsTail(items: seq<nat>, rest: string): string
    requires |items| >= 1
  {
    if |items| == 1 then rest else SEPARATOR + ItemsText(items[1..], rest)
  }

  lemma ItemsTailFirst(items: seq<nat>, rest: string)
    requires rest == [] || (rest[0] != ',' && !IsDigit(rest[0]))
    requires |items| >= 1
    ensures var tail := ItemsTail(items, rest); tail == [] || (!IsDigit(tail[0]) && (tail[0] == ',' <==> |items| > 1))
  {
  }

  lemma {:induction false} MoreItemsText(items: seq<nat>, rest: string)
    requires |items| >= 1 && forall w :: w in items ==> w < U64_LIMIT
    requires rest == [] || (rest[0] != ',' && !IsDigit(rest[0]))
    ensures MoreItems(SEPARATOR + ItemsText(items, rest)) == (items, rest)
    decreases |items|
  {
    TagOfPrefix(SEPARATOR, ItemsText(items, rest));
    assert items[0] in items;
    FirstItem(items, rest);
    MoreItemsStep(SEPARATOR + ItemsText(items, rest), ItemsText(items, rest), items[0], ItemsTail(items, rest));
    if |items| == 1 {
      NoMoreItems(rest);
      ConsTail(items, []);
    } else {
      assert forall w :: w in items[1..] ==> w in items;
      MoreItemsText(items[1..], rest);
      ConsTail(items, items[1..]);
    }
  }

  /** One separator and item, then the rest of the list. */
  lemma MoreItemsStep(s: string, a: string, w: nat, r: string)
    requires Tag(s, SEPARATOR) == Some(a) && ParseItem(a) == Some((w, r))
    ensures MoreItems(s) == ([w] + MoreItems(r).0, MoreItems(r).1)
  {
  }

  lemma FirstItem(items: seq<nat>, rest: string)
    requires |items| >= 1 && items[0] < U64_LIMIT
    requires rest == [] || (rest[0] != ',' && !IsDigit(rest[0]))
    ensures ParseItem(ItemsText(items, rest)) == Some((items[0], ItemsTail(items, rest)))
  {
    ItemsTailFirst(items, rest);
    ParseItemOf(items[0], ItemsTail(items, rest));
  }

  lemma NoMoreItems(rest: string)
    requires rest == [] || rest[0] != ','
    ensures MoreItems(rest) == ([], rest)
  {
    Tags();
    assert Tag(rest, SEPARATOR) == None;
  }

  lemma ParseItemsText(items: seq<nat>, rest: string)
    requires |items| >= 1 && forall w :: w in items ==> w < U64_LIMIT
    requires rest == [] || (rest[0] != ',' && !IsDigit(rest[0]))
    ensures ParseItems(ItemsText(items, rest)) == Some((items, rest))
  {
    assert items[0] in items;
    FirstItem(items, rest);
    if |items| == 1 {
      NoMoreItems(rest);
      ConsTail(items, []);
    } else {
      assert forall w :: w in items[1..] ==> w in items;
      MoreItemsText(items[1..], rest);
      ConsTail(items, items[1..]);
    }
  }

  /** What follows "new = old ". */
  function OperationText(op: Operation, rest: string): string
  {
    match op
    case Add(n) => "+ " + (NatToString(n) + rest)
    case Multiply(n) => "* " + (NatToString(n) + rest)
    case Square => "* old" + rest
  }

  lemma ParseOperationText(op: Operation, rest: string)
    requires op.Add? || op.Multiply? ==> op.n < U64_LIMIT
    requires rest == [] || !IsDigit(rest[0])
    ensures ParseOperation(OperationText(op, rest)) == Some((op, rest))
  {
    match op
    case Add(n) => TagNumberOf("+ ", n, rest);
    case Multiply(n) => ParseMultiply(n, rest);
    case Square => ParseSquare(rest);
  }

  lemma ParseMultiply(n: nat, rest: string)
    requires n < U64_LIMIT
    requires rest == [] || !IsDigit(rest[0])
    ensures ParseOperation("* " + (NatToString(n) + rest)) == Some((Multiply(n), rest))
  {
    var s := "* " + (NatToString(n) + rest);
    assert s[0] == '*';
    assert Tag(s, "+ ") == None;
    TagNumberOf("* ", n, rest);
  }

  /** "* old": the "* " branch fails on the 'o', and the third one matches. */
  lemma ParseSquare(rest: string)
    ensures ParseOperation("* old" + rest) == Some((Square, rest))
  {
    var s := "* old" + rest;
    assert s[0] == '*';
    assert Tag(s, "+ ") == None;
    TagOfPrefix("* ", "old" + rest);
    assert s == "* " + ("old" + rest);
    assert ("old" + rest)[0] == 'o';
    assert Number("old" + rest) == None;
    TagOfPrefix("* old", rest);
  }

  /** The text of a monkey, laid out as in the puzzle input, then `rest`.
      The pieces after each part are named so that the parse can be
      followed part by part. */
  function MonkeyText(m: Monkey, rest: string): string
  {
    MONKEY_TAG + (NatToString(m.number) + (":" + ("\n" + AfterHeader(m, rest))))
  }

  function AfterHeader(m: Monkey, rest: string): string
  {
    Spaces(2) + (ITEMS_TAG + ItemsText(m.items, AfterItems(m, rest)))
  }

  function AfterItems(m: Monkey, rest: string): string
  {
    "\n" + (Spaces(2) + (OPERATION_TAG + OperationText(m.operation, AfterOperation(m, rest))))
  }

  function AfterOperation(m: Monkey, rest: string): string
  {
    "\n" + TestText(m.test, AfterTest(m, rest))
  }

  function AfterTest(m: Monkey, rest: string): string
  {
    "\n" + TargetsText(m.targets, rest)
  }

  lemma HeaderOf(m: Monkey, rest: string)
    requires Fits(m)
    ensures SkipMultispace(MonkeyText(m, rest)) == MonkeyText(m, rest)
    ensures SkipMultispace("\n\n" + MonkeyText(m, rest)) == MonkeyText(m, rest)
    ensures TagNumber(MonkeyText(m, rest), MONKEY_TAG) == Some((m.number, ":" + ("\n" + AfterHeader(m, rest))))
  {
    Tags();
    var after := ":" + ("\n" + AfterHeader(m, rest));
    NoSpaceAtTag(MONKEY_TAG, NatToString(m.number) + after);
    BlankLineBefore(MonkeyText(m, rest));
    TagNumberOf(MONKEY_TAG, m.number, after);
  }

  lemma HeaderLineOf(m: Monkey, rest: string)
    ensures TakeUntilNewline(":" + ("\n" + AfterHeader(m, rest))) == Some("\n" + AfterHeader(m, rest))
    ensures LineEnding("\n" + AfterHeader(m, rest)) == Some(AfterHeader(m, rest))
  {
    ColonLine(AfterHeader(m, rest));
    Newline(AfterHeader(m, rest));
  }

  lemma ItemsLineOf(m: Monkey, rest: string)
    requires Fits(m)
    ensures Tag(SkipSpace(AfterHeader(m, rest)), ITEMS_TAG) == Some(ItemsText(m.items, AfterItems(m, rest)))
    ensures ParseItems(ItemsText(m.items, AfterItems(m, rest))) == Some((m.items, AfterItems(m, rest)))
  {
    Tags();
    SkipSpaces(2, ITEMS_TAG + ItemsText(m.items, AfterItems(m, rest)));
    TagOfPrefix(ITEMS_TAG, ItemsText(m.items, AfterItems(m, rest)));
    ParseItemsText(m.items, AfterItems(m, rest));
  }

  lemma OperationLineOf(m: Monkey, rest: string)
    requires m.operation.Add? || m.operation.Multiply? ==> m.operation.n < U64_LIMIT
    ensures LineEnding(AfterItems(m, rest)) == Some(Spaces(2) + (OPERATION_TAG + OperationText(m.operation, AfterOperation(m, rest))))
    ensures Tag(SkipSpace(Spaces(2) + (OPERATION_TAG + OperationText(m.operation, AfterOperation(m, rest)))), OPERATION_TAG) ==
      Some(OperationText(m.operation, AfterOperation(m, rest)))
    ensures ParseOperation(OperationText(m.operation, AfterOperation(m, rest))) == Some((m.operation, AfterOperation(m, rest)))
  {
    Tags();
    var text := OperationText(m.operation, AfterOperation(m, rest));
    Newline(Spaces(2) + (OPERATION_TAG + text));
    SkipSpaces(2, OPERATION_TAG + text);
    TagOfPrefix(OPERATION_TAG, text);
    ParseOperationText(m.operation, AfterOperation(m, rest));
  }

  lemma TestAndTargetsOf(m: Monkey, rest: string)
    requires Fits(m)
    requires rest == [] || !IsDigit(rest[0])
    ensures ParseTest(AfterOperation(m, rest)) == Some((m.test, AfterTest(m, rest)))
    ensures ParseTargets(AfterTest(m, rest)) == Some((m.targets, rest))
  {
    ParseTestText(m.test, AfterTest(m, rest));
    ParseTargetsText(m.targets, rest);
  }

  /** Monkey::parse reads back the text of any monkey it can produce,
      leaving what follows when that does not start with a digit; white
      space before the monkey is skipped. */
  lemma ParseMonkeyText(m: Monkey, rest: string)
    requires Fits(m)
    requires rest == [] || !IsDigit(rest[0])
    ensures ParseMonkey(MonkeyText(m, rest)) == Some((m, rest))
    ensures ParseMonkey("\n\n" + MonkeyText(m, rest)) == Some((m, rest))
  {
    HeaderOf(m, rest);
    ParseMonkeyFromHeader(m, rest);
  }

  /** The parse from an unindented header on. */
  lemma ParseMonkeyFromHeader(m: Monkey, rest: string)
    requires Fits(m)
    requires rest == [] || !IsDigit(rest[0])
    ensures ParseMonkeyAt(MonkeyText(m, rest)) == Some((m, rest))
  {
    HeaderOf(m, rest);
    HeaderLineOf(m, rest);
    ParseMonkeyBodyText(m, rest);
  }

  /** The lines after the header read back the rest of the monkey. */
  lemma ParseMonkeyBodyText(m: Monkey, rest: string)
    requires Fits(m)
    requires rest == [] || !IsDigit(rest[0])
    ensures ParseMonkeyBody(AfterHeader(m, rest), m.number) == Some((m, rest))
  {
    ItemsLineOf(m, rest);
    OperationLineOf(m, rest);
    TestAndTargetsOf(m, rest);
  }

  /** Monkeys separated by a blank line. */
  function MonkeysText(ms: seq<Monkey>): string
    requires |ms| >= 1
  {
    MonkeyText(ms[0], if |ms| == 1 then "" else "\n\n" + MonkeysText(ms[1..]))
  }

  lemma NothingMore()
    ensures ParseMonkeys("") == []
  {
    assert SkipMultispace("") == "";
    Tags();
  }

  /** parse_monkeys reads back the text of one or more monkeys. */
  lemma {:induction false} ParseMonkeysText(ms: seq<Monkey>)
    requires |ms| >= 1 && forall m :: m in ms ==> Fits(m)
    ensures ParseMonkeys(MonkeysText(ms)) == ms
    ensures ParseMonkeys("\n\n" + MonkeysText(ms)) == ms
    decreases |ms|
  {
    assert ms[0] in ms;
    if |ms| == 1 {
      ParseMonkeyText(ms[0], "");
      NothingMore();
      ConsTail(ms, []);
    } else {
      assert forall m :: m in ms[1..] ==> m in ms;
      ParseMonkeyText(ms[0], "\n\n" + MonkeysText(ms[1..]));
      ParseMonkeysText(ms[1..]);
      ConsTail(ms, ms[1..]);
    }
  }

  // One round

  /** The modulus and the worry divisor are positive: `%` and `/` by zero
      panic. */
  type Positive = x: nat | x >= 1 witness 1

  /** The part of a monkey a round never changes. */
  function Config(m: Monkey): (nat, Operation, Test, Targets)
  {
    (m.number, m.operation, m.test, m.targets)
  }

  /** Two lists of monkeys of the same length, each with the same
      configuration as its counterpart. */
  predicate SameConfig(a: seq<Monkey>, b: seq<Monkey>)
  {
    |a| == |b| && forall j :: 0 <= j < |a| ==> Config(a[j]) == Config(b[j])
  }

  /** Monkey j's divisor is positive (a zero one makes `%` panic), both its
      targets are monkeys of the list (otherwise indexing panics), and it
      never throws to itself (its turn would pop the item again, and may
      never end). */
  predicate ValidAt(ms: seq<Monkey>, j: nat)
    requires j < |ms|
  {
    ms[j].test.divisor >= 1 &&
    ms[j].targets.whenTrue < |ms| && ms[j].targets.whenFalse < |ms| &&
    ms[j].targets.whenTrue != j && ms[j].targets.whenFalse != j
  }

  /** A configuration the round handles: every monkey valid. */
  predicate Valid(ms: seq<Monkey>)
  {
    forall j :: 0 <= j < |ms| ==> ValidAt(ms, j)
  }

  lemma ValidDivisors(ms: seq<Monkey>)
    requires Valid(ms)
    ensures forall j :: 0 <= j < |ms| ==> ms[j].test.divisor >= 1
  {
    forall j | 0 <= j < |ms|
      ensures ms[j].test.divisor >= 1
    {
      assert ValidAt(ms, j);
    }
  }

  lemma SameConfigValid(a: seq<Monkey>, b: seq<Monkey>)
    requires SameConfig(a, b) && Valid(a)
    ensures Valid(b)
  {
    forall j | 0 <= j < |b|
      ensures ValidAt(b, j)
    {
      assert ValidAt(a, j);
      assert Config(a[j]) == Config(b[j]);
    }
  }

  /** The reducing modulus: the test divisors multiplied together, folded
      from 1. */
  function Modulus(ms: seq<Monkey>): nat
  {
    if ms == [] then 1 else Modulus(ms[..|ms| - 1]) * ms[|ms| - 1].test.divisor
  }

  lemma {:induction false} ModulusPositive(ms: seq<Monkey>)
    requires forall j :: 0 <= j < |ms| ==> ms[j].test.divisor >= 1
    ensures Modulus(ms) >= 1
    decreases |ms|
  {
    if ms != [] {
      ModulusPositive(ms[..|ms| - 1]);
      PositiveProduct(Modulus(ms[..|ms| - 1]), ms[|ms| - 1].test.divisor);
    }
  }

  lemma PositiveProduct(a: nat, b: nat)
    requires a >= 1 && b >= 1
    ensures a * b >= 1
  {
  }

  /** Every test divisor divides the modulus. */
  lemma {:induction false} ModulusMultiple(ms: seq<Monkey>, j: nat)
    requires j < |ms|
    ensures exists c: nat :: Modulus(ms) == c * ms[j].test.divisor
    decreases |ms|
  {
    var n := |ms| - 1;
    var init := ms[..n];
    if j == n {
      assert Modulus(ms) == Modulus(init) * ms[j].test.divisor;
    } else {
      ModulusMultiple(init, j);
      var c: nat :| Modulus(init) == c * init[j].test.divisor;
      assert Modulus(ms) == (c * ms[n].test.divisor) * ms[j].test.divisor;
    }
  }

  /** Euclidean division is unique: a quotient and a remainder in range
      are the ones `/` and `%` give. */
  lemma DivModUnique(a: int, q: int, d: int, r: int)
    requires d >= 1 && a == q * d + r && 0 <= r < d
    ensures a % d == r
  {
    var q2 := a / d;
    var r2 := a % d;
    assert a == q2 * d + r2;
    assert (q2 - q) * d == q2 * d - q * d;
    MulBound(q2 - q, d);
  }

  /** A non-zero multiple of `d` is at least `d` away from zero. */
  lemma MulBound(k: int, d: int)
    requires d >= 1
    ensures k >= 1 ==> k * d >= d
    ensures k <= -1 ==> k * d <= -d
  {
  }

  /** Adding a multiple of `d` leaves the remainder modulo `d`. */
  lemma ModAddMultiple(k: nat, d: nat, r: nat)
    requires d >= 1
    ensures (k * d + r) % d == r % d
  {
    var q := r / d;
    assert r == q * d + r % d;
    assert k * d + r == (k + q) * d + r % d;
    DivModUnique(k * d + r, k + q, d, r % d);
  }

  /** Reducing modulo a multiple of `d` leaves the remainder modulo `d`. */
  lemma ModOfMultiple(x: nat, c: nat, d: nat)
    requires c >= 1 && d >= 1
    ensures (x % (c * d)) % d == x % d
  {
    var p := c * d;
    var q := x / p;
    assert x == q * p + x % p;
    assert q * p == (q * c) * d;
    ModAddMultiple(q * c, d, x % p);
  }

  /** The trick the round relies on: reducing a worry level modulo the
      product of all divisors leaves its remainder modulo each divisor. */
  lemma ReductionKeepsRemainders(ms: seq<Monkey>, x: nat)
    requires forall j :: 0 <= j < |ms| ==> ms[j].test.divisor >= 1
    ensures Modulus(ms) >= 1
    ensures forall j :: 0 <= j < |ms| ==> (x % Modulus(ms)) % ms[j].test.divisor == x % ms[j].test.divisor
  {
    ModulusPositive(ms);
    forall j | 0 <= j < |ms|
      ensures (x % Modulus(ms)) % ms[j].test.divisor == x % ms[j].test.divisor
    {
      ModulusMultiple(ms, j);
      var c: nat :| Modulus(ms) == c * ms[j].test.divisor;
      ModOfMultiple(x, c, ms[j].test.divisor);
    }
  }

  /** The operation applied to a worry level. */
  function Apply(op: Operation, w: nat): nat
  {
    match op
    case Add(n) => w + n
    case Multiply(n) => w * n
    case Square => w * w
  }

  /** The new worry level of an item: the operation's result reduced
      modulo the modulus, then divided by the worry divisor. */
  function NewWorry(op: Operation, w: nat, modulus: Positive, worryDivisor: Positive): nat
  {
    (Apply(op, w) % modulus) / worryDivisor
  }

  /** Where monkey `m` throws an item with worry level `w`. */
  function Dest(m: Monkey, w: nat): nat
    requires m.test.divisor >= 1
  {
    if w % m.test.divisor == 0 then m.targets.whenTrue else m.targets.whenFalse
  }

  /** With a worry divisor of 1 the reduction changes no routing: each
      item goes where the unreduced level would send it. */
  lemma RoutingUnchanged(ms: seq<Monkey>, i: nat, w: nat)
    requires i < |ms| && forall j :: 0 <= j < |ms| ==> ms[j].test.divisor >= 1
    ensures Modulus(ms) >= 1
    ensures Dest(ms[i], NewWorry(ms[i].operation, w, Modulus(ms), 1)) == Dest(ms[i], Apply(ms[i].operation, w))
  {
    ReductionKeepsRemainders(ms, Apply(ms[i].operation, w));
  }

  /** The new worry levels of monkey m's items, in queue order. */
  function Worries(m: Monkey, modulus: Positive, worryDivisor: Positive): (ws: seq<nat>)
    ensures |ws| == |m.items|
  {
    seq(|m.items|, k requires 0 <= k < |m.items| => NewWorry(m.operation, m.items[k], modulus, worryDivisor))
  }

  /** The levels among `ws` that monkey m throws to monkey j, in order. */
  function Sent(m: Monkey, ws: seq<nat>, j: nat): seq<nat>
    requires m.test.divisor >= 1
  {
    if ws == [] then []
    else
      var w := ws[|ws| - 1];
      Sent(m, ws[..|ws| - 1], j) + (if Dest(m, w) == j then [w] else [])
  }

  /** Throwing keeps order: the items sent from a longer list are those
      sent from its first part followed by those sent from the rest. */
  lemma {:induction false} SentAppend(m: Monkey, a: seq<nat>, b: seq<nat>, j: nat)
    requires m.test.divisor >= 1
    ensures Sent(m, a + b, j) == Sent(m, a, j) + Sent(m, b, j)
    decreases |b|
  {
    if b == [] {
      assert a + b == a;
    } else {
      var n := |b| - 1;
      assert (a + b)[..|a + b| - 1] == a + b[..n];
      SentAppend(m, a, b[..n], j);
    }
  }

  /** Monkey j receives exactly the levels that route to it. */
  lemma {:induction false} SentMembers(m: Monkey, ws: seq<nat>, j: nat)
    requires m.test.divisor >= 1
    ensures forall w :: w in Sent(m, ws, j) <==> w in ws && Dest(m, w) == j
    decreases |ws|
  {
    if ws != [] {
      var n := |ws| - 1;
      SentMembers(m, ws[..n], j);
      assert ws == ws[..n] + [ws[n]];
    }
  }

  /** Monkey i pops its front item and appends the item's new level to
      the back of its destination's queue. */
  function Throw(ms: seq<Monkey>, i: nat, modulus: Positive, worryDivisor: Positive): (r: seq<Monkey>)
    requires i < |ms| && |ms[i].items| >= 1 && ValidAt(ms, i)
  {
    var m := ms[i];
    var w := NewWorry(m.operation, m.items[0], modulus, worryDivisor);
    var rest: seq<nat> := m.items[1..];
    var popped := ms[i := m.(items := rest)];
    var dest := Dest(m, w);
    var received: seq<nat> := popped[dest].items + [w];
    popped[dest := popped[dest].(items := received)]
  }

  /** Monkey i's turn part-way, as its loop runs: its inspection count has
      grown by the length of its queue, and then its first k items have
      been thrown one after the other. */
  function Partial(ms: seq<Monkey>, i: nat, k: nat, modulus: Positive, worryDivisor: Positive): (r: seq<Monkey>)
    requires i < |ms| && ValidAt(ms, i) && k <= |ms[i].items|
    ensures |r| == |ms| && Config(r[i]) == Config(ms[i]) && r[i].items == ms[i].items[k..]
    decreases k
  {
    if k == 0 then ms[i := ms[i].(inspected := ms[i].inspected + |ms[i].items|)]
    else
      var p := Partial(ms, i, k - 1, modulus, worryDivisor);
      assert ValidAt(p, i);
      assert ms[i].items[k - 1..][1..] == ms[i].items[k..];
      Throw(p, i, modulus, worryDivisor)
  }

  /** Monkey i's turn: every item it held thrown. */
  function Turn(ms: seq<Monkey>, i: nat, modulus: Positive, worryDivisor: Positive): (r: seq<Monkey>)
    requires i < |ms| && ValidAt(ms, i)
    ensures SameConfig(ms, r)
  {
    PartialConfig(ms, i, |ms[i].items|, modulus, worryDivisor);
    Partial(ms, i, |ms[i].items|, modulus, worryDivisor)
  }

  /** The turns of the first n monkeys, one after the other. */
  function Turns(ms: seq<Monkey>, n: nat, modulus: Positive, worryDivisor: Positive): (r: seq<Monkey>)
    requires Valid(ms) && n <= |ms|
    ensures |r| == |ms| && Valid(r)
  {
    if n == 0 then ms
    else
      var before := Turns(ms, n - 1, modulus, worryDivisor);
      assert ValidAt(before, n - 1);
      var after := Turn(before, n - 1, modulus, worryDivisor);
      SameConfigValid(before, after);
      after
  }

  /** round: every monkey's turn in order, with the modulus computed at the
      start. */
  function RoundOf(ms: seq<Monkey>, worryDivisor: Positive): (r: seq<Monkey>)
    requires Valid(ms)
    ensures |r| == |ms| && Valid(r)
  {
    ValidDivisors(ms);
    ModulusPositive(ms);
    Turns(ms, |ms|, Modulus(ms), worryDivisor)
  }

  /** Keeping the configuration is transitive. */
  lemma SameConfigTrans(a: seq<Monkey>, b: seq<Monkey>, c: seq<Monkey>)
    requires SameConfig(a, b) && SameConfig(b, c)
    ensures SameConfig(a, c)
  {
    forall j | 0 <= j < |a| ensures Config(a[j]) == Config(c[j]) {
      assert Config(a[j]) == Config(b[j]);
    }
  }

  /** Turns change no monkey's operation, test or targets. */
  lemma {:induction false} TurnsConfig(ms: seq<Monkey>, n: nat, modulus: Positive, worryDivisor: Positive)
    requires Valid(ms) && n <= |ms|
    ensures SameConfig(ms, Turns(ms, n, modulus, worryDivisor))
  {
    if n > 0 {
      TurnsConfig(ms, n - 1, modulus, worryDivisor);
      var before := Turns(ms, n - 1, modulus, worryDivisor);
      assert ValidAt(before, n - 1);
      SameConfigTrans(ms, before, Turn(before, n - 1, modulus, worryDivisor));
    }
  }

  /** A round changes no monkey's operation, test or targets. */
  lemma RoundConfig(ms: seq<Monkey>, worryDivisor: Positive)
    requires Valid(ms)
    ensures SameConfig(ms, RoundOf(ms, worryDivisor))
  {
    ValidDivisors(ms);
    ModulusPositive(ms);
    TurnsConfig(ms, |ms|, Modulus(ms), worryDivisor);
  }

  /** A throw changes queues only. */
  lemma ThrowConfig(ms: seq<Monkey>, i: nat, modulus: Positive, worryDivisor: Positive)
    requires i < |ms| && |ms[i].items| >= 1 && ValidAt(ms, i)
    ensures SameConfig(ms, Throw(ms, i, modulus, worryDivisor))
  {
  }

  /** Part of a turn changes queues and counts only. */
  lemma {:induction false} PartialConfig(ms: seq<Monkey>, i: nat, k: nat, modulus: Positive, worryDivisor: Positive)
    requires i < |ms| && ValidAt(ms, i) && k <= |ms[i].items|
    ensures SameConfig(ms, Partial(ms, i, k, modulus, worryDivisor))
    decreases k
  {
    if k > 0 {
      PartialConfig(ms, i, k - 1, modulus, worryDivisor);
      var p := Partial(ms, i, k - 1, modulus, worryDivisor);
      assert ValidAt(p, i);
      ThrowConfig(p, i, modulus, worryDivisor);
    }
  }

  /** What the turn's loop has done after k items, stated outright:
      monkey i has counted its whole queue as inspected and holds the
      items after the first k; each other monkey holds the items it had,
      followed by those of the first k new levels that route to it, in
      order. */
  function AfterThrows(ms: seq<Monkey>, i: nat, k: nat, modulus: Positive, worryDivisor: Positive): (r: seq<Monkey>)
    requires i < |ms| && k <= |ms[i].items| && ms[i].test.divisor >= 1
  {
    var m := ms[i];
    var thrown := Worries(m, modulus, worryDivisor)[..k];
    seq(|ms|, j requires 0 <= j < |ms| =>
      if j == i then m.(items := m.items[k..], inspected := m.inspected + |m.items|)
      else ms[j].(items := ms[j].items + Sent(m, thrown, j)))
  }

  /** Before any item is thrown, only monkey i's inspection count has
      changed. */
  lemma AfterThrowsStart(ms: seq<Monkey>, i: nat, modulus: Positive, worryDivisor: Positive)
    requires i < |ms| && ms[i].test.divisor >= 1
    ensures AfterThrows(ms, i, 0, modulus, worryDivisor) == ms[i := ms[i].(inspected := ms[i].inspected + |ms[i].items|)]
  {
    var p := AfterThrows(ms, i, 0, modulus, worryDivisor);
    assert ms[i].items[0..] == ms[i].items;
    forall j | 0 <= j < |ms| && j != i
      ensures p[j] == ms[j]
    {
      assert ms[j].items + [] == ms[j].items;
    }
  }

  /** Throwing monkey i's k-th item takes the turn one item further. */
  lemma AfterThrowsStep(ms: seq<Monkey>, i: nat, k: nat, modulus: Positive, worryDivisor: Positive)
    requires i < |ms| && ValidAt(ms, i) && k < |ms[i].items|
    ensures var p := AfterThrows(ms, i, k, modulus, worryDivisor);
      |p[i].items| >= 1 && ValidAt(p, i) &&
      AfterThrows(ms, i, k + 1, modulus, worryDivisor) == Throw(p, i, modulus, worryDivisor)
  {
    var m := ms[i];
    var ws := Worries(m, modulus, worryDivisor);
    var p := AfterThrows(ms, i, k, modulus, worryDivisor);
    assert Config(p[i]) == Config(m);
    var w := ws[k];
    assert p[i].items[0] == m.items[k];
    var dest := Dest(m, w);
    var next := AfterThrows(ms, i, k + 1, modulus, worryDivisor);
    var after := Throw(p, i, modulus, worryDivisor);
    assert ws[..k + 1][..k] == ws[..k];
    assert m.items[k..][1..] == m.items[k + 1..];
    forall j | 0 <= j < |ms|
      ensures next[j] == after[j]
    {
      if j != i {
        assert Sent(m, ws[..k + 1], j) == Sent(m, ws[..k], j) + (if dest == j then [w] else []);
      }
    }
  }

  /** The turn's loop does what `AfterThrows` says. */
  lemma {:induction false} PartialThrows(ms: seq<Monkey>, i: nat, k: nat, modulus: Positive, worryDivisor: Positive)
    requires i < |ms| && ValidAt(ms, i) && k <= |ms[i].items|
    ensures Partial(ms, i, k, modulus, worryDivisor) == AfterThrows(ms, i, k, modulus, worryDivisor)
    decreases k
  {
    if k == 0 {
      AfterThrowsStart(ms, i, modulus, worryDivisor);
    } else {
      PartialThrows(ms, i, k - 1, modulus, worryDivisor);
      AfterThrowsStep(ms, i, k - 1, modulus, worryDivisor);
    }
  }

  /** One iteration of the turn's loop: pop the front item, compute its new
      level with the configuration cloned at the start of the turn, and
      push it onto the back of the destination's queue. */
  method ThrowFront(monkeys: array<Monkey>, i: nat, mc: Monkey, modulus: Positive, worryDivisor: Positive)
    requires i < monkeys.Length && |monkeys[i].items| >= 1 && ValidAt(monkeys[..], i)
    requires Config(mc) == Config(monkeys[i])
    modifies monkeys
    ensures monkeys[..] == Throw(old(monkeys[..]), i, modulus, worryDivisor)
  {
    var item := monkeys[i].items[0];
    monkeys[i] := monkeys[i].(items := monkeys[i].items[1..]);
    var w := NewWorry(mc.operation, item, modulus, worryDivisor);
    var dest := if w % mc.test.divisor == 0 then mc.targets.whenTrue else mc.targets.whenFalse;
    monkeys[dest] := monkeys[dest].(items := monkeys[dest].items + [w]);
  }

  /** Monkey i's turn on the list of monkeys, in place: its inspection
      count grows by the length of its queue, and then each item is popped
      from the front, given its new worry level and pushed onto the back of
      its destination's queue. */
  method TakeTurn(monkeys: array<Monkey>, i: nat, modulus: Positive, worryDivisor: Positive)
    requires i < monkeys.Length && ValidAt(monkeys[..], i)
    modifies monkeys
    ensures monkeys[..] == Turn(old(monkeys[..]), i, modulus, worryDivisor)
  {
    ghost var before := monkeys[..];
    var mc := monkeys[i];
    monkeys[i] := mc.(inspected := mc.inspected + |mc.items|);
    ghost var k := 0;
    while |monkeys[i].items| > 0
      invariant k <= |mc.items|
      invariant monkeys[..] == Partial(before, i, k, modulus, worryDivisor)
      decreases |monkeys[i].items|
    {
      PartialNext(before, i, k, modulus, worryDivisor);
      ThrowFront(monkeys, i, mc, modulus, worryDivisor);
      k := k + 1;
    }
  }

  /** One more step of the turn's loop is one more throw. */
  lemma PartialNext(ms: seq<Monkey>, i: nat, k: nat, modulus: Positive, worryDivisor: Positive)
    requires i < |ms| && ValidAt(ms, i) && k < |ms[i].items|
    ensures ValidAt(Partial(ms, i, k, modulus, worryDivisor), i)
    ensures Partial(ms, i, k + 1, modulus, worryDivisor) == Throw(Partial(ms, i, k, modulus, worryDivisor), i, modulus, worryDivisor)
  {
    PartialConfig(ms, i, k, modulus, worryDivisor);
  }

  /** round, in place on the list of monkeys. */
  method Round(monkeys: array<Monkey>, worryDivisor: Positive)
    requires Valid(monkeys[..])
    modifies monkeys
    ensures monkeys[..] == RoundOf(old(monkeys[..]), worryDivisor)
  {
    ghost var start := monkeys[..];
    ValidDivisors(start);
    ModulusPositive(start);
    var modulus: Positive := Modulus(monkeys[..]);
    for i := 0 to monkeys.Length
      invariant monkeys[..] == Turns(start, i, modulus, worryDivisor)
    {
      assert ValidAt(monkeys[..], i);
      TakeTurn(monkeys, i, modulus, worryDivisor);
    }
  }

  // What a round keeps

  /** The length of every monkey's queue. */
  function Counts(ms: seq<Monkey>): (c: seq<int>)
    ensures |c| == |ms|
  {
    seq(|ms|, j requires 0 <= j < |ms| => |ms[j].items|)
  }

  /** The number of items all monkeys hold together. */
  function TotalItems(ms: seq<Monkey>): int
  {
    Sum(Counts(ms))
  }

  lemma {:induction false} ThrowConserves(ms: seq<Monkey>, i: nat, modulus: Positive, worryDivisor: Positive)
    requires i < |ms| && |ms[i].items| >= 1 && ValidAt(ms, i)
    ensures TotalItems(Throw(ms, i, modulus, worryDivisor)) == TotalItems(ms)
  {
    var m := ms[i];
    var w := NewWorry(m.operation, m.items[0], modulus, worryDivisor);
    var rest: seq<nat> := m.items[1..];
    var popped := ms[i := m.(items := rest)];
    var dest := Dest(m, w);
    var received: seq<nat> := popped[dest].items + [w];
    assert Counts(popped) == Counts(ms)[i := |ms[i].items| - 1];
    SumUpdate(Counts(ms), i, |ms[i].items| - 1);
    assert Counts(Throw(ms, i, modulus, worryDivisor)) == Counts(popped)[dest := |popped[dest].items| + 1];
    SumUpdate(Counts(popped), dest, |popped[dest].items| + 1);
  }

  lemma {:induction false} PartialConserves(ms: seq<Monkey>, i: nat, k: nat, modulus: Positive, worryDivisor: Positive)
    requires i < |ms| && ValidAt(ms, i) && k <= |ms[i].items|
    ensures TotalItems(Partial(ms, i, k, modulus, worryDivisor)) == TotalItems(ms)
    decreases k
  {
    if k == 0 {
      assert Counts(Partial(ms, i, 0, modulus, worryDivisor)) == Counts(ms);
    } else {
      PartialConserves(ms, i, k - 1, modulus, worryDivisor);
      var p := Partial(ms, i, k - 1, modulus, worryDivisor);
      assert ValidAt(p, i);
      ThrowConserves(p, i, modulus, worryDivisor);
    }
  }

  /** Any number of turns keeps the total number of items. */
  lemma {:induction false} TurnsConserve(ms: seq<Monkey>, n: nat, modulus: Positive, worryDivisor: Positive)
    requires Valid(ms) && n <= |ms|
    ensures TotalItems(Turns(ms, n, modulus, worryDivisor)) == TotalItems(ms)
  {
    var k := 0;
    while k < n
      invariant k <= n
      invariant TotalItems(Turns(ms, k, modulus, worryDivisor)) == TotalItems(ms)
    {
      TurnsStep(ms, k, modulus, worryDivisor);
      k := k + 1;
    }
  }

  /** Turn k of a round keeps the total number of items. */
  lemma {:induction false} TurnsStep(ms: seq<Monkey>, k: nat, modulus: Positive, worryDivisor: Positive)
    requires Valid(ms) && k < |ms|
    ensures TotalItems(Turns(ms, k + 1, modulus, worryDivisor)) == TotalItems(Turns(ms, k, modulus, worryDivisor))
  {
    var before := Turns(ms, k, modulus, worryDivisor);
    assert ValidAt(before, k);
    TurnConserves(before, k, modulus, worryDivisor);
    assert Turns(ms, k + 1, modulus, worryDivisor) == Turn(before, k, modulus, worryDivisor);
  }

  /** A turn conserves the number of items. */
  lemma {:induction false} TurnConserves(ms: seq<Monkey>, i: nat, modulus: Positive, worryDivisor: Positive)
    requires i < |ms| && ValidAt(ms, i)
    ensures TotalItems(Turn(ms, i, modulus, worryDivisor)) == TotalItems(ms)
  {
    PartialConserves(ms, i, |ms[i].items|, modulus, worryDivisor);
  }

  /** A round conserves the number of items: every item popped is pushed
      onto some monkey's queue. */
  lemma {:induction false} RoundConserves(ms: seq<Monkey>, worryDivisor: Positive)
    requires Valid(ms)
    ensures TotalItems(RoundOf(ms, worryDivisor)) == TotalItems(ms)
  {
    ValidDivisors(ms);
    ModulusPositive(ms);
    TurnsConserve(ms, |ms|, Modulus(ms), worryDivisor);
  }

  /** A turn changes only its own monkey's inspection count, by the length
      of that monkey's queue, and leaves that queue empty. */
  lemma {:induction false} TurnInspections(ms: seq<Monkey>, t: nat, modulus: Positive, worryDivisor: Positive)
    requires t < |ms| && ValidAt(ms, t)
    ensures forall j :: 0 <= j < |ms| && j != t ==>
      (Turn(ms, t, modulus, worryDivisor)[j].inspected == ms[j].inspected)
    ensures Turn(ms, t, modulus, worryDivisor)[t].inspected == ms[t].inspected + |ms[t].items|
    ensures Turn(ms, t, modulus, worryDivisor)[t].items == []
  {
    PartialThrows(ms, t, |ms[t].items|, modulus, worryDivisor);
    assert ms[t].items[|ms[t].items|..] == [];
  }

  lemma {:induction false} TurnsZero(ms: seq<Monkey>, modulus: Positive, worryDivisor: Positive)
    requires Valid(ms)
    ensures Turns(ms, 0, modulus, worryDivisor) == ms
  {
  }

  /** Turn k of a round leaves the other monkeys' inspection counts as
      they were. */
  lemma {:induction false} TurnsStepOther(ms: seq<Monkey>, k: nat, i: nat, modulus: Positive, worryDivisor: Positive)
    requires Valid(ms) && k < |ms| && i < |ms| && i != k
    ensures Inspected(ms, k + 1, i, modulus, worryDivisor) == Inspected(ms, k, i, modulus, worryDivisor)
  {
    var before := Turns(ms, k, modulus, worryDivisor);
    assert ValidAt(before, k);
    TurnInspections(before, k, modulus, worryDivisor);
    assert Turns(ms, k + 1, modulus, worryDivisor) == Turn(before, k, modulus, worryDivisor);
  }

  /** Turn k of a round counts monkey k's whole queue as inspected and
      empties it. */
  lemma {:induction false} TurnsStepOwn(ms: seq<Monkey>, k: nat, modulus: Positive, worryDivisor: Positive)
    requires Valid(ms) && k < |ms|
    ensures Turns(ms, k + 1, modulus, worryDivisor)[k].inspected ==
      Turns(ms, k, modulus, worryDivisor)[k].inspected + |Turns(ms, k, modulus, worryDivisor)[k].items|
    ensures Turns(ms, k + 1, modulus, worryDivisor)[k].items == []
  {
    var before := Turns(ms, k, modulus, worryDivisor);
    assert ValidAt(before, k);
    TurnInspections(before, k, modulus, worryDivisor);
    assert Turns(ms, k + 1, modulus, worryDivisor) == Turn(before, k, modulus, worryDivisor);
  }

  /** Turns a..n-1 leave monkey i's inspection count alone when i is not
      among them. */
  /** Monkey i's inspection count after the first n turns. */
  function Inspected(ms: seq<Monkey>, n: nat, i: nat, modulus: Positive, worryDivisor: Positive): nat
    requires Valid(ms) && n <= |ms| && i < |ms|
  {
    Turns(ms, n, modulus, worryDivisor)[i].inspected
  }

  lemma {:induction false} TurnsUntouched(ms: seq<Monkey>, a: nat, n: nat, i: nat, modulus: Positive, worryDivisor: Positive)
    requires Valid(ms) && a <= n <= |ms| && i < |ms| && (i < a || n <= i)
    ensures Inspected(ms, n, i, modulus, worryDivisor) == Inspected(ms, a, i, modulus, worryDivisor)
    decreases n - a
  {
    if a < n {
      TurnsStepOther(ms, a, i, modulus, worryDivisor);
      TurnsUntouched(ms, a + 1, n, i, modulus, worryDivisor);
    }
  }

  /** The turns before monkey i's do not change its inspection count. */
  lemma {:induction false} TurnsKeepInspected(ms: seq<Monkey>, n: nat, i: nat, modulus: Positive, worryDivisor: Positive)
    requires Valid(ms) && n <= i < |ms|
    ensures Turns(ms, n, modulus, worryDivisor)[i].inspected == ms[i].inspected
  {
    TurnsZero(ms, modulus, worryDivisor);
    TurnsUntouched(ms, 0, n, i, modulus, worryDivisor);
  }

  /** From monkey i's own turn on, its inspection count is the one it
      started with plus its queue at the start of that turn. */
  lemma {:induction false} TurnsGainInspected(ms: seq<Monkey>, n: nat, i: nat, modulus: Positive, worryDivisor: Positive)
    requires Valid(ms) && i < n <= |ms|
    ensures Turns(ms, n, modulus, worryDivisor)[i].inspected ==
      ms[i].inspected + |Turns(ms, i, modulus, worryDivisor)[i].items|
  {
    assert Turns(ms, i + 1, modulus, worryDivisor)[i].inspected ==
      ms[i].inspected + |Turns(ms, i, modulus, worryDivisor)[i].items| by {
      TurnsOwnTotal(ms, i, modulus, worryDivisor);
    }
    assert Turns(ms, n, modulus, worryDivisor)[i].inspected ==
      Turns(ms, i + 1, modulus, worryDivisor)[i].inspected by {
      TurnsUntouched(ms, i + 1, n, i, modulus, worryDivisor);
    }
  }

  /** Right after monkey i's turn its inspection count is the one it
      started with plus its queue at the start of the turn. */
  lemma {:induction false} TurnsOwnTotal(ms: seq<Monkey>, i: nat, modulus: Positive, worryDivisor: Positive)
    requires Valid(ms) && i < |ms|
    ensures Turns(ms, i + 1, modulus, worryDivisor)[i].inspected ==
      ms[i].inspected + |Turns(ms, i, modulus, worryDivisor)[i].items|
  {
    TurnsKeepInspected(ms, i, i, modulus, worryDivisor);
    TurnsStepOwn(ms, i, modulus, worryDivisor);
  }

  /** Only monkey i's own turn changes its inspection count, by the length
      of its queue when the turn starts; right after it, its queue is
      empty. */
  lemma {:induction false} TurnsInspections(ms: seq<Monkey>, n: nat, i: nat, modulus: Positive, worryDivisor: Positive)
    requires Valid(ms) && n <= |ms| && i < |ms|
    ensures n <= i ==> Turns(ms, n, modulus, worryDivisor)[i].inspected == ms[i].inspected
    ensures n > i ==> (Turns(ms, n, modulus, worryDivisor)[i].inspected ==
      ms[i].inspected + |Turns(ms, i, modulus, worryDivisor)[i].items|)
    ensures n == i + 1 ==> Turns(ms, n, modulus, worryDivisor)[i].items == []
  {
    if n <= i {
      TurnsKeepInspected(ms, n, i, modulus, worryDivisor);
    } else {
      TurnsGainInspected(ms, n, i, modulus, worryDivisor);
      if n == i + 1 {
        TurnsStepOwn(ms, i, modulus, worryDivisor);
      }
    }
  }

  /** In a round each monkey's inspection count grows by the length of its
      queue at the start of its own turn (the items it started the round
      with and those thrown to it by the monkeys before it), and its queue
      is empty once its turn is over. */
  lemma {:induction false} RoundInspections(ms: seq<Monkey>, worryDivisor: Positive, i: nat)
    requires Valid(ms) && i < |ms|
    ensures Modulus(ms) >= 1
    ensures RoundOf(ms, worryDivisor)[i].inspected ==
      ms[i].inspected + |Turns(ms, i, Modulus(ms), worryDivisor)[i].items|
    ensures Turns(ms, i + 1, Modulus(ms), worryDivisor)[i].items == []
  {
    ValidDivisors(ms);
    ModulusPositive(ms);
    TurnsInspections(ms, |ms|, i, Modulus(ms), worryDivisor);
    TurnsInspections(ms, i + 1, i, Modulus(ms), worryDivisor);
  }

  // The simulation

  /** n rounds, one after the other. */
  function Simulate(ms: seq<Monkey>, n: nat, worryDivisor: Positive): (r: seq<Monkey>)
    requires Valid(ms)
    ensures |r| == |ms| && Valid(r)
  {
    if n == 0 then ms
    else RoundOf(Simulate(ms, n - 1, worryDivisor), worryDivisor)
  }

  /** Any number of rounds changes no monkey's operation, test or targets. */
  lemma {:induction false} SimulateConfig(ms: seq<Monkey>, n: nat, worryDivisor: Positive)
    requires Valid(ms)
    ensures SameConfig(ms, Simulate(ms, n, worryDivisor))
  {
    if n > 0 {
      SimulateConfig(ms, n - 1, worryDivisor);
      var before := Simulate(ms, n - 1, worryDivisor);
      RoundConfig(before, worryDivisor);
      SameConfigTrans(ms, before, RoundOf(before, worryDivisor));
    }
  }

  /** Rounds conserve the number of items. */
  lemma {:induction false} SimulateConserves(ms: seq<Monkey>, n: nat, worryDivisor: Positive)
    requires Valid(ms)
    ensures TotalItems(Simulate(ms, n, worryDivisor)) == TotalItems(ms)
  {
    if n > 0 {
      SimulateConserves(ms, n - 1, worryDivisor);
      RoundConserves(Simulate(ms, n - 1, worryDivisor), worryDivisor);
    }
  }

  /** Every monkey's inspection count. */
  function Inspections(ms: seq<Monkey>): (c: seq<int>)
    ensures |c| == |ms|
  {
    seq(|ms|, j requires 0 <= j < |ms| => ms[j].inspected)
  }

  /** The level of monkey business: the two largest inspection counts
      multiplied together (the counts sorted, then reversed). */
  function MonkeyBusiness(ms: seq<Monkey>): int
    requires |ms| >= 2
  {
    var sorted := SortDescending(Inspections(ms));
    sorted[0] * sorted[1]
  }

  /** The two factors are the largest count and the largest of the counts
      left when one occurrence of that one is taken away. */
  lemma MonkeyBusinessTopTwo(ms: seq<Monkey>)
    requires |ms| >= 2
    ensures var c := multiset(Inspections(ms)); var s := SortDescending(Inspections(ms));
      MonkeyBusiness(ms) == s[0] * s[1] &&
      s[0] in c && (forall x :: x in c ==> x <= s[0]) &&
      s[1] in c - multiset{s[0]} && (forall x :: x in c - multiset{s[0]} ==> x <= s[1])
  {
    var s := SortDescending(Inspections(ms));
    DescendingHeadIsMax(s);
    MultisetTail(s);
    DescendingTail(s);
    DescendingHeadIsMax(s[1..]);
    MultisetTail(s[1..]);
    assert s[1..][0] == s[1];
    forall x | x in multiset(Inspections(ms))
      ensures x <= s[0]
    {
      assert x in multiset(s);
    }
    forall x | x in multiset(Inspections(ms)) - multiset{s[0]}
      ensures x <= s[1]
    {
      assert x in multiset(s[1..]);
      assert x in s[1..];
    }
  }

  /** The loop over the rounds, in place. */
  method RunRounds(monkeys: array<Monkey>, numRounds: nat, worryDivisor: Positive)
    requires Valid(monkeys[..])
    modifies monkeys
    ensures monkeys[..] == Simulate(old(monkeys[..]), numRounds, worryDivisor)
  {
    ghost var start := monkeys[..];
    for round := 1 to numRounds + 1
      invariant monkeys[..] == Simulate(start, round - 1, worryDivisor)
    {
      Round(monkeys, worryDivisor);
    }
  }

  lemma MonkeyBusinessNat(ms: seq<Monkey>)
    requires |ms| >= 2
    ensures MonkeyBusiness(ms) >= 0
  {
    var c := Inspections(ms);
    var s := SortDescending(c);
    assert s[0] in multiset(c) && s[1] in multiset(c);
    var a :| 0 <= a < |c| && c[a] == s[0];
    var b :| 0 <= b < |c| && c[b] == s[1];
    MulNonNegative(s[0], s[1]);
  }

  lemma MulNonNegative(a: int, b: int)
    requires a >= 0 && b >= 0
    ensures a * b >= 0
  {
  }

  /** simulation after parsing: run the rounds in place on the parsed
      monkeys, then take the level of monkey business. A configuration the
      rounds cannot run is an error. */
  method SimulateParsed(parsed: seq<Monkey>, numRounds: nat, worryDivisor: nat) returns (r: Result<nat>)
    ensures r.Ok? <==> worryDivisor >= 1 && Valid(parsed) && |parsed| >= 2
    ensures r.Ok? ==> worryDivisor >= 1 && r.value == MonkeyBusiness(Simulate(parsed, numRounds, worryDivisor))
  {
    if worryDivisor == 0 {
      return Err("attempt to divide by zero");
    }
    if !Valid(parsed) {
      return Err("a test divisor is zero, or a target is missing or the monkey itself");
    }
    r := RunAndScore(parsed, numRounds, worryDivisor);
  }

  /** The rounds on a runnable configuration, then the two largest counts
      multiplied; fewer than two monkeys to index is an error. */
  method RunAndScore(parsed: seq<Monkey>, numRounds: nat, worryDivisor: Positive) returns (r: Result<nat>)
    requires Valid(parsed)
    ensures r.Ok? <==> |parsed| >= 2
    ensures r.Ok? ==> r.value == MonkeyBusiness(Simulate(parsed, numRounds, worryDivisor))
  {
    var monkeys := new Monkey[|parsed|](j requires 0 <= j < |parsed| => parsed[j]);
    assert monkeys[..] == parsed;
    RunRounds(monkeys, numRounds, worryDivisor);
    var sorted := SortDescending(Inspections(monkeys[..]));
    if |sorted| < 2 {
      return Err("index out of bounds");
    }
    var business := sorted[0] * sorted[1];
    MonkeyBusinessNat(monkeys[..]);
    return Ok(business);
  }

  /** simulation: parse the monkeys (which never fails) and run them. */
  method Simulation(input: string, numRounds: nat, worryDivisor: nat) returns (r: Result<nat>)
    ensures r.Ok? <==> worryDivisor >= 1 && Valid(ParseMonkeys(input)) && |ParseMonkeys(input)| >= 2
    ensures r.Ok? ==> worryDivisor >= 1 && r.value == MonkeyBusiness(Simulate(ParseMonkeys(input), numRounds, worryDivisor))
  {
    var parsed := ParseMonkeys(input);
    r := SimulateParsed(parsed, numRounds, worryDivisor);
  }

  /** part1: 20 rounds, worry levels divided by 3 after each inspection. */
  method Part1(input: string) returns (r: Result<nat>)
    ensures r.Ok? <==> Valid(ParseMonkeys(input)) && |ParseMonkeys(input)| >= 2
    ensures r.Ok? ==> r.value == MonkeyBusiness(Simulate(ParseMonkeys(input), 20, 3))
  {
    r := Simulation(input, 20, 3);
  }

  /** part2: 10000 rounds, worry levels not divided. */
  method Part2(input: string) returns (r: Result<nat>)
    ensures r.Ok? <==> Valid(ParseMonkeys(input)) && |ParseMonkeys(input)| >= 2
    ensures r.Ok? ==> r.value == MonkeyBusiness(Simulate(ParseMonkeys(input), 10000, 1))
  {
    r := Simulation(input, 10000, 1);
  }
}
