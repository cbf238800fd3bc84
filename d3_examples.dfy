/** The six rucksacks of the day 3 tests: their shared items, the badges of
    their two groups and the two totals. Each line is written as its two
    compartments one after the other. */
module RucksacksExamples {
  import opened Wrappers
  import opened Rucksacks
  import opened Seqs
  import opened Text

  const LINE0: string := "vJrwpWtwJgWr" + "hcsFMMfFFhFp"
  const LINE1: string := "jqHRNqRjqzjGDLGL" + "rsFMfFZSrLrFZsSL"
  const LINE2: string := "PmmdzqPrV" + "vPwwTWBwg"
  const LINE3: string := "wMqvLMZHhHMvwLH" + "jbvcjnnSBnvTQFn"
  const LINE4: string := "ttgJtRGJ" + "QctTZtZT"
  const LINE5: string := "CrZsJsPPZsGz" + "wwsLwLmpwMDw"

  const EXAMPLE: seq<string> := [LINE0, LINE1, LINE2, LINE3, LINE4, LINE5]

  /** A line whose halves have exactly one item in common shares that item
      alone. */
  lemma SharedIs(a: string, b: string, x: char)
    requires |a| == |b|
    requires forall c :: c in a && c in b <==> c == x
    ensures SharedItems(a + b) == [x]
  {
    var line := a + b;
    assert line[..|line| / 2] == a && line[|line| / 2..] == b;
    var r := SharedItems(line);
    assert x in r;
    forall k | 0 <= k < |r| ensures r[k] == x {
      assert r[k] in r;
    }
    ElementsCount(r);
    assert Elements(r) == {x};
  }

  lemma SharedOfLine0()
    ensures SharedItems(LINE0) == "p"
  {
    SharedIs("vJrwpWtwJgWr", "hcsFMMfFFhFp", 'p');
  }

  lemma SharedOfLine1()
    ensures SharedItems(LINE1) == "L"
  {
    SharedIs("jqHRNqRjqzjGDLGL", "rsFMfFZSrLrFZsSL", 'L');
  }

  lemma SharedOfLine2()
    ensures SharedItems(LINE2) == "P"
  {
    SharedIs("PmmdzqPrV", "vPwwTWBwg", 'P');
  }

  lemma SharedOfLine3()
    ensures SharedItems(LINE3) == "v"
  {
    SharedIs("wMqvLMZHhHMvwLH", "jbvcjnnSBnvTQFn", 'v');
  }

  lemma SharedOfLine4()
    ensures SharedItems(LINE4) == "t"
  {
    SharedIs("ttgJtRGJ", "QctTZtZT", 't');
  }

  lemma SharedOfLine5()
    ensures SharedItems(LINE5) == "s"
  {
    SharedIs("CrZsJsPPZsGz", "wwsLwLmpwMDw", 's');
  }

  /** The shared item of each line of test_shared_items_in_rucksack_compartments. */
  lemma ExampleSharedItems()
    ensures SharedItems(LINE0) == "p" && SharedItems(LINE1) == "L" && SharedItems(LINE2) == "P"
    ensures SharedItems(LINE3) == "v" && SharedItems(LINE4) == "t" && SharedItems(LINE5) == "s"
  {
    SharedOfLine0();
    SharedOfLine1();
    SharedOfLine2();
    SharedOfLine3();
    SharedOfLine4();
    SharedOfLine5();
  }

  /** A group of three whose only common item is `x` has badge `x`. */
  lemma BadgeIs(a: string, b: string, c: string, x: char)
    requires x in a && x in b && x in c
    requires forall d :: d in a && d in b && d in c ==> d == x
    ensures Badge([a, b, c]) == Some(x)
  {
    var lines := [a, b, c];
    assert forall d :: InAll(lines, d) ==> d in a && d in b && d in c by {
      forall d | InAll(lines, d) ensures d in a && d in b && d in c {
        assert lines[0] == a && lines[1] == b && lines[2] == c;
      }
    }
    assert InAll(lines, x);
    BadgeMeaning(lines, x);
  }

  /** The item types of each line, as a set. */
  lemma ItemsOfLine0(d: char)
    requires d in LINE0
    ensures d in {'v', 'J', 'r', 'w', 'p', 'W', 't', 'g', 'h', 'c', 's', 'F', 'M', 'f'}
  {
  }

  lemma ItemsOfLine1(d: char)
    requires d in LINE1
    ensures d in {'j', 'q', 'H', 'R', 'N', 'z', 'G', 'D', 'L', 'r', 's', 'F', 'M', 'f', 'Z', 'S'}
  {
  }

  lemma ItemsOfLine2(d: char)
    requires d in LINE2
    ensures d in {'P', 'm', 'd', 'z', 'q', 'r', 'V', 'v', 'w', 'T', 'W', 'B', 'g'}
  {
  }

  lemma ItemsOfLine3(d: char)
    requires d in LINE3
    ensures d in {'w', 'M', 'q', 'v', 'L', 'Z', 'H', 'h', 'j', 'b', 'c', 'n', 'S', 'B', 'T', 'Q', 'F'}
  {
  }

  lemma ItemsOfLine4(d: char)
    requires d in LINE4
    ensures d in {'t', 'g', 'J', 'R', 'G', 'Q', 'c', 'T', 'Z'}
  {
  }

  lemma ItemsOfLine5(d: char)
    requires d in LINE5
    ensures d in {'C', 'r', 'Z', 's', 'J', 'P', 'G', 'z', 'w', 'L', 'm', 'p', 'M', 'D'}
  {
  }

  /** The badge of the first group of test_get_group_badge. */
  lemma BadgeOfGroup0()
    ensures Badge([LINE0, LINE1, LINE2]) == Some('r')
  {
    forall d | d in LINE0 && d in LINE1 && d in LINE2 ensures d == 'r' {
      ItemsOfLine0(d);
      ItemsOfLine1(d);
      ItemsOfLine2(d);
    }
    BadgeIs(LINE0, LINE1, LINE2, 'r');
  }

  /** The badge of the second group of test_get_group_badge. */
  lemma BadgeOfGroup1()
    ensures Badge([LINE3, LINE4, LINE5]) == Some('Z')
  {
    forall d | d in LINE3 && d in LINE4 && d in LINE5 ensures d == 'Z' {
      ItemsOfLine3(d);
      ItemsOfLine4(d);
      ItemsOfLine5(d);
    }
    BadgeIs(LINE3, LINE4, LINE5, 'Z');
  }

  /** The six lines as one text, as the tests write them. */
  const TEXT: string := Join(EXAMPLE, '\n')

  /** No test line holds a line feed. */
  lemma NoLineFeeds()
    ensures forall i :: 0 <= i < |EXAMPLE| ==> '\n' !in EXAMPLE[i]
  {
    forall i | 0 <= i < |EXAMPLE| ensures '\n' !in EXAMPLE[i] {
      if '\n' in EXAMPLE[i] {
        if i == 0 { ItemsOfLine0('\n'); }
        else if i == 1 { ItemsOfLine1('\n'); }
        else if i == 2 { ItemsOfLine2('\n'); }
        else if i == 3 { ItemsOfLine3('\n'); }
        else if i == 4 { ItemsOfLine4('\n'); }
        else { ItemsOfLine5('\n'); }
      }
    }
  }

  lemma ExampleLines()
    ensures Split(TEXT, '\n') == EXAMPLE
  {
    NoLineFeeds();
    SplitJoin(EXAMPLE, '\n');
  }

  /** test_get_groups: whatever get_groups returns on the test text is the
      two groups of three lines, each joined by line feeds. */
  lemma ExampleGroups(gs: seq<string>)
    requires |gs| == |Split(TEXT, '\n')| / 3
    requires forall g :: 0 <= g < |gs| ==> Split(gs[g], '\n') == Split(TEXT, '\n')[3 * g..3 * g + 3]
    ensures gs == [Join(EXAMPLE[..3], '\n'), Join(EXAMPLE[3..], '\n')]
  {
    ExampleLines();
    assert |gs| == 2;
    SplitParts(gs[0], '\n');
    SplitParts(gs[1], '\n');
    assert Split(gs[0], '\n') == EXAMPLE[..3];
    assert Split(gs[1], '\n') == EXAMPLE[3..];
  }

  /** test_get_group_badge: the badges of the two three-line texts. */
  lemma ExampleGroupBadges()
    ensures Badge(Split(Join(EXAMPLE[..3], '\n'), '\n')) == Some('r')
    ensures Badge(Split(Join(EXAMPLE[3..], '\n'), '\n')) == Some('Z')
  {
    NoLineFeeds();
    SplitJoin(EXAMPLE[..3], '\n');
    SplitJoin(EXAMPLE[3..], '\n');
    assert EXAMPLE[..3] == [LINE0, LINE1, LINE2];
    assert EXAMPLE[3..] == [LINE3, LINE4, LINE5];
    BadgeOfGroup0();
    BadgeOfGroup1();
  }

  /** test_get_item_priority: the priorities the test lists. */
  lemma ExampleItemPriorities()
    ensures Priority('a') == 1 && Priority('b') == 2 && Priority('l') == 12 && Priority('p') == 16
    ensures Priority('s') == 19 && Priority('t') == 20 && Priority('v') == 22 && Priority('z') == 26
    ensures Priority('L') == 38 && Priority('P') == 42
  {
  }

  lemma PriorityOfOne(c: char)
    ensures PrioritySum([c]) == Priority(c)
  {
    assert [c][1..] == [];
    assert SumOf([c], Priority) == Priority(c) + SumOf([], Priority);
  }

  /** The priority of each line's shared item. */
  lemma LinePriorities()
    ensures LinePriority(LINE0) == 16 && LinePriority(LINE1) == 38 && LinePriority(LINE2) == 42
    ensures LinePriority(LINE3) == 22 && LinePriority(LINE4) == 20 && LinePriority(LINE5) == 19
  {
    ExampleSharedItems();
    PriorityOfOne('p');
    PriorityOfOne('L');
    PriorityOfOne('P');
    PriorityOfOne('v');
    PriorityOfOne('t');
    PriorityOfOne('s');
  }

  lemma SumOfSix<T>(s: seq<T>, f: T -> int)
    requires |s| == 6
    ensures SumOf(s, f) == f(s[0]) + f(s[1]) + f(s[2]) + f(s[3]) + f(s[4]) + f(s[5])
  {
    assert s[5..][1..] == [];
    assert SumOf(s[5..], f) == f(s[5]);
    assert s[4..][1..] == s[5..];
    assert SumOf(s[4..], f) == f(s[4]) + f(s[5]);
    assert s[3..][1..] == s[4..];
    assert SumOf(s[3..], f) == f(s[3]) + f(s[4]) + f(s[5]);
    assert s[2..][1..] == s[3..];
    assert SumOf(s[2..], f) == f(s[2]) + f(s[3]) + f(s[4]) + f(s[5]);
    assert s[1..][1..] == s[2..];
    assert SumOf(s[1..], f) == f(s[1]) + f(s[2]) + f(s[3]) + f(s[4]) + f(s[5]);
  }

  lemma SumOfLines()
    ensures SumOf(EXAMPLE, LinePriority) == 157
  {
    SumOfSix(EXAMPLE, LinePriority);
    LinePriorities();
  }

  /** test_get_priority_sum: the shared-item priorities of the test text
      add up to 157. */
  lemma ExamplePriorityTotal()
    ensures PriorityTotal(TEXT) == 157
  {
    ExampleLines();
    SumOfLines();
  }

  lemma BadgesOfGroups()
    ensures AllHaveBadges(Triples(EXAMPLE))
    ensures BadgeSum(Triples(EXAMPLE)) == 70
  {
    var groups := Triples(EXAMPLE);
    assert groups[0] == [LINE0, LINE1, LINE2];
    assert groups[1] == [LINE3, LINE4, LINE5];
    BadgeOfGroup0();
    BadgeOfGroup1();
    assert groups[1..][1..] == [];
    assert BadgeSum(groups[1..]) == 52;
  }

  /** test_get_groups_badge_priority_total: the test text makes two groups,
      both with a badge, whose priorities add up to 70. */
  lemma ExampleBadgeTotal()
    ensures |Split(TEXT, '\n')| % 3 == 0
    ensures AllHaveBadges(Triples(Split(TEXT, '\n')))
    ensures BadgeSum(Triples(Split(TEXT, '\n'))) == 70
  {
    ExampleLines();
    BadgesOfGroups();
  }
}
