/** Day 3: rucksacks of items, one per line, each split into two
    compartments of equal size; and groups of three elves that share one
    badge item. */
module Rucksacks {
  import opened Wrappers
  import opened Text
  import opened Seqs

  /** get_item_priority: 'a'..'z' count from 1, everything below 'a'
      counts from 'A' = 27. */
  function Priority(c: char): int
  {
    if c as int >= 97 then c as int - 96 else c as int + 26 - 64
  }

  predicate IsLower(c: char) { 'a' <= c <= 'z' }

  predicate IsUpper(c: char) { 'A' <= c <= 'Z' }

  /** Lower-case letters have priorities 1..26 and upper-case ones 27..52,
      in alphabetical order, so no two letters share a priority. */
  lemma PriorityOfLetters(c: char, d: char)
    ensures IsLower(c) ==> Priority(c) == (c as int - 'a' as int) + 1
    ensures IsUpper(c) ==> Priority(c) == (c as int - 'A' as int) + 27
    ensures (IsLower(c) || IsUpper(c)) ==> 1 <= Priority(c) <= 52
    ensures (IsLower(c) || IsUpper(c)) && (IsLower(d) || IsUpper(d)) && c != d ==> Priority(c) != Priority(d)
  {
  }

  /** The elements of `s` that lie in `other`, each once, in the order of
      their last occurrence in `s`. */
  function KeepShared(s: string, other: set<char>): (r: string)
    ensures forall c :: c in r <==> c in s && c in other
    ensures Distinct(r)
  {
    if s == [] then []
    else
      var rest := KeepShared(s[1..], other);
      if s[0] in other && s[0] !in s[1..] then
        assert forall k :: 0 <= k < |rest| ==> rest[k] in s[1..];
        [s[0]] + rest
      else rest
  }

  /** get_shared_items_in_rucksack_compartments: the items present in both
      halves of the line, split at len/2, each listed once. */
  function SharedItems(line: string): (r: string)
    ensures forall c :: c in r <==> c in line[..|line| / 2] && c in line[|line| / 2..]
    ensures Distinct(r)
  {
    var half := |line| / 2;
    KeepShared(line[..half], Elements(line[half..]))
  }

  /** The priorities of `items`, added up. */
  function PrioritySum(items: string): int
  {
    SumOf(items, Priority)
  }

  /** The priority sum of one line's shared items. */
  function LinePriority(line: string): int
  {
    PrioritySum(SharedItems(line))
  }

  /** get_priority_sum: every line's shared-item priorities, flattened
      into one sum. */
  function PriorityTotal(input: string): int
  {
    SumOf(Split(input, '\n'), LinePriority)
  }

  /** The shared items of every line, line by line. */
  function SharedOfLines(lines: seq<string>): (r: seq<string>)
    ensures |r| == |lines|
  {
    seq(|lines|, i requires 0 <= i < |lines| => SharedItems(lines[i]))
  }

  /** A first line adds its shared-item priorities to the total of the
      lines after it. */
  lemma PriorityTotalFirstLine(line: string, rest: string)
    requires '\n' !in line
    ensures PriorityTotal(line + "\n" + rest) == PrioritySum(SharedItems(line)) + PriorityTotal(rest)
  {
    SplitAfterPiece(line, rest, '\n');
    assert ([line] + Split(rest, '\n'))[1..] == Split(rest, '\n');
  }

  /** Summing per line equals the source's order of work: collect every
      line's shared items, flatten them into one list and sum its
      priorities. */
  lemma {:induction false} LinesPriorityFlattened(lines: seq<string>, parts: seq<string>)
    requires |parts| == |lines|
    requires forall i :: 0 <= i < |lines| ==> PrioritySum(parts[i]) == LinePriority(lines[i])
    ensures SumOf(lines, LinePriority) == PrioritySum(Flatten(parts))
  {
    if lines != [] {
      var n := |lines| - 1;
      LinesPriorityFlattened(lines[..n], parts[..n]);
      assert lines == lines[..n] + [lines[n]];
      SumOfAppend(lines[..n], [lines[n]], LinePriority);
      assert Flatten(parts) == Flatten(parts[..n]) + parts[n];
      SumOfAppend(Flatten(parts[..n]), parts[n], Priority);
    }
  }

  /** get_priority_sum: the priorities of all lines' shared items,
      flattened into one list, added up. */
  lemma PriorityTotalFlattened(input: string)
    ensures PriorityTotal(input) == PrioritySum(Flatten(SharedOfLines(Split(input, '\n'))))
  {
    LinesPriorityFlattened(Split(input, '\n'), SharedOfLines(Split(input, '\n')));
  }

  /** The priority sum of distinct items depends only on the set of them,
      so the iteration order of the HashSet does not matter. */
  lemma PrioritySumOrderFree(a: string, b: string)
    requires Distinct(a) && Distinct(b)
    requires forall c :: c in a <==> c in b
    ensures PrioritySum(a) == PrioritySum(b)
  {
    DistinctSameElements(a, b);
    SumOfPermutation(a, b, Priority);
  }

  /** `c` is in every line of the group. */
  predicate InAll(lines: seq<string>, c: char)
  {
    forall i :: 0 <= i < |lines| ==> c in lines[i]
  }

  /** The items every line of the group holds. */
  ghost function Common(lines: seq<string>): set<char>
    requires |lines| >= 1
  {
    set c | c in lines[0] && InAll(lines, c)
  }

  /** The group's badge: its one common item, when there is exactly one. */
  ghost function Badge(lines: seq<string>): Option<char>
    requires |lines| >= 1
  {
    if |Common(lines)| == 1 then
      var c :| c in Common(lines);
      Some(c)
    else None
  }

  /** The badge is the item that every line holds and no other item
      does. */
  lemma BadgeMeaning(lines: seq<string>, c: char)
    requires |lines| >= 1
    ensures Badge(lines) == Some(c) <==> InAll(lines, c) && forall d :: InAll(lines, d) ==> d == c
  {
    if Badge(lines) == Some(c) {
      SingletonOf(Common(lines), c);
      forall d | InAll(lines, d) ensures d == c {
        assert d in Common(lines);
      }
    }
    if InAll(lines, c) && forall d :: InAll(lines, d) ==> d == c {
      assert Common(lines) == {c};
    }
  }

  lemma RetainedInAll(lines: seq<string>, sets: seq<set<char>>, last: set<char>, others: seq<set<char>>, result: set<char>)
    requires |lines| >= 1 && |sets| == |lines|
    requires forall i :: 0 <= i < |lines| ==> sets[i] == Elements(lines[i])
    requires last == sets[|sets| - 1] && others == sets[..|sets| - 1]
    requires result == set c | c in last && forall k :: 0 <= k < |others| ==> c in others[k]
    ensures forall c :: c in result <==> InAll(lines, c)
  {
    forall c ensures c in result <==> InAll(lines, c) {
      if c in result {
        forall i | 0 <= i < |lines| ensures c in lines[i] {
          if i < |lines| - 1 {
            assert c in others[i];
          }
        }
      }
      if InAll(lines, c) {
        assert c in lines[|lines| - 1];
      }
    }
  }

  /** get_group_badge: the set of the last line's items, popped off, keeps
      the items every other line holds; exactly one must remain. */
  method GroupBadge(group: string) returns (r: Result<char>)
    ensures r.Ok? <==> Badge(Split(group, '\n')).Some?
    ensures r.Ok? ==> r.value == Badge(Split(group, '\n')).value
  {
    var lines := Split(group, '\n');
    var sets := seq(|lines|, i requires 0 <= i < |lines| => Elements(lines[i]));
    var last := sets[|sets| - 1];
    var others := sets[..|sets| - 1];
    var result := set c | c in last && forall k :: 0 <= k < |others| ==> c in others[k];
    RetainedInAll(lines, sets, last, others, result);
    assert result == Common(lines);
    if |result| != 1 {
      return Err("assertion `left == right` failed");
    }
    var c :| c in result;
    SingletonOf(result, c);
    return Ok(c);
  }

  /** get_groups: the lines three at a time, each triple joined with "\n";
      a line count that is not a multiple of three fails the assertion. */
  method Groups(input: string) returns (r: Result<seq<string>>)
    ensures r.Ok? <==> |Split(input, '\n')| % 3 == 0
    ensures r.Ok? ==> |r.value| == |Split(input, '\n')| / 3
    ensures r.Ok? ==> forall g :: 0 <= g < |r.value| ==>
      Split(r.value[g], '\n') == Split(input, '\n')[3 * g..3 * g + 3]
  {
    var lines := Split(input, '\n');
    SplitParts(input, '\n');
    if |lines| % 3 != 0 {
      return Err("assertion `left == right` failed");
    }
    var result: seq<string> := [];
    var i := 0;
    while i < |lines| - 1
      invariant i % 3 == 0 && i <= |lines| && |result| == i / 3
      invariant forall g :: 0 <= g < |result| ==> Split(result[g], '\n') == lines[3 * g..3 * g + 3]
    {
      var triple := lines[i..i + 3];
      SplitJoin(triple, '\n');
      result := result + [Join(triple, '\n')];
      i := i + 3;
    }
    return Ok(result);
  }

  /** Lines 3g, 3g + 1 and 3g + 2: the g-th group of three elves. */
  function Triple(lines: seq<string>, g: nat): seq<string>
    requires 3 * g + 3 <= |lines|
  {
    lines[3 * g..3 * g + 3]
  }

  /** The lines cut into groups of three. */
  function Triples(lines: seq<string>): (r: seq<seq<string>>)
    ensures |r| == |lines| / 3
  {
    seq(|lines| / 3, g requires 0 <= g < |lines| / 3 => Triple(lines, g))
  }

  /** Every group has a badge. */
  ghost predicate AllHaveBadges(groups: seq<seq<string>>)
  {
    forall g :: 0 <= g < |groups| ==> |groups[g]| >= 1 && Badge(groups[g]).Some?
  }

  /** The badge priorities of the groups, added up. */
  ghost function BadgeSum(groups: seq<seq<string>>): int
    requires AllHaveBadges(groups)
  {
    if groups == [] then 0
    else
      assert AllHaveBadges(groups[1..]) by {
        forall g | 0 <= g < |groups| - 1 ensures groups[1..][g] == groups[g + 1] { }
      }
      Priority(Badge(groups[0]).value) + BadgeSum(groups[1..])
  }

  /** The lines of each group string. */
  function GroupLines(groups: seq<string>): (r: seq<seq<string>>)
    ensures |r| == |groups|
  {
    seq(|groups|, g requires 0 <= g < |groups| => Split(groups[g], '\n'))
  }

  /** The loop over the groups: each badge's priority, added up; it panics
      at the first group without a badge. */
  method SumBadges(groups: seq<string>) returns (r: Result<int>)
    ensures r.Ok? <==> AllHaveBadges(GroupLines(groups))
    ensures r.Ok? ==> r.value == BadgeSum(GroupLines(groups))
  {
    ghost var lines := GroupLines(groups);
    var sum := 0;
    var i := |groups|;
    while i > 0
      invariant 0 <= i <= |groups|
      invariant AllHaveBadges(lines[i..])
      invariant sum == BadgeSum(lines[i..])
    {
      i := i - 1;
      var badge := GroupBadge(groups[i]);
      if badge.Err? {
        assert Badge(lines[i]).None?;
        return Err(badge.msg);
      }
      BadgeSumCons(lines, i);
      sum := sum + Priority(badge.value);
    }
    assert lines[0..] == lines;
    return Ok(sum);
  }

  lemma BadgeSumCons(groups: seq<seq<string>>, i: nat)
    requires i < |groups| && |groups[i]| >= 1 && Badge(groups[i]).Some? && AllHaveBadges(groups[i + 1..])
    ensures AllHaveBadges(groups[i..])
    ensures BadgeSum(groups[i..]) == Priority(Badge(groups[i]).value) + BadgeSum(groups[i + 1..])
  {
    assert groups[i..][1..] == groups[i + 1..];
    forall g | 0 <= g < |groups| - i ensures |groups[i..][g]| >= 1 && Badge(groups[i..][g]).Some? {
      if g > 0 {
        assert groups[i..][g] == groups[i + 1..][g - 1];
      }
    }
  }

  /** get_badge_priority_total: every group's badge priority, added up; it
      panics exactly when get_groups or some get_group_badge does. */
  method BadgePriorityTotal(input: string) returns (r: Result<int>)
    ensures r.Ok? <==> |Split(input, '\n')| % 3 == 0 && AllHaveBadges(Triples(Split(input, '\n')))
    ensures r.Ok? ==> r.value == BadgeSum(Triples(Split(input, '\n')))
  {
    var groups :- Groups(input);
    assert GroupLines(groups) == Triples(Split(input, '\n'));
    r := SumBadges(groups);
  }
}
