/** Day 1: the input lists the calories of each snack, one per line; a blank
    line separates one elf's snacks from the next. Every value 0, which is
    what a blank line parses to, closes the current elf's group. */
module Calories {
  import opened Wrappers
  import opened Text
  import opened Seqs

  /** The sum of each group, in order. */
  function Sums(groups: seq<seq<int>>): (r: seq<int>)
    ensures |r| == |groups|
    ensures forall i :: 0 <= i < |groups| ==> r[i] == Sum(groups[i])
  {
    seq(|groups|, i requires 0 <= i < |groups| => Sum(groups[i]))
  }

  /** The snack groups the loop of get_calories_by_elf records: the runs of
      values between zeros. A trailing zero closes the last run and opens
      none, so the empty run after it is not recorded. */
  function Runs(values: seq<int>): seq<seq<int>>
  {
    var pieces := Split(values, 0);
    if values == [] || values[|values| - 1] == 0 then pieces[..|pieces| - 1] else pieces
  }

  /** get_calories_by_elf on the parsed values: the total of every run. */
  function Groups(values: seq<int>): seq<int>
  {
    Sums(Runs(values))
  }

  /** What the loop of get_calories_by_elf has produced after the first i
      values: every run closed so far is recorded, and `current` is the
      total of the open one (recorded as well once the last value is in). */
  predicate Recorded(values: seq<int>, i: nat, groups: seq<int>, current: int)
    requires i <= |values|
  {
    var p := Split(values[..i], 0);
    current == Sum(p[|p| - 1]) &&
    groups == if 0 < i == |values| && values[i - 1] != 0 then Sums(p) else Sums(p[..|p| - 1])
  }

  lemma SumsInitLast(p: seq<seq<int>>)
    requires |p| >= 1
    ensures Sums(p) == Sums(p[..|p| - 1]) + [Sum(p[|p| - 1])]
  {
  }

  lemma RecordedZero(values: seq<int>, i: nat, groups: seq<int>, current: int)
    requires i < |values| && values[i] == 0 && Recorded(values, i, groups, current)
    ensures Recorded(values, i + 1, groups + [current], 0)
  {
    var p := Split(values[..i], 0);
    assert values[..i + 1] == values[..i] + [values[i]];
    SplitSnocSeparator(values[..i], 0);
    SumsInitLast(p);
    assert (p + [[]])[..|p|] == p;
  }

  /** A non-zero value extends the open run and leaves the closed ones. */
  lemma ExtendRun(values: seq<int>, i: nat)
    requires i < |values| && values[i] != 0
    ensures var p := Split(values[..i], 0); var q := Split(values[..i + 1], 0);
      |q| == |p| && q[..|q| - 1] == p[..|p| - 1] && Sum(q[|q| - 1]) == Sum(p[|p| - 1]) + values[i]
  {
    var p := Split(values[..i], 0);
    assert values[..i + 1] == values[..i] + [values[i]];
    SplitSnocOther(values[..i], values[i], 0);
    ExtendLastPieces(p, values[i]);
    SumSnoc(p[|p| - 1], values[i]);
  }

  lemma RecordedMiddle(values: seq<int>, i: nat, groups: seq<int>, current: int)
    requires i < |values| - 1 && values[i] != 0 && Recorded(values, i, groups, current)
    ensures Recorded(values, i + 1, groups, current + values[i])
  {
    ExtendRun(values, i);
  }

  lemma RecordedLast(values: seq<int>, i: nat, groups: seq<int>, current: int)
    requires i == |values| - 1 && values[i] != 0 && Recorded(values, i, groups, current)
    ensures Recorded(values, i + 1, groups + [current + values[i]], current + values[i])
  {
    ExtendRun(values, i);
    var q := Split(values[..i + 1], 0);
    SumsInitLast(q);
  }

  /** The loop of get_calories_by_elf: `current` accumulates snacks; a zero
      records it and starts again, and the last snack records it too. */
  method GroupCalories(values: seq<int>) returns (groups: seq<int>)
    ensures groups == Groups(values)
  {
    groups := [];
    var current := 0;
    var i := 0;
    while i < |values|
      invariant 0 <= i <= |values|
      invariant Recorded(values, i, groups, current)
    {
      if values[i] == 0 {
        RecordedZero(values, i, groups, current);
        groups := groups + [current];
        current := 0;
      } else if i == |values| - 1 {
        RecordedLast(values, i, groups, current);
        current := current + values[i];
        groups := groups + [current];
      } else {
        RecordedMiddle(values, i, groups, current);
        current := current + values[i];
      }
      i := i + 1;
    }
    assert values[..i] == values;
  }

  // Properties of the grouping

  lemma {:induction false} SumJoin(p: seq<seq<int>>)
    ensures Sum(Join(p, 0)) == Sum(Sums(p))
    decreases |p|
  {
    if |p| == 1 {
      SumSumsCons(p);
    } else if |p| > 1 {
      SumJoin(p[1..]);
      SumJoinCons(p);
      SumSumsCons(p);
    }
  }

  lemma SumSumsCons(p: seq<seq<int>>)
    requires |p| >= 1
    ensures Sum(Sums(p)) == Sum(p[0]) + Sum(Sums(p[1..]))
  {
    assert Sums(p) == [Sum(p[0])] + Sums(p[1..]);
    SumCons(Sum(p[0]), Sums(p[1..]));
  }

  lemma SumJoinCons(p: seq<seq<int>>)
    requires |p| >= 2
    ensures Sum(Join(p, 0)) == Sum(p[0]) + Sum(Join(p[1..], 0))
  {
    SumAppend(p[0] + [0], Join(p[1..], 0));
    SumSnoc(p[0], 0);
  }

  /** A trailing zero leaves an empty last piece. */
  lemma TrailingZero(values: seq<int>)
    requires |values| >= 1 && values[|values| - 1] == 0
    ensures var p := Split(values, 0); p[|p| - 1] == [] && p[..|p| - 1] + [[]] == p
  {
    var init := values[..|values| - 1];
    assert init + [0] == values;
    SplitSnocSeparator(init, 0);
    assert (Split(init, 0) + [[]])[..|Split(init, 0)|] == Split(init, 0);
  }

  /** Grouping conserves calories: the groups add up to the sum of all
      values. */
  lemma GroupsSum(values: seq<int>)
    ensures Sum(Groups(values)) == Sum(values)
  {
    SplitParts(values, 0);
    SumJoin(Split(values, 0));
    RunsTotal(values);
  }

  /** The runs hold as many calories as all the pieces. */
  lemma RunsTotal(values: seq<int>)
    ensures Sum(Sums(Runs(values))) == Sum(Sums(Split(values, 0)))
  {
    var p := Split(values, 0);
    if values == [] {
      assert p == [[]];
      SumsEmptyLast(p);
    } else if values[|values| - 1] == 0 {
      TrailingZero(values);
      SumsEmptyLast(p);
    }
  }

  /** Leaving out an empty last piece does not change the total. */
  lemma SumsEmptyLast(p: seq<seq<int>>)
    requires |p| >= 1 && p[|p| - 1] == []
    ensures Sum(Sums(p[..|p| - 1])) == Sum(Sums(p))
  {
    SumsInitLast(p);
    SumSnoc(Sums(p[..|p| - 1]), 0);
  }

  /** One group per zero, plus one more when the last value is not zero;
      so a non-empty input always gives at least one group. */
  lemma GroupsCount(values: seq<int>)
    ensures |Groups(values)| ==
      multiset(values)[0] + (if values != [] && values[|values| - 1] != 0 then 1 else 0)
    ensures values != [] ==> |Groups(values)| >= 1
  {
    var n := |Split(values, 0)|;
    SplitCount(values, 0);
    assert n == multiset(values)[0] + 1;
    if values != [] && values[|values| - 1] == 0 {
      assert values[|values| - 1] in multiset(values);
      assert multiset(values)[0] >= 1;
    }
  }

  // The Rust solution, rust/src/d1

  /** A line's calories: `parse::<u32>` with 0 for anything unparsable,
      blank lines included. */
  function Calorie(line: string): (v: nat)
    ensures v < U32_LIMIT
  {
    match ParseUnsigned(line, U32_LIMIT)
    case Some(n) => n
    case None => 0
  }

  lemma CalorieOfNumber(n: nat)
    requires n < U32_LIMIT
    ensures Calorie(NatToString(n)) == n
  {
    ParseUnsignedOfString(n, U32_LIMIT);
  }

  lemma CalorieOfBlank()
    ensures Calorie("") == 0
  {
  }

  function Values(input: string): (r: seq<int>)
    ensures |r| == |Split(input, '\n')| >= 1
  {
    var lines := Split(input, '\n');
    seq(|lines|, i requires 0 <= i < |lines| => Calorie(lines[i]))
  }

  /** get_calories_by_elf. */
  method CaloriesByElf(input: string) returns (groups: seq<int>)
    ensures groups == Groups(Values(input))
    ensures |groups| >= 1
  {
    groups := GroupCalories(Values(input));
    GroupsCount(Values(input));
  }

  /** get_most_calories: the first element after sorting descending, which
      exists because there is always a group, and is the largest one. */
  method MostCalories(input: string) returns (most: int)
    ensures most in Groups(Values(input))
    ensures forall g :: g in Groups(Values(input)) ==> g <= most
  {
    var groups := CaloriesByElf(input);
    var sorted := SortDescending(groups);
    most := sorted[0];
    DescendingHeadIsMax(sorted);
    assert most in multiset(groups);
    forall g | g in groups
      ensures g <= most
    {
      assert g in multiset(sorted);
    }
  }

  /** get_top3_calories: the sum of the first three after sorting
      descending; slicing fewer than three groups panics. */
  method Top3Calories(input: string) returns (r: Result<int>)
    ensures r.Ok? <==> |Groups(Values(input))| >= 3
    ensures r.Ok? ==> r.value == Sum(SortDescending(Groups(Values(input)))[..3])
  {
    var groups := CaloriesByElf(input);
    var sorted := SortDescending(groups);
    if |sorted| < 3 {
      return Err("range end index 3 out of range");
    }
    SumOfThree(sorted);
    return Ok(sorted[0] + sorted[1] + sorted[2]);
  }

  /** The puzzle's example: five elves carrying 6000, 4000, 11000, 24000
      and 10000 calories. */
  lemma ExampleGroups()
    ensures Groups([1000, 2000, 3000, 0, 4000, 0, 5000, 6000, 0, 7000, 8000, 9000, 0, 10000]) ==
            [6000, 4000, 11000, 24000, 10000]
  {
    var values := [1000, 2000, 3000, 0, 4000, 0, 5000, 6000, 0, 7000, 8000, 9000, 0, 10000];
    var p := [[1000, 2000, 3000], [4000], [5000, 6000], [7000, 8000, 9000], [10000]];
    ExampleJoin();
    SplitJoin(p, 0);
    ExampleSums();
  }

  lemma ExampleJoin()
    ensures Join([[1000, 2000, 3000], [4000], [5000, 6000], [7000, 8000, 9000], [10000]], 0) ==
            [1000, 2000, 3000, 0, 4000, 0, 5000, 6000, 0, 7000, 8000, 9000, 0, 10000]
  {
    var p := [[1000, 2000, 3000], [4000], [5000, 6000], [7000, 8000, 9000], [10000]];
    assert p[1..][1..][1..][1..] == [[10000]];
    assert Join(p[1..][1..][1..], 0) == [7000, 8000, 9000, 0, 10000];
    assert Join(p[1..][1..], 0) == [5000, 6000, 0, 7000, 8000, 9000, 0, 10000];
    assert Join(p[1..], 0) == [4000, 0, 5000, 6000, 0, 7000, 8000, 9000, 0, 10000];
  }

  lemma ExampleSums()
    ensures Sums([[1000, 2000, 3000], [4000], [5000, 6000], [7000, 8000, 9000], [10000]]) ==
            [6000, 4000, 11000, 24000, 10000]
  {
    SumOfThree([1000, 2000, 3000]);
    SumOfThree([7000, 8000, 9000]);
    assert [1000, 2000, 3000][..3] == [1000, 2000, 3000];
    assert [7000, 8000, 9000][..3] == [7000, 8000, 9000];
    assert Sum([5000, 6000]) == 11000 by {
      assert [5000, 6000][..1] == [5000];
    }
  }

  /** In the example the three largest groups hold 45000 calories and the
      largest 24000. */
  lemma ExampleTopThree(groups: seq<int>)
    requires groups == [6000, 4000, 11000, 24000, 10000]
    ensures SortDescending(groups) == [24000, 11000, 10000, 6000, 4000]
    ensures Sum(SortDescending(groups)[..3]) == 45000
  {
    var sorted := ExampleSorted(groups);
    DescendingUnique(SortDescending(groups), sorted);
  }

  lemma ExampleSorted(groups: seq<int>) returns (sorted: seq<int>)
    requires groups == [6000, 4000, 11000, 24000, 10000]
    ensures sorted == [24000, 11000, 10000, 6000, 4000]
    ensures Descending(sorted) && multiset(sorted) == multiset(groups)
    ensures Sum(sorted[..3]) == 45000
  {
    sorted := [24000, 11000, 10000, 6000, 4000];
    SumOfThree(sorted);
  }
}
