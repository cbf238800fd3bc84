/** Day 4: pairs of elves, each assigned a range of section ids written
    "min-max", two ranges per line separated by a comma. */
module Assignments {
  import opened Wrappers
  import opened Text

  /** A range of section ids, both ends included (u32 values). */
  datatype Job = Job(minId: nat, maxId: nat)

  datatype PairAssignment = PairAssignment(job1: Job, job2: Job)

  /** Section `id` lies in the range. */
  predicate Holds(j: Job, id: int)
  {
    j.minId <= id <= j.maxId
  }

  /** A range whose ends are in order, as every puzzle line has. */
  predicate Ordered(j: Job)
  {
    j.minId <= j.maxId
  }

  /** One id field: `parse::<u32>()`, with 0 for text that does not parse. */
  function IdOf(part: string): (n: nat)
    ensures n < U32_LIMIT
  {
    match ParseUnsigned(part, U32_LIMIT)
    case Some(v) => v
    case None => 0
  }

  /** Job::from_string: the pieces before and after the first '-'; a text
      with no '-' has no second piece and the indexing panics. */
  function JobFromString(s: string): (r: Result<Job>)
    ensures r.Ok? <==> '-' in s
    ensures r.Ok? ==> r.value.minId < U32_LIMIT && r.value.maxId < U32_LIMIT
  {
    var parts := Split(s, '-');
    SplitCount(s, '-');
    if |parts| < 2 then Err("index out of bounds: the len is 1 but the index is 1")
    else Ok(Job(IdOf(parts[0]), IdOf(parts[1])))
  }

  /** The text "min-max" of a range. */
  function JobText(j: Job): string
  {
    NatToString(j.minId) + "-" + NatToString(j.maxId)
  }

  lemma DigitsHaveNo(s: string, c: char)
    requires AllDigits(s) && !IsDigit(c)
    ensures c !in s
  {
  }

  /** Job::from_string reads back the text of any range of u32 ids. */
  lemma JobRoundTrip(j: Job)
    requires j.minId < U32_LIMIT && j.maxId < U32_LIMIT
    ensures JobFromString(JobText(j)) == Ok(j)
  {
    var a, b := NatToString(j.minId), NatToString(j.maxId);
    DigitsHaveNo(a, '-');
    DigitsHaveNo(b, '-');
    SplitAfterPiece(a, b, '-');
    SplitNoSeparator(b, '-');
    assert Split(a + "-" + b, '-') == [a, b];
    ParseUnsignedOfString(j.minId, U32_LIMIT);
    ParseUnsignedOfString(j.maxId, U32_LIMIT);
  }

  /** A piece that does not parse counts as id 0. */
  lemma UnparsableIdIsZero(part: string)
    requires part == [] || (part[0] != '+' && !IsDigit(part[0]))
    ensures IdOf(part) == 0
  {
  }

  /** PairAssignment::from_string: the first two comma-separated pieces;
      a line with no comma, or a piece with no '-', panics. */
  function PairFromString(s: string): (r: Result<PairAssignment>)
    ensures r.Ok? <==> |Split(s, ',')| >= 2 && '-' in Split(s, ',')[0] && '-' in Split(s, ',')[1]
    ensures r.Ok? ==> ',' in s
  {
    var parts := Split(s, ',');
    SplitCount(s, ',');
    if |parts| < 2 then Err("index out of bounds: the len is 1 but the index is 1")
    else
      var job1 :- JobFromString(parts[0]);
      var job2 :- JobFromString(parts[1]);
      Ok(PairAssignment(job1, job2))
  }

  function PairText(p: PairAssignment): string
  {
    JobText(p.job1) + "," + JobText(p.job2)
  }

  /** PairAssignment::from_string reads back the text of any pair. */
  lemma PairRoundTrip(p: PairAssignment)
    requires p.job1.minId < U32_LIMIT && p.job1.maxId < U32_LIMIT
    requires p.job2.minId < U32_LIMIT && p.job2.maxId < U32_LIMIT
    ensures PairFromString(PairText(p)) == Ok(p)
  {
    var a, b := JobText(p.job1), JobText(p.job2);
    DigitsHaveNo(NatToString(p.job1.minId), ',');
    DigitsHaveNo(NatToString(p.job1.maxId), ',');
    DigitsHaveNo(NatToString(p.job2.minId), ',');
    DigitsHaveNo(NatToString(p.job2.maxId), ',');
    assert ',' !in a && ',' !in b;
    SplitAfterPiece(a, b, ',');
    SplitNoSeparator(b, ',');
    assert Split(a + "," + b, ',') == [a, b];
    JobRoundTrip(p.job1);
    JobRoundTrip(p.job2);
  }

  /** is_fully_contained_in. */
  predicate IsFullyContainedIn(a: Job, b: Job)
  {
    a.minId >= b.minId && a.maxId <= b.maxId
  }

  /** For an ordered range, containment is exactly the inclusion of the
      sets of section ids. */
  lemma ContainedIffSubset(a: Job, b: Job)
    requires Ordered(a)
    ensures IsFullyContainedIn(a, b) <==> forall id :: Holds(a, id) ==> Holds(b, id)
  {
    if forall id :: Holds(a, id) ==> Holds(b, id) {
      assert Holds(a, a.minId) && Holds(a, a.maxId);
    }
  }

  /** Every range contains itself. */
  lemma ContainedReflexive(a: Job)
    ensures IsFullyContainedIn(a, a)
  {
  }

  /** is_one_of_pair_fully_contained_in_the_other. */
  predicate EitherContained(p: PairAssignment)
  {
    IsFullyContainedIn(p.job1, p.job2) || IsFullyContainedIn(p.job2, p.job1)
  }

  function Swap(p: PairAssignment): PairAssignment
  {
    PairAssignment(p.job2, p.job1)
  }

  /** The either-contained check does not depend on the order of the pair. */
  lemma EitherContainedSymmetric(p: PairAssignment)
    ensures EitherContained(Swap(p)) == EitherContained(p)
  {
  }

  /** overlaps: an end of the first range lies in the second range, or one
      range contains the other. */
  predicate Overlaps(p: PairAssignment)
  {
    (p.job1.minId >= p.job2.minId && p.job1.minId <= p.job2.maxId)
    || (p.job1.maxId <= p.job2.maxId && p.job1.maxId >= p.job2.minId)
    || EitherContained(p)
  }

  /** A pair where one range contains the other overlaps. */
  lemma ContainedOverlaps(p: PairAssignment)
    ensures EitherContained(p) ==> Overlaps(p)
  {
  }

  /** For ordered ranges, overlaps holds exactly when the two ranges share
      a section id. */
  lemma OverlapsIffShared(p: PairAssignment)
    requires Ordered(p.job1) && Ordered(p.job2)
    ensures Overlaps(p) <==> exists id :: Holds(p.job1, id) && Holds(p.job2, id)
  {
    if Overlaps(p) {
      if p.job1.minId >= p.job2.minId && p.job1.minId <= p.job2.maxId {
        assert Holds(p.job1, p.job1.minId) && Holds(p.job2, p.job1.minId);
      } else if p.job1.maxId <= p.job2.maxId && p.job1.maxId >= p.job2.minId {
        assert Holds(p.job1, p.job1.maxId) && Holds(p.job2, p.job1.maxId);
      } else {
        assert Holds(p.job1, p.job2.minId) && Holds(p.job2, p.job2.minId);
      }
    }
  }

  /** get_pair_assignments_from_input: every line parsed; the first line
      that does not parse panics. */
  function PairsFromLines(lines: seq<string>): (r: Result<seq<PairAssignment>>)
    ensures r.Ok? <==> forall i :: 0 <= i < |lines| ==> PairFromString(lines[i]).Ok?
    ensures r.Ok? ==> |r.value| == |lines|
    ensures r.Ok? ==> forall i :: 0 <= i < |lines| ==> r.value[i] == PairFromString(lines[i]).value
  {
    if lines == [] then Ok([])
    else
      var p :- PairFromString(lines[0]);
      var rest :- PairsFromLines(lines[1..]);
      Ok([p] + rest)
  }

  /** The number of pairs where one range contains the other. */
  function CountContained(pairs: seq<PairAssignment>): (n: nat)
    ensures n <= |pairs|
  {
    if pairs == [] then 0
    else (if EitherContained(pairs[0]) then 1 else 0) + CountContained(pairs[1..])
  }

  /** The number of overlapping pairs. */
  function CountOverlapping(pairs: seq<PairAssignment>): (n: nat)
    ensures n <= |pairs|
  {
    if pairs == [] then 0
    else (if Overlaps(pairs[0]) then 1 else 0) + CountOverlapping(pairs[1..])
  }

  /** No more pairs are contained than overlap. */
  lemma {:induction false} CountContainedAtMostOverlapping(pairs: seq<PairAssignment>)
    ensures CountContained(pairs) <= CountOverlapping(pairs)
  {
    if pairs != [] {
      ContainedOverlaps(pairs[0]);
      CountContainedAtMostOverlapping(pairs[1..]);
    }
  }

  /** get_total_number_of_fully_contained_assignment_pairs. */
  function TotalContained(input: string): (r: Result<nat>)
    ensures r.Ok? <==> PairsFromLines(Split(input, '\n')).Ok?
    ensures r.Ok? ==> r.value <= |Split(input, '\n')|
  {
    var pairs :- PairsFromLines(Split(input, '\n'));
    Ok(CountContained(pairs))
  }

  /** get_total_number_of_overlapping_assignment_pairs. */
  function TotalOverlapping(input: string): (r: Result<nat>)
    ensures r.Ok? <==> PairsFromLines(Split(input, '\n')).Ok?
    ensures r.Ok? ==> r.value <= |Split(input, '\n')|
  {
    var pairs :- PairsFromLines(Split(input, '\n'));
    Ok(CountOverlapping(pairs))
  }

  /** On any input the contained total is at most the overlapping total. */
  lemma TotalsOrdered(input: string)
    requires TotalContained(input).Ok?
    ensures TotalOverlapping(input).Ok?
    ensures TotalContained(input).value <= TotalOverlapping(input).value
  {
    CountContainedAtMostOverlapping(PairsFromLines(Split(input, '\n')).value);
  }

  function Pair(a: nat, b: nat, c: nat, d: nat): PairAssignment
  {
    PairAssignment(Job(a, b), Job(c, d))
  }

  /** The six example pairs: two are contained, four overlap. */
  lemma ExampleCounts(pairs: seq<PairAssignment>)
    requires pairs == [Pair(2, 4, 6, 8), Pair(2, 3, 4, 5), Pair(5, 7, 7, 9),
                       Pair(2, 8, 3, 7), Pair(6, 6, 4, 6), Pair(2, 6, 4, 8)]
    ensures CountContained(pairs) == 2
    ensures CountOverlapping(pairs) == 4
  {
    assert pairs[6..] == [];
    assert CountContained(pairs[5..]) == 0 && CountOverlapping(pairs[5..]) == 1;
    assert CountContained(pairs[4..]) == 1 && CountOverlapping(pairs[4..]) == 2;
    assert CountContained(pairs[3..]) == 2 && CountOverlapping(pairs[3..]) == 3;
    assert CountContained(pairs[2..]) == 2 && CountOverlapping(pairs[2..]) == 4;
    assert CountContained(pairs[1..]) == 2 && CountOverlapping(pairs[1..]) == 4;
  }
}
