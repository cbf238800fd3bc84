/** Day 5: stacks of crates drawn as text, rearranged by "move A from B to
    C" lines, either one crate at a time (CrateMover 9000) or A crates at
    once, keeping their order (CrateMover 9001). */
module CrateStacks {
  import opened Wrappers
  import opened Text
  import opened Seqs

  /** The stacks, keyed by stack id; the last element of a stack is its
      top. */
  type Stacks = map<nat, seq<char>>

  datatype LineType = Empty | Crates | StackIds | Move

  /** get_input_line_type. */
  function LineTypeOf(line: string): LineType
  {
    if |line| == 0 then Empty
    else if '[' in line then Crates
    else if Contains(line, "move") then Move
    else StackIds
  }

  /** The tests are tried in order: empty, then a '[', then "move"
      anywhere in the line; everything else is a stack-id line. */
  lemma LineTypeOrder(line: string)
    ensures LineTypeOf(line) == Empty <==> line == []
    ensures LineTypeOf(line) == Crates <==> line != [] && '[' in line
    ensures LineTypeOf(line) == Move <==> line != [] && '[' !in line && exists i :: OccursAt(line, "move", i)
    ensures LineTypeOf(line) == StackIds <==> line != [] && '[' !in line && !exists i :: OccursAt(line, "move", i)
  {
  }

  /** The example's line kinds. */
  lemma ExampleLineTypes()
    ensures LineTypeOf("    [D]    ") == Crates
    ensures LineTypeOf("[Z] [M] [P]") == Crates
    ensures LineTypeOf("") == Empty
  {
    assert "    [D]    "[4] == '[';
    assert "[Z] [M] [P]"[0] == '[';
  }

  // ---------------------------------------------------------------------
  // The number of stacks and the initial stacks
  // ---------------------------------------------------------------------

  /** The length, spaces removed, of the first stack-id line. */
  function StackCount(lines: seq<string>): (r: Option<nat>)
    ensures r.Some? <==> exists i :: 0 <= i < |lines| && LineTypeOf(lines[i]) == StackIds
    ensures r.Some? ==> exists i :: (0 <= i < |lines| && LineTypeOf(lines[i]) == StackIds &&
      (forall j :: 0 <= j < i ==> LineTypeOf(lines[j]) != StackIds) &&
      r.value == |RemoveSpaces(lines[i])|)
  {
    if lines == [] then None
    else if LineTypeOf(lines[0]) == StackIds then Some(|RemoveSpaces(lines[0])|)
    else
      var r := StackCount(lines[1..]);
      assert forall i :: 1 <= i < |lines| ==> lines[i] == lines[1..][i - 1];
      if r.Some? then
        var i :| 0 <= i < |lines[1..]| && LineTypeOf(lines[1..][i]) == StackIds &&
          (forall j :: 0 <= j < i ==> LineTypeOf(lines[1..][j]) != StackIds) &&
          r.value == |RemoveSpaces(lines[1..][i])|;
        assert LineTypeOf(lines[i + 1]) == StackIds;
        r
      else r
  }

  /** get_number_of_stacks: the first stack-id line decides; without one
      it panics. */
  method NumberOfStacks(lines: seq<string>) returns (r: Result<nat>)
    ensures r.Ok? <==> StackCount(lines).Some?
    ensures r.Ok? ==> r.value == StackCount(lines).value
  {
    for i := 0 to |lines|
      invariant StackCount(lines[i..]) == StackCount(lines)
    {
      assert lines[i..][1..] == lines[i + 1..];
      if LineTypeOf(lines[i]) == StackIds {
        return Ok(|RemoveSpaces(lines[i])|);
      }
    }
    return Err("Could not figure out number of lines from input");
  }

  /** The crate a crate row shows for stack i+1: the character at column
      4i+1, unless the row is too short or has a space there. */
  function CrateAt(line: string, i: nat): seq<char>
  {
    if LineTypeOf(line) == Crates && i * 4 + 1 < |line| && line[i * 4 + 1] != ' '
    then [line[i * 4 + 1]] else []
  }

  /** The crates of stack i+1 in the first `j` lines, read top to
      bottom, one per crate row. */
  function Column(lines: seq<string>, j: nat, i: nat): seq<char>
    requires j <= |lines|
  {
    if j == 0 then [] else Column(lines, j - 1, i) + CrateAt(lines[j - 1], i)
  }

  predicate IsStackId(k: nat, n: nat)
  {
    1 <= k <= n
  }

  /** The stack ids 1..n. */
  function Ids(n: nat): set<nat>
  {
    set k: nat | k <= n && IsStackId(k, n)
  }

  /** Stacks 1..n holding their columns, top first. */
  function Columns(lines: seq<string>, n: nat): Stacks
  {
    map k: nat | k in Ids(n) :: Column(lines, |lines|, k - 1)
  }

  /** Every stack reversed. */
  function ReverseAll(stacks: Stacks): Stacks
  {
    map k: nat | k in stacks :: Reverse(stacks[k])
  }

  /** Stacks 1..n, each its column reversed so that the bottom crate comes
      first. */
  function InitialStacks(lines: seq<string>, n: nat): Stacks
  {
    ReverseAll(Columns(lines, n))
  }

  /** Stack k holds exactly the crates its column shows, and its first,
      bottom, crate is the one the lowest crate row shows. */
  lemma InitialStackCrates(lines: seq<string>, n: nat, k: nat)
    requires 1 <= k <= n
    ensures k in InitialStacks(lines, n)
    ensures multiset(InitialStacks(lines, n)[k]) == multiset(Column(lines, |lines|, k - 1))
    ensures Column(lines, |lines|, k - 1) != [] ==>
      InitialStacks(lines, n)[k][0] == Column(lines, |lines|, k - 1)[|Column(lines, |lines|, k - 1)| - 1]
  {
    var col := Column(lines, |lines|, k - 1);
    InitialStacksAt(lines, n, k);
    ReverseMultiset(col);
    if col != [] {
      ReverseFirst(col);
    }
  }

  lemma InitialStacksAt(lines: seq<string>, n: nat, k: nat)
    requires 1 <= k <= n
    ensures k in InitialStacks(lines, n)
    ensures InitialStacks(lines, n)[k] == Reverse(Column(lines, |lines|, k - 1))
  {
    assert k in Ids(n);
    assert Columns(lines, n)[k] == Column(lines, |lines|, k - 1);
  }

  /** initialize_stacks_from_input: empty stacks 1..n, one crate pushed
      per crate row and stack, then every stack reversed. */
  method InitializeStacks(input: string) returns (r: Result<Stacks>)
    ensures r.Ok? <==> StackCount(Split(input, '\n')).Some?
    ensures r.Ok? ==> r.value == InitialStacks(Split(input, '\n'), StackCount(Split(input, '\n')).value)
  {
    var lines := Split(input, '\n');
    var n :- NumberOfStacks(lines);
    var stacks := ReadColumns(lines, n);
    stacks := map k: nat | k in stacks :: Reverse(stacks[k]);
    return Ok(stacks);
  }

  /** The stacks before the reversal: each crate row pushes onto stacks
      1..n in turn. */
  method ReadColumns(lines: seq<string>, n: nat) returns (stacks: Stacks)
    ensures stacks == Columns(lines, n)
  {
    stacks := map[];
    for i := 0 to n
      invariant stacks == map k: nat | k in Ids(i) :: []
    {
      stacks := stacks[i + 1 := []];
    }
    for j := 0 to |lines|
      invariant stacks.Keys == Ids(n)
      invariant forall k :: 1 <= k <= n ==> stacks[k] == Column(lines, j, k - 1)
    {
      stacks := PushRow(stacks, n, lines[j]);
    }
    assert stacks.Keys == Columns(lines, n).Keys;
  }

  /** One crate row: stack i+1 gets the crate the row shows at column
      4i+1, for i in 0..n. Any other line changes nothing. */
  method PushRow(stacks: Stacks, n: nat, line: string) returns (r: Stacks)
    requires stacks.Keys == Ids(n)
    ensures r.Keys == stacks.Keys
    ensures forall k :: 1 <= k <= n ==> r[k] == stacks[k] + CrateAt(line, k - 1)
  {
    assert forall k :: 1 <= k <= n ==> k in stacks;
    r := stacks;
    if LineTypeOf(line) == Crates {
      for i := 0 to n
        invariant r.Keys == stacks.Keys
        invariant forall k :: 1 <= k <= n ==> r[k] == stacks[k] + (if k <= i then CrateAt(line, k - 1) else [])
      {
        if i * 4 + 1 < |line| && line[i * 4 + 1] != ' ' {
          r := r[i + 1 := r[i + 1] + [line[i * 4 + 1]]];
        }
      }
    }
  }

  // ---------------------------------------------------------------------
  // Move instructions
  // ---------------------------------------------------------------------

  datatype MoveInstruction = MoveInstruction(fromStack: nat, toStack: nat, count: nat)

  /** The regex "move (\d+) from (\d+) to (\d+)" matched at the start of
      `s`: the three digit runs. Each run is as long as it can be, since
      the literal after it does not start with a digit. */
  function MatchAt(s: string): (r: Option<(string, string, string)>)
    ensures r.Some? ==> AllDigits(r.value.0) && AllDigits(r.value.1) && AllDigits(r.value.2)
    ensures r.Some? ==> |r.value.0| >= 1 && |r.value.1| >= 1 && |r.value.2| >= 1
  {
    match TagDigits(s, MOVE_TAG)
    case None => None
    case Some((a, s1)) =>
      match TagDigits(s1, FROM_TAG)
      case None => None
      case Some((b, s2)) =>
        match TagDigits(s2, TO_TAG)
        case None => None
        case Some((c, _)) => Some((a, b, c))
  }

  /** One piece of the regex: the literal `t`, then `\d+`, greedy. */
  function TagDigits(s: string, t: string): (r: Option<(string, string)>)
    ensures r.Some? ==> AllDigits(r.value.0) && |r.value.0| >= 1
  {
    match Tag(s, t)
    case None => None
    case Some(after) =>
      var k := DigitRun(after);
      if k == 0 then None else Some((after[..k], after[k..]))
  }

  /** `captures`: the leftmost position from `i` on where the regex
      matches. */
  function FindMove(line: string, i: nat): (r: Option<(string, string, string)>)
    ensures r.Some? ==> AllDigits(r.value.0) && AllDigits(r.value.1) && AllDigits(r.value.2)
    ensures r.Some? ==> |r.value.0| >= 1 && |r.value.1| >= 1 && |r.value.2| >= 1
    decreases |line| - i
  {
    if i > |line| then None
    else if MatchAt(line[i..]).Some? then MatchAt(line[i..])
    else FindMove(line, i + 1)
  }

  /** get_move_instruction_from_line: no match, or a number that does not
      fit in a usize, panics. */
  function ParseMove(line: string): (r: Result<MoveInstruction>)
    ensures r.Ok? ==> r.value.count < U64_LIMIT && r.value.fromStack < U64_LIMIT && r.value.toStack < U64_LIMIT
  {
    match FindMove(line, 0)
    case None => Err("called `Option::unwrap()` on a `None` value")
    case Some(caps) =>
      match (ParseUnsigned(caps.1, U64_LIMIT), ParseUnsigned(caps.2, U64_LIMIT), ParseUnsigned(caps.0, U64_LIMIT))
      case (Some(f), Some(t), Some(n)) => Ok(MoveInstruction(f, t, n))
      case _ => Err("called `Result::unwrap()` on an `Err` value: ParseIntError")
  }

  /** The text of a move instruction. */
  function MoveText(m: MoveInstruction): string
  {
    MOVE_TAG + (NatToString(m.count) + (FROM_TAG + (NatToString(m.fromStack) + (TO_TAG + NatToString(m.toStack)))))
  }

  const MOVE_TAG := "move "
  const FROM_TAG := " from "
  const TO_TAG := " to "

  /** The literal, then a digit string the rest does not continue, is
      matched as that digit string. */
  lemma TagDigitsText(t: string, d: string, rest: string)
    requires AllDigits(d) && |d| >= 1
    requires rest == [] || !IsDigit(rest[0])
    ensures TagDigits(t + (d + rest), t) == Some((d, rest))
  {
    TagOfPrefix(t, d + rest);
    DigitRunOfDigits(d, rest);
    assert (d + rest)[..|d|] == d && (d + rest)[|d|..] == rest;
  }

  /** The regex matches the text of an instruction at its start, with the
      three numerals as its groups. */
  lemma MatchAtText(m: MoveInstruction)
    ensures MatchAt(MoveText(m)) == Some((NatToString(m.count), NatToString(m.fromStack), NatToString(m.toStack)))
  {
    var a, b, c := NatToString(m.count), NatToString(m.fromStack), NatToString(m.toStack);
    TagDigitsText(MOVE_TAG, a, FROM_TAG + (b + (TO_TAG + c)));
    TagDigitsText(FROM_TAG, b, TO_TAG + c);
    assert c + [] == c;
    TagDigitsText(TO_TAG, c, []);
  }

  /** Every instruction whose numbers fit in a usize is read back from its
      text. */
  lemma ParseMoveText(m: MoveInstruction)
    requires m.count < U64_LIMIT && m.fromStack < U64_LIMIT && m.toStack < U64_LIMIT
    ensures ParseMove(MoveText(m)) == Ok(m)
  {
    var s := MoveText(m);
    assert s[0..] == s;
    MatchAtText(m);
    ParseUnsignedOfString(m.count, U64_LIMIT);
    ParseUnsignedOfString(m.fromStack, U64_LIMIT);
    ParseUnsignedOfString(m.toStack, U64_LIMIT);
  }

  /** The two instruction lines of the tests. */
  lemma ExampleParseMoves()
    ensures ParseMove("move 1 from 1 to 2") == Ok(MoveInstruction(1, 2, 1))
    ensures ParseMove("move 2 from 2 to 3") == Ok(MoveInstruction(2, 3, 2))
  {
    assert NatToString(1) == "1" && NatToString(2) == "2" && NatToString(3) == "3";
    assert MoveText(MoveInstruction(1, 2, 1)) == "move 1 from 1 to 2";
    assert MoveText(MoveInstruction(2, 3, 2)) == "move 2 from 2 to 3";
    ParseMoveText(MoveInstruction(1, 2, 1));
    ParseMoveText(MoveInstruction(2, 3, 2));
  }

  // ---------------------------------------------------------------------
  // The two crane models
  // ---------------------------------------------------------------------

  /** The top `n` crates of the source stack taken off; the target gets
      `moved` on top. */
  function Transfer(stacks: Stacks, m: MoveInstruction, moved: seq<char>): Stacks
    requires m.fromStack in stacks && m.toStack in stacks && m.count <= |stacks[m.fromStack]|
  {
    var src := stacks[m.fromStack];
    stacks[m.fromStack := src[..|src| - m.count]][m.toStack := stacks[m.toStack] + moved]
  }

  /** The top `n` crates of the source stack, bottom first. */
  function TopCratesOf(stacks: Stacks, m: MoveInstruction): seq<char>
    requires m.fromStack in stacks && m.count <= |stacks[m.fromStack]|
  {
    var src := stacks[m.fromStack];
    src[|src| - m.count..]
  }

  /** apply_move_instruction_cratemover9000: `count` times, pop the source
      and push onto the target. A missing stack or an empty source
      panics; moving onto the source itself puts each crate back. */
  function Moved9000(stacks: Stacks, m: MoveInstruction): (r: Result<Stacks>)
    ensures r.Ok? <==> (m.count == 0 ||
      (m.fromStack in stacks && m.toStack in stacks &&
       |stacks[m.fromStack]| >= (if m.fromStack == m.toStack then 1 else m.count)))
    ensures r.Ok? ==> r.value.Keys == stacks.Keys
    ensures r.Ok? ==> forall k :: k in stacks && k != m.fromStack && k != m.toStack ==> r.value[k] == stacks[k]
    ensures r.Ok? && m.count > 0 && m.fromStack != m.toStack ==>
      var src := stacks[m.fromStack];
      r.value[m.fromStack] == src[..|src| - m.count] &&
      r.value[m.toStack] == stacks[m.toStack] + Reverse(src[|src| - m.count..])
    ensures r.Ok? && (m.count == 0 || m.fromStack == m.toStack) ==> r.value == stacks
  {
    if m.count == 0 then Ok(stacks)
    else if m.fromStack !in stacks || m.toStack !in stacks then
      Err("called `Option::unwrap()` on a `None` value")
    else if m.fromStack == m.toStack then
      if |stacks[m.fromStack]| == 0 then Err("called `Option::unwrap()` on a `None` value")
      else Ok(stacks)
    else if |stacks[m.fromStack]| < m.count then Err("called `Option::unwrap()` on a `None` value")
    else Ok(Transfer(stacks, m, Reverse(TopCratesOf(stacks, m))))
  }

  /** apply_move_instruction_cratemover9001: pop `count` crates into a
      buffer, then append the buffer, reversed, onto the target, so the
      crates keep their order. The target is looked up even when nothing
      moves. */
  function Moved9001(stacks: Stacks, m: MoveInstruction): (r: Result<Stacks>)
    ensures r.Ok? <==> (m.toStack in stacks &&
      (m.count == 0 || (m.fromStack in stacks && |stacks[m.fromStack]| >= m.count)))
    ensures r.Ok? ==> r.value.Keys == stacks.Keys
    ensures r.Ok? ==> forall k :: k in stacks && k != m.fromStack && k != m.toStack ==> r.value[k] == stacks[k]
    ensures r.Ok? && m.count > 0 && m.fromStack != m.toStack ==>
      var src := stacks[m.fromStack];
      r.value[m.fromStack] == src[..|src| - m.count] &&
      r.value[m.toStack] == stacks[m.toStack] + src[|src| - m.count..]
    ensures r.Ok? && (m.count == 0 || m.fromStack == m.toStack) ==> r.value == stacks
  {
    if m.count > 0 && (m.fromStack !in stacks || |stacks[m.fromStack]| < m.count) then
      Err("called `Option::unwrap()` on a `None` value")
    else if m.toStack !in stacks then Err("called `Option::unwrap()` on a `None` value")
    else if m.count == 0 || m.fromStack == m.toStack then Ok(stacks)
    else Ok(Transfer(stacks, m, TopCratesOf(stacks, m)))
  }

  /** Moving a single crate is the same for both cranes. */
  lemma SingleCrateAgrees(stacks: Stacks, m: MoveInstruction)
    requires m.count == 1
    ensures Moved9000(stacks, m) == Moved9001(stacks, m)
  {
    if Moved9000(stacks, m).Ok? && m.fromStack != m.toStack {
      var src := stacks[m.fromStack];
      assert Reverse(src[|src| - 1..]) == src[|src| - 1..];
    }
  }

  /** How many crates labelled `c` the stacks with ids 1..n hold. */
  function CrateCount(stacks: Stacks, n: nat, c: char): nat
  {
    if n == 0 then 0
    else CrateCount(stacks, n - 1, c) + (if n in stacks then multiset(stacks[n])[c] else 0)
  }

  /** Replacing one stack changes the count by exactly that stack's. */
  lemma {:induction false} CrateCountUpdate(stacks: Stacks, key: nat, v: seq<char>, n: nat, c: char)
    requires key in stacks && 1 <= key <= n
    ensures CrateCount(stacks[key := v], n, c) + multiset(stacks[key])[c] == CrateCount(stacks, n, c) + multiset(v)[c]
  {
    if key < n {
      CrateCountUpdate(stacks, key, v, n - 1, c);
    } else {
      CrateCountUnchanged(stacks, key, v, n - 1, c);
    }
  }

  lemma {:induction false} CrateCountUnchanged(stacks: Stacks, key: nat, v: seq<char>, n: nat, c: char)
    requires key > n
    ensures CrateCount(stacks[key := v], n, c) == CrateCount(stacks, n, c)
  {
    if n > 0 {
      CrateCountUnchanged(stacks, key, v, n - 1, c);
    }
  }

  /** Taking the top crates off the source and putting `moved`, the same
      crates in some order, on the target keeps every crate. */
  lemma TransferConserves(stacks: Stacks, m: MoveInstruction, moved: seq<char>, n: nat, c: char)
    requires m.fromStack in stacks && m.toStack in stacks && m.count <= |stacks[m.fromStack]|
    requires m.fromStack != m.toStack
    requires 1 <= m.fromStack <= n && 1 <= m.toStack <= n
    requires multiset(moved) == multiset(TopCratesOf(stacks, m))
    ensures CrateCount(Transfer(stacks, m, moved), n, c) == CrateCount(stacks, n, c)
  {
    var src := stacks[m.fromStack];
    var prefix := src[..|src| - m.count];
    var s1 := stacks[m.fromStack := prefix];
    CrateCountUpdate(stacks, m.fromStack, prefix, n, c);
    CrateCountUpdate(s1, m.toStack, stacks[m.toStack] + moved, n, c);
    assert src == prefix + TopCratesOf(stacks, m);
    assert multiset(src)[c] == multiset(prefix)[c] + multiset(moved)[c];
    assert multiset(stacks[m.toStack] + moved)[c] == multiset(stacks[m.toStack])[c] + multiset(moved)[c];
  }

  /** Both cranes keep every crate, as long as the stacks are 1..n. */
  lemma MoversConserve(stacks: Stacks, m: MoveInstruction, n: nat, c: char)
    requires forall k :: k in stacks ==> 1 <= k <= n
    ensures Moved9000(stacks, m).Ok? ==> CrateCount(Moved9000(stacks, m).value, n, c) == CrateCount(stacks, n, c)
    ensures Moved9001(stacks, m).Ok? ==> CrateCount(Moved9001(stacks, m).value, n, c) == CrateCount(stacks, n, c)
  {
    if m.count > 0 && m.fromStack != m.toStack && m.fromStack in stacks && m.toStack in stacks
      && m.count <= |stacks[m.fromStack]| {
      ReverseMultiset(TopCratesOf(stacks, m));
      TransferConserves(stacks, m, Reverse(TopCratesOf(stacks, m)), n, c);
      TransferConserves(stacks, m, TopCratesOf(stacks, m), n, c);
    }
  }

  /** apply_move_instruction_cratemover9000: the loop, then the crane
      model it computes. */
  method Apply9000(stacks: Stacks, m: MoveInstruction) returns (r: Result<Stacks>)
    ensures r.Ok? <==> Moved9000(stacks, m).Ok?
    ensures r.Ok? ==> r.value == Moved9000(stacks, m).value
  {
    r := MoveOneByOne(stacks, m);
    if m.count > 0 && Moves9000(stacks, m) {
      After9000Moved(stacks, m);
    }
  }

  /** The CrateMover 9000 finds every stack it needs and never pops an
      empty one. */
  predicate Moves9000(stacks: Stacks, m: MoveInstruction)
  {
    m.count == 0 ||
    (m.fromStack in stacks && m.toStack in stacks &&
     |stacks[m.fromStack]| >= (if m.fromStack == m.toStack then 1 else m.count))
  }

  /** Moving the crates one at a time ends in the crane model's state. */
  lemma After9000Moved(stacks: Stacks, m: MoveInstruction)
    requires Moves9000(stacks, m) && m.count > 0
    ensures Moved9000(stacks, m) == Ok(After9000(stacks, m, m.count))
  {
    assert m.(count := m.count) == m;
  }

  /** The loop of apply_move_instruction_cratemover9000: `count` times, pop
      the source and push the crate onto the target. */
  method MoveOneByOne(stacks: Stacks, m: MoveInstruction) returns (r: Result<Stacks>)
    ensures r.Ok? <==> Moves9000(stacks, m)
    ensures r.Ok? && m.count == 0 ==> r.value == stacks
    ensures r.Ok? && m.count > 0 ==>
      (m.fromStack in stacks && m.toStack in stacks &&
       (m.fromStack != m.toStack ==> m.count <= |stacks[m.fromStack]|) &&
       r.value == After9000(stacks, m, m.count))
  {
    var s := stacks;
    for k := 0 to m.count
      invariant s.Keys == stacks.Keys
      invariant k == 0 ==> s == stacks
      invariant k > 0 ==> m.fromStack in stacks && m.toStack in stacks
      invariant k > 0 && m.fromStack == m.toStack ==> |stacks[m.fromStack]| >= 1
      invariant k > 0 && m.fromStack != m.toStack ==> k <= |stacks[m.fromStack]|
      invariant k > 0 ==> s == After9000(stacks, m, k)
    {
      if m.fromStack !in s || |s[m.fromStack]| == 0 {
        NoCrate9000(stacks, m, k, s);
        return Err("called `Option::unwrap()` on a `None` value");
      }
      var src := s[m.fromStack];
      var c := src[|src| - 1];
      var popped := s[m.fromStack := src[..|src| - 1]];
      if m.toStack !in popped {
        assert !Moves9000(stacks, m);
        return Err("called `Option::unwrap()` on a `None` value");
      }
      Step9000(stacks, m, k, s, src);
      s := popped[m.toStack := popped[m.toStack] + [c]];
    }
    return Ok(s);
  }

  /** A pop that finds no stack, or an empty one, means the crane model
      fails too. */
  lemma NoCrate9000(stacks: Stacks, m: MoveInstruction, k: nat, s: Stacks)
    requires k < m.count && s.Keys == stacks.Keys
    requires k == 0 ==> s == stacks
    requires k > 0 ==> m.fromStack in stacks && m.toStack in stacks
    requires k > 0 && m.fromStack == m.toStack ==> |stacks[m.fromStack]| >= 1
    requires k > 0 && m.fromStack != m.toStack ==> k <= |stacks[m.fromStack]|
    requires k > 0 ==> s == After9000(stacks, m, k)
    requires m.fromStack !in s || |s[m.fromStack]| == 0
    ensures !Moves9000(stacks, m)
  {
  }

  /** The state after k single-crate moves. */
  function After9000(stacks: Stacks, m: MoveInstruction, k: nat): Stacks
    requires m.fromStack in stacks && m.toStack in stacks
    requires m.fromStack != m.toStack ==> k <= |stacks[m.fromStack]|
  {
    if k == 0 || m.fromStack == m.toStack then stacks
    else Transfer(stacks, m.(count := k), Reverse(TopCratesOf(stacks, m.(count := k))))
  }

  lemma Step9000(stacks: Stacks, m: MoveInstruction, k: nat, cur: Stacks, src: seq<char>)
    requires m.fromStack in stacks && m.toStack in stacks
    requires m.fromStack == m.toStack ==> |stacks[m.fromStack]| >= 1
    requires m.fromStack != m.toStack ==> k + 1 <= |stacks[m.fromStack]|
    requires cur == After9000(stacks, m, k)
    requires src == cur[m.fromStack] && |src| >= 1
    ensures var popped := cur[m.fromStack := src[..|src| - 1]];
      popped[m.toStack := popped[m.toStack] + [src[|src| - 1]]] == After9000(stacks, m, k + 1)
  {
    var c := src[|src| - 1];
    if m.fromStack == m.toStack {
      assert src[..|src| - 1] + [c] == src;
    } else {
      var full := stacks[m.fromStack];
      var top := full[|full| - (k + 1)..];
      var prefix := full[..|full| - k];
      var moved := Reverse(full[|full| - k..]);
      if k == 0 {
        assert prefix == full && moved == [];
        assert stacks[m.toStack] + moved == stacks[m.toStack];
      }
      assert cur == stacks[m.fromStack := prefix][m.toStack := stacks[m.toStack] + moved];
      assert top[1..] == full[|full| - k..];
      assert c == top[0];
      assert Reverse(top) == moved + [c];
      assert prefix[..|prefix| - 1] == full[..|full| - (k + 1)];
      assert (stacks[m.toStack] + moved) + [c] == stacks[m.toStack] + Reverse(top);
    }
  }

  /** apply_move_instruction_cratemover9001: pop `count` crates into a
      buffer, look the target up, append the reversed buffer to it. */
  method Apply9001(stacks: Stacks, m: MoveInstruction) returns (r: Result<Stacks>)
    ensures r.Ok? <==> Moved9001(stacks, m).Ok?
    ensures r.Ok? ==> r.value == Moved9001(stacks, m).value
  {
    var popped := PopCrates(stacks, m);
    if popped.Err? {
      return Err(popped.msg);
    }
    var s, buffer := popped.value.0, popped.value.1;
    if m.toStack !in s {
      return Err("called `Option::unwrap()` on a `None` value");
    }
    Popped9001Moved(stacks, m);
    return Ok(s[m.toStack := s[m.toStack] + Reverse(buffer)]);
  }

  /** The source stack exists and holds `count` crates, unless none move. */
  predicate Pops9001(stacks: Stacks, m: MoveInstruction)
  {
    m.count == 0 || (m.fromStack in stacks && |stacks[m.fromStack]| >= m.count)
  }

  /** The stacks and the buffer once `count` crates have been popped: the
      top crates, topmost first. */
  function Popped9001(stacks: Stacks, m: MoveInstruction): (Stacks, seq<char>)
    requires Pops9001(stacks, m)
  {
    if m.count == 0 then (stacks, [])
    else
      var full := stacks[m.fromStack];
      (stacks[m.fromStack := full[..|full| - m.count]], Reverse(full[|full| - m.count..]))
  }

  /** Appending the reversed buffer to the target is the crane model. */
  lemma Popped9001Moved(stacks: Stacks, m: MoveInstruction)
    requires Pops9001(stacks, m) && m.toStack in stacks
    ensures var (s, buffer) := Popped9001(stacks, m);
      m.toStack in s && Moved9001(stacks, m) == Ok(s[m.toStack := s[m.toStack] + Reverse(buffer)])
  {
    var (s, buffer) := Popped9001(stacks, m);
    if m.count > 0 {
      ReverseReverse(TopCratesOf(stacks, m));
      assert Reverse(buffer) == TopCratesOf(stacks, m);
      if m.fromStack == m.toStack {
        var full := stacks[m.fromStack];
        assert full[..|full| - m.count] + full[|full| - m.count..] == full;
        assert s[m.toStack := s[m.toStack] + Reverse(buffer)] == stacks;
      }
    } else {
      assert Reverse(buffer) == [] && s[m.toStack] + Reverse(buffer) == s[m.toStack];
      assert s[m.toStack := s[m.toStack] + Reverse(buffer)] == stacks;
    }
  }

  /** The first loop of apply_move_instruction_cratemover9001: `count`
      times, pop the source onto the buffer. */
  method PopCrates(stacks: Stacks, m: MoveInstruction) returns (r: Result<(Stacks, seq<char>)>)
    ensures r.Ok? <==> Pops9001(stacks, m)
    ensures r.Ok? ==> r.value == Popped9001(stacks, m) && r.value.0.Keys == stacks.Keys
  {
    var s := stacks;
    var buffer: seq<char> := [];
    for k := 0 to m.count
      invariant s.Keys == stacks.Keys
      invariant k == 0 ==> s == stacks && buffer == []
      invariant k > 0 ==> m.fromStack in stacks && k <= |stacks[m.fromStack]|
      invariant k > 0 ==>
        var full := stacks[m.fromStack];
        s == stacks[m.fromStack := full[..|full| - k]] && buffer == Reverse(full[|full| - k..])
    {
      if m.fromStack !in s || |s[m.fromStack]| == 0 {
        assert !Pops9001(stacks, m);
        return Err("called `Option::unwrap()` on a `None` value");
      }
      var src := s[m.fromStack];
      PopInto(stacks[m.fromStack], k, src, buffer);
      assert k == 0 ==> stacks[m.fromStack][..|stacks[m.fromStack]| - k] == stacks[m.fromStack];
      buffer := buffer + [src[|src| - 1]];
      s := s[m.fromStack := src[..|src| - 1]];
    }
    return Ok((s, buffer));
  }

  lemma PopInto(full: seq<char>, k: nat, src: seq<char>, buffer: seq<char>)
    requires k < |full| && |src| >= 1
    requires src == full[..|full| - k]
    requires buffer == Reverse(full[|full| - k..])
    ensures src[..|src| - 1] == full[..|full| - (k + 1)]
    ensures buffer + [src[|src| - 1]] == Reverse(full[|full| - (k + 1)..])
  {
    var top := full[|full| - (k + 1)..];
    assert top[1..] == full[|full| - k..];
  }

  // ---------------------------------------------------------------------
  // run_scenario
  // ---------------------------------------------------------------------

  datatype Crane = CrateMover9000 | CrateMover9001

  /** apply_move_instruction with the chosen crane. */
  function Moved(stacks: Stacks, m: MoveInstruction, crane: Crane): (r: Result<Stacks>)
    ensures r.Ok? ==> r.value.Keys == stacks.Keys
  {
    match crane
    case CrateMover9000 => Moved9000(stacks, m)
    case CrateMover9001 => Moved9001(stacks, m)
  }

  /** Every move line, in order; the other lines are skipped. */
  function Rearranged(stacks: Stacks, lines: seq<string>, crane: Crane): (r: Result<Stacks>)
    ensures r.Ok? ==> r.value.Keys == stacks.Keys
    decreases |lines|
  {
    if lines == [] then Ok(stacks)
    else if LineTypeOf(lines[0]) == Move then
      var m :- ParseMove(lines[0]);
      var next :- Moved(stacks, m, crane);
      Rearranged(next, lines[1..], crane)
    else Rearranged(stacks, lines[1..], crane)
  }

  /** Rearranging keeps every crate of stacks 1..n. */
  lemma {:induction false} RearrangedConserves(stacks: Stacks, lines: seq<string>, crane: Crane, n: nat, c: char)
    requires forall k :: k in stacks ==> 1 <= k <= n
    requires Rearranged(stacks, lines, crane).Ok?
    ensures CrateCount(Rearranged(stacks, lines, crane).value, n, c) == CrateCount(stacks, n, c)
    decreases |lines|
  {
    if lines != [] {
      if LineTypeOf(lines[0]) == Move {
        var m := ParseMove(lines[0]).value;
        MoversConserve(stacks, m, n, c);
        RearrangedConserves(Moved(stacks, m, crane).value, lines[1..], crane, n, c);
      } else {
        RearrangedConserves(stacks, lines[1..], crane, n, c);
      }
    }
  }

  /** The top crate of stacks 1..count in order; a missing or empty stack
      panics. */
  function Tops(stacks: Stacks, count: nat): (r: Result<string>)
    ensures r.Ok? <==> forall k :: 1 <= k <= count ==> k in stacks && stacks[k] != []
    ensures r.Ok? ==> (|r.value| == count &&
      forall i :: 0 <= i < count ==> r.value[i] == stacks[i + 1][|stacks[i + 1]| - 1])
  {
    if count == 0 then Ok("")
    else
      var init :- Tops(stacks, count - 1);
      if count !in stacks || stacks[count] == [] then Err("called `Option::unwrap()` on a `None` value")
      else Ok(init + [stacks[count][|stacks[count]| - 1]])
  }

  /** run_scenario_cratemover9000/9001: the top crates of stacks
      1..|stacks| after every move. */
  function Scenario(input: string, crane: Crane): Result<string>
  {
    var lines := Split(input, '\n');
    match StackCount(lines)
    case None => Err("Could not figure out number of lines from input")
    case Some(n) =>
      var start := InitialStacks(lines, n);
      var stacks :- Rearranged(start, lines, crane);
      Tops(stacks, |stacks|)
  }

  method RunScenario(input: string, crane: Crane) returns (r: Result<string>)
    ensures r.Ok? <==> Scenario(input, crane).Ok?
    ensures r.Ok? ==> r.value == Scenario(input, crane).value
  {
    var start: Stacks :- InitializeStacks(input);
    var stacks :- Rearrange(start, Split(input, '\n'), crane);
    r := TopCrates(stacks);
  }

  /** The loop over the move lines of run_scenario. */
  method Rearrange(start: Stacks, lines: seq<string>, crane: Crane) returns (r: Result<Stacks>)
    ensures r.Ok? <==> Rearranged(start, lines, crane).Ok?
    ensures r.Ok? ==> r.value == Rearranged(start, lines, crane).value
  {
    var stacks := start;
    for j := 0 to |lines|
      invariant Rearranged(stacks, lines[j..], crane) == Rearranged(start, lines, crane)
    {
      assert lines[j..][1..] == lines[j + 1..];
      if LineTypeOf(lines[j]) == Move {
        var m :- ParseMove(lines[j]);
        match crane
        case CrateMover9000 => stacks :- Apply9000(stacks, m);
        case CrateMover9001 => stacks :- Apply9001(stacks, m);
      }
    }
    return Ok(stacks);
  }

  /** The output loop of run_scenario: the top of stacks 1..len. */
  method TopCrates(stacks: Stacks) returns (r: Result<string>)
    ensures r.Ok? <==> Tops(stacks, |stacks|).Ok?
    ensures r.Ok? ==> r.value == Tops(stacks, |stacks|).value
  {
    var output := "";
    for i := 0 to |stacks|
      invariant Tops(stacks, i) == Ok(output)
    {
      if i + 1 !in stacks || stacks[i + 1] == [] {
        return Err("called `Option::unwrap()` on a `None` value");
      }
      output := output + [stacks[i + 1][|stacks[i + 1]| - 1]];
    }
    return Ok(output);
  }

  const EXAMPLE: Stacks := map[1 := "ZN", 2 := "MCD", 3 := "P"]

  /** A transfer is determined by the new source and target stacks. */
  lemma TransferIs(stacks: Stacks, m: MoveInstruction, moved: seq<char>, expected: Stacks)
    requires m.fromStack in stacks && m.toStack in stacks && m.count <= |stacks[m.fromStack]|
    requires m.fromStack != m.toStack
    requires expected.Keys == stacks.Keys
    requires expected[m.fromStack] == stacks[m.fromStack][..|stacks[m.fromStack]| - m.count]
    requires expected[m.toStack] == stacks[m.toStack] + moved
    requires forall k | k in stacks && k != m.fromStack && k != m.toStack :: expected[k] == stacks[k]
    ensures Transfer(stacks, m, moved) == expected
  {
    var t := Transfer(stacks, m, moved);
    assert forall k | k in t :: t[k] == expected[k];
  }

  /** The test of the CrateMover 9000 moving one crate, which is also the
      example's first instruction for both cranes. */
  lemma ExampleMove1()
    ensures Moved9000(EXAMPLE, MoveInstruction(2, 1, 1)) == Ok(map[1 := "ZND", 2 := "MC", 3 := "P"])
    ensures Moved9001(EXAMPLE, MoveInstruction(2, 1, 1)) == Ok(map[1 := "ZND", 2 := "MC", 3 := "P"])
  {
    var m := MoveInstruction(2, 1, 1);
    assert TopCratesOf(EXAMPLE, m) == "D" && Reverse("D") == "D";
    TransferIs(EXAMPLE, m, "D", map[1 := "ZND", 2 := "MC", 3 := "P"]);
    SingleCrateAgrees(EXAMPLE, m);
  }

  /** The tests moving three crates from stack 1 to stack 3: reversed by
      the CrateMover 9000, in order by the CrateMover 9001. */
  lemma ExampleMove2()
    ensures Moved9000(map[1 := "ZND", 2 := "MC", 3 := "P"], MoveInstruction(1, 3, 3)) ==
      Ok(map[1 := "", 2 := "MC", 3 := "PDNZ"])
    ensures Moved9001(map[1 := "ZND", 2 := "MC", 3 := "P"], MoveInstruction(1, 3, 3)) ==
      Ok(map[1 := "", 2 := "MC", 3 := "PZND"])
  {
    var s: Stacks := map[1 := "ZND", 2 := "MC", 3 := "P"];
    var m := MoveInstruction(1, 3, 3);
    assert TopCratesOf(s, m) == "ZND";
    assert Reverse("ZND") == "DNZ";
    TransferIs(s, m, "DNZ", map[1 := "", 2 := "MC", 3 := "PDNZ"]);
    TransferIs(s, m, "ZND", map[1 := "", 2 := "MC", 3 := "PZND"]);
  }

  /** The example's third and fourth instructions with the CrateMover
      9000. */
  lemma Example9000Rest()
    ensures Moved9000(map[1 := "", 2 := "MC", 3 := "PDNZ"], MoveInstruction(2, 1, 2)) ==
      Ok(map[1 := "CM", 2 := "", 3 := "PDNZ"])
    ensures Moved9000(map[1 := "CM", 2 := "", 3 := "PDNZ"], MoveInstruction(1, 2, 1)) ==
      Ok(map[1 := "C", 2 := "M", 3 := "PDNZ"])
  {
    var s3: Stacks := map[1 := "", 2 := "MC", 3 := "PDNZ"];
    var m3 := MoveInstruction(2, 1, 2);
    assert TopCratesOf(s3, m3) == "MC" && Reverse("MC") == "CM";
    TransferIs(s3, m3, "CM", map[1 := "CM", 2 := "", 3 := "PDNZ"]);
    var s4: Stacks := map[1 := "CM", 2 := "", 3 := "PDNZ"];
    var m4 := MoveInstruction(1, 2, 1);
    assert TopCratesOf(s4, m4) == "M" && Reverse("M") == "M";
    TransferIs(s4, m4, "M", map[1 := "C", 2 := "M", 3 := "PDNZ"]);
  }

  /** The example's third and fourth instructions with the CrateMover
      9001. */
  lemma Example9001Rest()
    ensures Moved9001(map[1 := "", 2 := "MC", 3 := "PZND"], MoveInstruction(2, 1, 2)) ==
      Ok(map[1 := "MC", 2 := "", 3 := "PZND"])
    ensures Moved9001(map[1 := "MC", 2 := "", 3 := "PZND"], MoveInstruction(1, 2, 1)) ==
      Ok(map[1 := "M", 2 := "C", 3 := "PZND"])
  {
    var s3: Stacks := map[1 := "", 2 := "MC", 3 := "PZND"];
    var m3 := MoveInstruction(2, 1, 2);
    assert TopCratesOf(s3, m3) == "MC";
    TransferIs(s3, m3, "MC", map[1 := "MC", 2 := "", 3 := "PZND"]);
    var s4: Stacks := map[1 := "MC", 2 := "", 3 := "PZND"];
    var m4 := MoveInstruction(1, 2, 1);
    assert TopCratesOf(s4, m4) == "C";
    TransferIs(s4, m4, "C", map[1 := "M", 2 := "C", 3 := "PZND"]);
  }

  /** The final tops: "CMZ" for the CrateMover 9000, "MCD" for the 9001. */
  lemma ExampleTops()
    ensures Tops(map[1 := "C", 2 := "M", 3 := "PDNZ"], 3) == Ok("CMZ")
    ensures Tops(map[1 := "M", 2 := "C", 3 := "PZND"], 3) == Ok("MCD")
  {
    var a: Stacks := map[1 := "C", 2 := "M", 3 := "PDNZ"];
    var b: Stacks := map[1 := "M", 2 := "C", 3 := "PZND"];
    assert forall k :: 1 <= k <= 3 ==> k in a && a[k] != [] && k in b && b[k] != [];
    var ra, rb := Tops(a, 3).value, Tops(b, 3).value;
    assert ra[0] == 'C' && ra[1] == 'M' && ra[2] == 'Z';
    assert ra == "CMZ";
    assert rb[0] == 'M' && rb[1] == 'C' && rb[2] == 'D';
    assert rb == "MCD";
  }

  /** Lines without a stack id in front do not change the stack count. */
  lemma {:induction false} StackCountAfter(a: seq<string>, b: seq<string>)
    requires forall i :: 0 <= i < |a| ==> LineTypeOf(a[i]) != StackIds
    ensures StackCount(a + b) == StackCount(b)
  {
    if a != [] {
      var ab := a + b;
      assert ab[0] == a[0] && ab[1..] == a[1..] + b;
      assert StackCount(ab) == StackCount(ab[1..]);
      StackCountAfter(a[1..], b);
      assert StackCount(ab[1..]) == StackCount(b);
    } else {
      assert a + b == b;
    }
  }

  /** Lines that are not crate rows add nothing to any column. */
  lemma {:induction false} ColumnAfterRows(lines: seq<string>, j: nat, i: nat)
    requires j <= |lines|
    requires forall k :: j <= k < |lines| ==> LineTypeOf(lines[k]) != Crates
    ensures Column(lines, |lines|, i) == Column(lines, j, i)
    decreases |lines| - j
  {
    if j < |lines| {
      ColumnAfterRows(lines, j + 1, i);
    }
  }

  /** A line without the first letter of `sub` does not contain it. */
  lemma NotContainsFirst(s: string, sub: string)
    requires |sub| >= 1 && sub[0] !in s
    ensures !Contains(s, sub)
  {
  }

  /** Columns up to line j only read the first j lines. */
  lemma {:induction false} ColumnOfPrefix(a: seq<string>, b: seq<string>, j: nat, i: nat)
    requires j <= |a|
    ensures Column(a + b, j, i) == Column(a, j, i)
  {
    if j > 0 {
      ColumnOfPrefix(a, b, j - 1, i);
      assert (a + b)[j - 1] == a[j - 1];
    }
  }

  /** The crate rows of the test input of initialize_stacks and
      get_number_of_stacks. */
  const EXAMPLE_ROWS: seq<string> := ["    [D]", "[N] [C]", "[Z] [M] [P]"]

  /** The lines after them. */
  const EXAMPLE_REST: seq<string> := [" 1   2   3", "",
    "move 1 from 2 to 1", "move 3 from 1 to 3", "move 2 from 2 to 1", "move 1 from 1 to 2"]

  const EXAMPLE_LINES: seq<string> := EXAMPLE_ROWS + EXAMPLE_REST

  const EXAMPLE_TEXT: string := Join(EXAMPLE_LINES, '\n')

  lemma ExampleTextLines()
    ensures Split(EXAMPLE_TEXT, '\n') == EXAMPLE_LINES
  {
    SplitJoin(EXAMPLE_LINES, '\n');
  }

  lemma ExampleRowsAreCrates()
    ensures forall k :: 0 <= k < |EXAMPLE_ROWS| ==> LineTypeOf(EXAMPLE_ROWS[k]) == Crates
  {
    assert EXAMPLE_ROWS[0][4] == '[' && EXAMPLE_ROWS[1][0] == '[' && EXAMPLE_ROWS[2][0] == '[';
  }

  lemma ExampleRestNoCrates()
    ensures forall k :: 0 <= k < |EXAMPLE_REST| ==> '[' !in EXAMPLE_REST[k]
  {
  }

  /** The fourth line is a stack-id line. */
  lemma ExampleIdLineType()
    ensures LineTypeOf(" 1   2   3") == StackIds
  {
    NotContainsFirst(" 1   2   3", "move");
  }

  /** Without its spaces the fourth line has three characters. */
  lemma ExampleIdLineLength()
    ensures |RemoveSpaces(" 1   2   3")| == 3
  {
    var line := " 1   2   3";
    assert RemoveSpaces(line[9..]) == "3";
    assert RemoveSpaces(line[5..]) == "2" + RemoveSpaces(line[6..]);
    assert RemoveSpaces(line[1..]) == "1" + RemoveSpaces(line[2..]);
  }

  lemma ExampleLinesStackCount()
    ensures StackCount(EXAMPLE_LINES) == Some(3)
  {
    ExampleRowsAreCrates();
    ExampleIdLineType();
    ExampleIdLineLength();
    StackCountAfter(EXAMPLE_ROWS, EXAMPLE_REST);
    assert EXAMPLE_REST[0] == " 1   2   3";
  }

  /** The test text has three stacks: its fourth line is the first
      stack-id line. */
  lemma ExampleStackCount()
    ensures StackCount(Split(EXAMPLE_TEXT, '\n')) == Some(3)
  {
    ExampleTextLines();
    ExampleLinesStackCount();
  }

  /** What each crate row shows for the three stacks. */
  lemma ExampleRowCrates(k: nat)
    requires k < 3
    ensures CrateAt(EXAMPLE_ROWS[k], 0) == ["", "N", "Z"][k]
    ensures CrateAt(EXAMPLE_ROWS[k], 1) == ["D", "C", "M"][k]
    ensures CrateAt(EXAMPLE_ROWS[k], 2) == ["", "", "P"][k]
  {
    ExampleRowsAreCrates();
  }

  /** The columns of the crate rows, top to bottom. */
  lemma ExampleRowColumns(i: nat)
    requires i < 3
    ensures Column(EXAMPLE_ROWS, 3, i) == ["NZ", "DCM", "P"][i]
  {
    var rows := EXAMPLE_ROWS;
    ExampleRowCrates(0);
    ExampleRowCrates(1);
    ExampleRowCrates(2);
    assert Column(rows, 3, i) == CrateAt(rows[0], i) + CrateAt(rows[1], i) + CrateAt(rows[2], i);
    if i == 0 {
      assert CrateAt(rows[0], 0) + CrateAt(rows[1], 0) + CrateAt(rows[2], 0) == "" + "N" + "Z";
    } else if i == 1 {
      assert CrateAt(rows[0], 1) + CrateAt(rows[1], 1) + CrateAt(rows[2], 1) == "D" + "C" + "M";
    } else {
      assert CrateAt(rows[0], 2) + CrateAt(rows[1], 2) + CrateAt(rows[2], 2) == "" + "" + "P";
    }
  }

  /** The columns of the test input, top to bottom. */
  lemma ExampleColumns(i: nat)
    requires i < 3
    ensures Column(EXAMPLE_LINES, |EXAMPLE_LINES|, i) == ["NZ", "DCM", "P"][i]
  {
    ExampleRestNoCrates();
    ColumnAfterRows(EXAMPLE_LINES, 3, i);
    ColumnOfPrefix(EXAMPLE_ROWS, EXAMPLE_REST, 3, i);
    ExampleRowColumns(i);
  }

  /** Stacks 1..n holding the reversed columns are the initial stacks. */
  lemma InitialStacksAre(lines: seq<string>, n: nat, expected: Stacks)
    requires expected.Keys == Ids(n)
    requires forall k :: 1 <= k <= n ==> expected[k] == Reverse(Column(lines, |lines|, k - 1))
    ensures InitialStacks(lines, n) == expected
  {
    forall k | 1 <= k <= n ensures InitialStacks(lines, n)[k] == expected[k] {
      InitialStacksAt(lines, n, k);
    }
  }

  lemma ExampleReversedColumns(k: nat)
    requires 1 <= k <= 3
    ensures EXAMPLE[k] == Reverse(Column(EXAMPLE_LINES, |EXAMPLE_LINES|, k - 1))
  {
    ExampleColumns(k - 1);
    ExampleReversals();
    if k == 1 {
      assert EXAMPLE[1] == "ZN";
    } else if k == 2 {
      assert EXAMPLE[2] == "MCD";
    } else {
      assert EXAMPLE[3] == "P";
    }
  }

  lemma ExampleReversals()
    ensures Reverse("NZ") == "ZN" && Reverse("DCM") == "MCD" && Reverse("P") == "P"
  {
    assert "DCM"[1..] == "CM" && "CM"[1..] == "M";
    assert "NZ"[1..] == "Z";
  }

  lemma ExampleIds()
    ensures Ids(3) == EXAMPLE.Keys
  {
    assert forall k: nat :: k in Ids(3) <==> k in {1, 2, 3};
  }

  lemma ExampleLinesInitialStacks()
    ensures InitialStacks(EXAMPLE_LINES, 3) == EXAMPLE
  {
    ExampleIds();
    forall k | 1 <= k <= 3 ensures EXAMPLE[k] == Reverse(Column(EXAMPLE_LINES, |EXAMPLE_LINES|, k - 1)) {
      ExampleReversedColumns(k);
    }
    InitialStacksAre(EXAMPLE_LINES, 3, EXAMPLE);
  }

  /** The test text's stacks, bottom crate first: Z N, M C D and P. */
  lemma ExampleInitialStacks()
    ensures InitialStacks(Split(EXAMPLE_TEXT, '\n'), 3) == EXAMPLE
  {
    ExampleTextLines();
    ExampleLinesInitialStacks();
  }
}
