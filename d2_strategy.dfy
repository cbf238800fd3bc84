/** Day 2: a strategy guide of rock-paper-scissors rounds, one per line,
    "A Y" meaning the opponent plays the first letter and the guide names
    the second. Both scoring tables are fixed lookups; the reference below
    derives them from the rules of the game. */
module Strategy {
  import opened Wrappers
  import opened Text

  /** part1_map: the second letter is the shape to play. */
  function Part1Map(hand: string): nat
  {
    if hand == "A X" then 1 + 3
    else if hand == "A Y" then 2 + 6
    else if hand == "A Z" then 3 + 0
    else if hand == "B X" then 1 + 0
    else if hand == "B Y" then 2 + 3
    else if hand == "B Z" then 3 + 6
    else if hand == "C X" then 1 + 6
    else if hand == "C Y" then 2 + 0
    else if hand == "C Z" then 3 + 3
    else 0
  }

  /** part2_map: the second letter is the outcome to reach. */
  function Part2Map(hand: string): nat
  {
    if hand == "A X" then 3 + 0
    else if hand == "A Y" then 1 + 3
    else if hand == "A Z" then 2 + 6
    else if hand == "B X" then 1 + 0
    else if hand == "B Y" then 2 + 3
    else if hand == "B Z" then 3 + 6
    else if hand == "C X" then 2 + 0
    else if hand == "C Y" then 3 + 3
    else if hand == "C Z" then 1 + 6
    else 0
  }

  /** strategy: the mapper's score of every line, added up. */
  function StrategyScore(input: string, mapper: string -> nat): nat
  {
    LinesScore(Split(input, '\n'), mapper)
  }

  function LinesScore(lines: seq<string>, mapper: string -> nat): nat
  {
    if lines == [] then 0 else mapper(lines[0]) + LinesScore(lines[1..], mapper)
  }

  // The rules of the game, as an independent reference for both tables.

  datatype Shape = Rock | Paper | Scissors
  datatype Outcome = Lose | Draw | Win

  function ShapeValue(s: Shape): nat
  {
    match s
    case Rock => 1
    case Paper => 2
    case Scissors => 3
  }

  function OutcomeValue(o: Outcome): nat
  {
    match o
    case Lose => 0
    case Draw => 3
    case Win => 6
  }

  /** The shape that `s` defeats. */
  function Defeats(s: Shape): Shape
  {
    match s
    case Rock => Scissors
    case Paper => Rock
    case Scissors => Paper
  }

  /** The outcome for the player who plays `mine` against `theirs`. */
  function Play(theirs: Shape, mine: Shape): Outcome
  {
    if mine == theirs then Draw
    else if Defeats(mine) == theirs then Win
    else Lose
  }

  /** The shape that reaches `goal` against `theirs`. */
  function ShapeFor(theirs: Shape, goal: Outcome): (mine: Shape)
    ensures Play(theirs, mine) == goal
  {
    match goal
    case Draw => theirs
    case Lose => Defeats(theirs)
    case Win => Defeats(Defeats(theirs))
  }

  /** A well-formed hand: A, B or C, a space, and X, Y or Z, read as the
      opponent's shape and the index 0, 1 or 2 of the second letter. */
  function ParseHand(hand: string): Option<(Shape, nat)>
  {
    if |hand| != 3 || hand[1] != ' ' then None
    else
      var theirs := if hand[0] == 'A' then Some(Rock)
        else if hand[0] == 'B' then Some(Paper)
        else if hand[0] == 'C' then Some(Scissors)
        else None;
      var second := if hand[2] == 'X' then Some(0)
        else if hand[2] == 'Y' then Some(1)
        else if hand[2] == 'Z' then Some(2)
        else None;
      if theirs.None? || second.None? then None else Some((theirs.value, second.value))
  }

  function NthShape(k: nat): Shape
  {
    if k == 0 then Rock else if k == 1 then Paper else Scissors
  }

  function NthOutcome(k: nat): Outcome
  {
    if k == 0 then Lose else if k == 1 then Draw else Win
  }

  /** part1_map scores every hand by the rules: the value of the shape
      played (X rock, Y paper, Z scissors) plus the value of the outcome;
      anything else scores 0. */
  lemma Part1MapByRules(hand: string)
    ensures ParseHand(hand).None? ==> Part1Map(hand) == 0
    ensures ParseHand(hand).Some? ==>
      var (theirs, k) := ParseHand(hand).value;
      Part1Map(hand) == ShapeValue(NthShape(k)) + OutcomeValue(Play(theirs, NthShape(k)))
  {
  }

  /** part2_map scores every hand by the rules: X, Y and Z ask to lose,
      draw and win, and the shape played is the one that does so. */
  lemma Part2MapByRules(hand: string)
    ensures ParseHand(hand).None? ==> Part2Map(hand) == 0
    ensures ParseHand(hand).Some? ==>
      var (theirs, k) := ParseHand(hand).value;
      Part2Map(hand) == ShapeValue(ShapeFor(theirs, NthOutcome(k))) + OutcomeValue(NthOutcome(k))
  {
  }

  /** Each of the nine hands scores between 1 and 9 under both tables. */
  lemma HandScoreRange(hand: string)
    requires ParseHand(hand).Some?
    ensures 1 <= Part1Map(hand) <= 9 && 1 <= Part2Map(hand) <= 9
  {
    Part1MapByRules(hand);
    Part2MapByRules(hand);
  }

  /** A first line adds its own score to the score of the lines after it. */
  lemma StrategyFirstLine(line: string, rest: string, mapper: string -> nat)
    requires '\n' !in line
    ensures StrategyScore(line + "\n" + rest, mapper) == mapper(line) + StrategyScore(rest, mapper)
  {
    SplitAfterPiece(line, rest, '\n');
    assert ([line] + Split(rest, '\n'))[1..] == Split(rest, '\n');
  }

  /** The score of a guide is at most 9 per line under either table. */
  lemma {:induction false} LinesScoreBound(lines: seq<string>, part2: bool)
    ensures LinesScore(lines, if part2 then Part2Map else Part1Map) <= 9 * |lines|
  {
    if lines != [] {
      LinesScoreBound(lines[1..], part2);
      if ParseHand(lines[0]).Some? {
        HandScoreRange(lines[0]);
      } else {
        Part1MapByRules(lines[0]);
        Part2MapByRules(lines[0]);
      }
    }
  }

  const EXAMPLE_GUIDE := "A Y\nB X\nC Z"

  /** The three lines of the example guide and their scores. */
  lemma ExampleLineScores()
    ensures Part1Map("A Y") == 8 && Part1Map("B X") == 1 && Part1Map("C Z") == 6
    ensures Part2Map("A Y") == 4 && Part2Map("B X") == 1 && Part2Map("C Z") == 7
  {
  }

  lemma ExampleGuideLines()
    ensures EXAMPLE_GUIDE == "A Y" + "\n" + ("B X" + "\n" + "C Z")
  {
  }

  /** A guide of three lines scores the sum of its three lines. */
  lemma ThreeLines(a: string, b: string, c: string, mapper: string -> nat)
    requires '\n' !in a && '\n' !in b && '\n' !in c
    ensures StrategyScore(a + "\n" + (b + "\n" + c), mapper) == mapper(a) + mapper(b) + mapper(c)
  {
    StrategyFirstLine(a, b + "\n" + c, mapper);
    StrategyFirstLine(b, c, mapper);
    SplitNoSeparator(c, '\n');
    assert Split(c, '\n')[1..] == [];
    assert LinesScore(Split(c, '\n'), mapper) == mapper(c) + LinesScore([], mapper);
  }

  /** The example guide scores 15 under part1_map. */
  lemma ExampleScorePart1()
    ensures StrategyScore(EXAMPLE_GUIDE, Part1Map) == 15
  {
    ExampleGuideLines();
    ExampleLineScores();
    ThreeLines("A Y", "B X", "C Z", Part1Map);
  }

  /** The example guide scores 12 under part2_map. */
  lemma ExampleScorePart2()
    ensures StrategyScore(EXAMPLE_GUIDE, Part2Map) == 12
  {
    ExampleGuideLines();
    ExampleLineScores();
    ThreeLines("A Y", "B X", "C Z", Part2Map);
  }
}
