# Advent of Code 2022 solutions, modelled in Dafny

This project models a set of Advent of Code 2022 puzzle solutions. Most days
are written in Rust (`rust/src/dN/mod.rs`); day 1 also exists in Python
(`1/main.py`), and day 13 exists only in Python (`python/d13/main.py`).
Each day gets one Dafny module. The module models how that day parses its
puzzle input and computes its two answers. The lemmas then prove what the
computation means:

- day 1: splitting snack calories into elves and summing them;
- day 2: rock-paper-scissors scoring;
- day 3: rucksack item priorities;
- day 4: section-range overlaps;
- day 5: crate stacks moved by a crane;
- day 6: the start-of-packet marker;
- day 8: tree visibility and scenic scores;
- day 9: rope knots following a head;
- day 10: the CPU register trace and its signal strength;
- day 11: monkeys throwing items;
- day 12: the elevation map and its path search;
- day 13: packet comparison and the decoder key;
- day 14: falling sand;
- day 15: sensors and beacons.

Where the source loops over data and updates variables, the model is a
`method` with a loop. Its loop invariants prove that it computes a
specification function. The properties the puzzle relies on are proved as
lemmas about those functions. Integer widths (`u32`, `u64`, `usize`, `i32`)
are modelled as bounds where the source depends on them. Shared helpers live
in three modules:

- `Wrappers`: `Option` and `Result`;
- `Seqs`: sums, insertion sort, maximum, flattening and reversal;
- `Text`: splitting, joining, decimal numbers and nom-style tag and space
  parsers.

## Model

| member | source | states |
|---|---|---|
| Text.Split | rust/src/d1/mod.rs:4-6 | `str::split` on one separator gives at least one piece; what the pieces are is stated by `SplitParts` and `SplitCount` |
| Text.SplitParts | rust/src/d1/mod.rs:4-6 | no piece holds the separator, and joining the pieces with it gives back the input |
| Text.SplitSnocOther | rust/src/d1/mod.rs:4-6 | appending a character other than the separator extends the last piece |
| Text.SplitJoin | rust/src/d1/mod.rs:4-6 | splitting a join of separator-free pieces gives back those pieces |
| Text.SplitCount | rust/src/d1/mod.rs:4-6 | the number of pieces is one more than the number of separators |
| Text.NatPrefix | rust/src/d11/mod.rs:29-38 | nom's decimal number parser: the value is below the integer type's limit and at least one character is consumed |
| Text.NatPrefixOfString | rust/src/d11/mod.rs:29-38 | the number parser reads back the decimal text of any value in range, and leaves the rest untouched |
| Text.ParseUnsigned | rust/src/d1/mod.rs:8 | `parse::<u32>()`-style parse: a result is in range and comes from non-empty text |
| Text.ParseUnsignedOfString | rust/src/d1/mod.rs:8 | the unsigned parse reads back the decimal text of every value in range |
| Text.ParseI32 | rust/src/d10/mod.rs:10 | `parse::<i32>()`: a result lies within the i32 range |
| Text.ParseI32OfString | rust/src/d10/mod.rs:10 | the i32 parse reads back the decimal text of every i32 |
| Text.Tag | rust/src/d11/mod.rs:29-38 | nom's `tag`: it succeeds exactly when the text starts with the tag, and returns what follows |
| Text.SkipSpace | rust/src/d11/mod.rs:59 | nom's `space0`: it drops the leading spaces, and only those |
| Text.Contains | rust/src/d5/mod.rs:58-61 | `str::contains`: true exactly when the substring occurs at some position |
| Text.SkipMultispace | rust/src/d11/mod.rs:53 | nom's `multispace0`: drops exactly the leading white space, leaving a suffix that starts with none |
| Text.RemoveSpaces | rust/src/d5/mod.rs:39 | `replace(" ", "")`: no space is left and every other character keeps its number of occurrences |
| Seqs.SortDescending | rust/src/d1/mod.rs:31-32 | `sort` then `reverse`: the result is descending and a permutation of the input |
| Seqs.DescendingUnique | rust/src/d1/mod.rs:31-32 | two descending permutations of the same values are equal, so any correct sort gives this order |
| Seqs.Max | 1/main.py:19-20 | `max`: an element that no element exceeds |
| Seqs.ReverseIndex | rust/src/d1/mod.rs:32 | `reverse`: position i of the result holds the element n - 1 - i of the input |
| Seqs.FlattenHas | rust/src/d8/mod.rs:178 | every cell of a grid is in its flattening |
| Calories.GroupCalories | rust/src/d1/mod.rs:11-26 | the loop that closes an elf's total at each zero and at the last value computes the per-elf totals (`Groups`) |
| Calories.Sums | rust/src/d1/mod.rs:11-24 | one total per elf, each the sum of that elf's values |
| Calories.GroupsSum | rust/src/d1/mod.rs:11-26 | the per-elf totals add up to the sum of all the values |
| Calories.GroupsCount | rust/src/d1/mod.rs:11-26 | there is one total per zero, plus one if the last value is not zero |
| Calories.SumJoin | rust/src/d1/mod.rs:11-26 | summing the zero-joined groups equals summing their totals |
| Calories.RunsTotal | rust/src/d1/mod.rs:11-26 | the runs the loop closes have the same grand total as the pieces between zeros |
| Calories.SumsEmptyLast | rust/src/d1/mod.rs:24-26 | an empty last group adds nothing to the grand total |
| Calories.Calorie | rust/src/d1/mod.rs:8 | `parse::<u32>().unwrap_or_default()`: the value is below 2^32 |
| Calories.CalorieOfNumber | rust/src/d1/mod.rs:8 | a line holding the decimal text of a u32 yields that number |
| Calories.CalorieOfBlank | rust/src/d1/mod.rs:8 | an empty line yields 0, the elf separator |
| Calories.Values | rust/src/d1/mod.rs:4-9 | there is one value per line of the input |
| Calories.CaloriesByElf | rust/src/d1/mod.rs:3-27 | get_calories_by_elf returns the per-elf totals of the input's values, and at least one of them |
| Calories.MostCalories | rust/src/d1/mod.rs:29-34 | get_most_calories returns a total that belongs to some elf and that no elf exceeds |
| Calories.Top3Calories | rust/src/d1/mod.rs:36-41 | get_top3_calories succeeds exactly when there are at least three elves (the slice `[0..3]` panics otherwise), and returns the sum of the three largest totals |
| Calories.ExampleGroups | rust/src/d1/mod.rs:47-53 | the puzzle example's values group into 6000, 4000, 11000, 24000 and 10000 |
| Calories.ExampleTopThree | rust/src/d1/mod.rs:55-71 | in the example the largest total is 24000 and the top three sum to 45000 |
| CaloriesPy.Strip | 1/main.py:3 | `int()` trims whitespace: the result is no longer than the input and neither starts nor ends with whitespace |
| CaloriesPy.DropUnderscoresOfDigits | 1/main.py:3 | `int()` ignores underscores between digits: dropping them leaves only digits |
| CaloriesPy.PyIntOfString | 1/main.py:3 | `int()` reads back the decimal text of every integer, negative ones included |
| CaloriesPy.PyIntRejects | 1/main.py:3 | `int()` rejects text that holds a character other than a digit, an underscore or a sign |
| CaloriesPy.PyValues | 1/main.py:2-3 | the map over the lines succeeds exactly when every line converts; it then gives one value per line, 0 for an empty one |
| CaloriesPy.CaloriesByElf | 1/main.py:1-17 | the per-elf totals (the same grouping as the Rust loop), or an error when some line is not an integer |
| CaloriesPy.MostCalories | 1/main.py:19-20 | `max` of the totals: a total that belongs to some elf and that no elf exceeds |
| CaloriesPy.Top3Calories | 1/main.py:22-26 | the sum of the first at most three totals, sorted descending; unlike the Rust version, fewer than three elves is not an error |
| Strategy.ShapeFor | rust/src/d2/mod.rs:23-38 | the shape chosen for a wanted outcome does reach that outcome against the opponent's shape |
| Strategy.Part1MapByRules | rust/src/d2/mod.rs:1-16 | `Part1Map`, part1_map's table, agrees with the rules: the value of the shape the second letter names plus the value of the outcome; any other hand scores 0 |
| Strategy.Part2MapByRules | rust/src/d2/mod.rs:23-38 | `Part2Map`, part2_map's table, agrees with the rules: the second letter names the outcome, and the score adds the value of the shape that reaches it; any other hand scores 0 |
| Strategy.HandScoreRange | rust/src/d2/mod.rs:1-38 | each of the nine hands scores between 1 and 9 under both tables |
| Strategy.StrategyFirstLine | rust/src/d2/mod.rs:18-21 | strategy adds the first line's score to the score of the lines after it |
| Strategy.LinesScoreBound | rust/src/d2/mod.rs:18-21 | a guide scores at most 9 per line |
| Strategy.ExampleLineScores | rust/src/d2/mod.rs:45-83 | the table values the tests give for A Y, B X and C Z, in both parts |
| Strategy.ExampleScorePart1 | rust/src/d2/mod.rs:59-69 | the example guide scores 15 under part1_map |
| Strategy.ExampleScorePart2 | rust/src/d2/mod.rs:85-95 | the example guide scores 12 under part2_map |
| Rucksacks.PriorityOfLetters | rust/src/d3/mod.rs:21-31 | `Priority` (get_item_priority) gives lower-case letters 1..26 and upper-case letters 27..52, and distinct letters get distinct priorities |
| Rucksacks.SharedItems | rust/src/d3/mod.rs:3-19 | the items of a line are shared when they occur in both halves, and each shared item is listed once |
| Rucksacks.KeepShared | rust/src/d3/mod.rs:15-18 | the filter keeps exactly the items also in the other compartment, each once |
| Rucksacks.PriorityTotalFirstLine | rust/src/d3/mod.rs:33-44 | get_priority_sum adds the first line's shared-item priorities to the total of the lines after it |
| Rucksacks.LinesPriorityFlattened | rust/src/d3/mod.rs:33-44 | summing the lines' shared-item priorities line by line equals flattening the per-line item lists into one list and summing its priorities |
| Rucksacks.PriorityTotalFlattened | rust/src/d3/mod.rs:33-44 | get_priority_sum is the sum of the priorities in the flattened list of all lines' shared items |
| Rucksacks.PrioritySumOrderFree | rust/src/d3/mod.rs:33-44 | summing the priorities of the shared items gives the same total whatever order the hash set lists them in |
| Rucksacks.BadgeMeaning | rust/src/d3/mod.rs:46-56 | a group's badge is the one item every line holds, and no other item is held by every line |
| Rucksacks.GroupBadge | rust/src/d3/mod.rs:46-56 | get_group_badge returns the badge, and fails the `len() == 1` assertion exactly when there is not exactly one common item |
| Rucksacks.Groups | rust/src/d3/mod.rs:58-68 | get_groups fails when the line count is not a multiple of three; otherwise it returns one group per three lines, and group g splits back into lines 3g..3g+2 |
| Rucksacks.BadgePriorityTotal | rust/src/d3/mod.rs:70-74 | get_badge_priority_total succeeds exactly when the line count is a multiple of three and every group of three lines has a badge; it returns the sum of the badge priorities |
| Rucksacks.SumBadges | rust/src/d3/mod.rs:70-74 | the map and sum over the groups succeed exactly when every group has a badge, and add up the badge priorities |
| RucksacksExamples.ExampleSharedItems | rust/src/d3/mod.rs:82-93 | the shared items of the six test lines: p, L, P, v, t and s |
| RucksacksExamples.ExampleItemPriorities | rust/src/d3/mod.rs:95-108 | the ten priorities test_get_item_priority lists |
| RucksacksExamples.ExamplePriorityTotal | rust/src/d3/mod.rs:110-122 | the shared-item priorities of the test text add up to 157 |
| RucksacksExamples.ExampleGroupBadges | rust/src/d3/mod.rs:124-139 | the two three-line test texts have the badges r and Z |
| RucksacksExamples.ExampleGroups | rust/src/d3/mod.rs:141-152 | any result get_groups can give on the test text is the two groups of three lines, each joined by line feeds |
| RucksacksExamples.ExampleBadgeTotal | rust/src/d3/mod.rs:154-166 | the test text has a multiple of three lines, every group has a badge, and the badge priorities add up to 70 |
| Assignments.IdOf | rust/src/d4/mod.rs:13 | `parse().unwrap_or_default()` gives a u32 |
| Assignments.UnparsableIdIsZero | rust/src/d4/mod.rs:13 | an id field that does not start with a digit or '+' counts as 0 |
| Assignments.JobFromString | rust/src/d4/mod.rs:8-20 | Job::from_string succeeds exactly when the text holds '-' (the index `[1]` panics otherwise), and its ids are u32s |
| Assignments.JobRoundTrip | rust/src/d4/mod.rs:8-20 | Job::from_string reads back the "min-max" text of any range of u32 ids |
| Assignments.PairFromString | rust/src/d4/mod.rs:35-41 | PairAssignment::from_string succeeds exactly when the text has at least two comma-separated pieces and each of the first two holds '-' (the indexing `[1]` panics otherwise); a success needs a comma |
| Assignments.PairRoundTrip | rust/src/d4/mod.rs:35-41 | PairAssignment::from_string reads back the "a-b,c-d" text of any pair |
| Assignments.ContainedIffSubset | rust/src/d4/mod.rs:22-25 | for an ordered range, `IsFullyContainedIn` holds exactly when every section of the first range lies in the second |
| Assignments.ContainedReflexive | rust/src/d4/mod.rs:22-25 | every range is fully contained in itself |
| Assignments.EitherContainedSymmetric | rust/src/d4/mod.rs:43-46 | `EitherContained`, whether one range of a pair contains the other, does not depend on the order of the pair |
| Assignments.ContainedOverlaps | rust/src/d4/mod.rs:48-54 | a pair where one range contains the other overlaps |
| Assignments.OverlapsIffShared | rust/src/d4/mod.rs:48-54 | for ordered ranges, `Overlaps` holds exactly when the ranges share a section |
| Assignments.PairsFromLines | rust/src/d4/mod.rs:57-59 | every line is parsed, one pair per line, and the result is an error exactly when some line fails to parse |
| Assignments.CountContained | rust/src/d4/mod.rs:61-64 | the count of contained pairs is at most the number of pairs |
| Assignments.CountOverlapping | rust/src/d4/mod.rs:66-69 | the count of overlapping pairs is at most the number of pairs |
| Assignments.CountContainedAtMostOverlapping | rust/src/d4/mod.rs:61-69 | no more pairs are contained than overlap |
| Assignments.TotalContained | rust/src/d4/mod.rs:61-64 | the part 1 total succeeds exactly when every line parses, and is at most the number of lines |
| Assignments.TotalOverlapping | rust/src/d4/mod.rs:66-69 | the part 2 total succeeds exactly when every line parses, and is at most the number of lines |
| Assignments.TotalsOrdered | rust/src/d4/mod.rs:61-69 | on any input, the part 1 total is at most the part 2 total |
| Assignments.ExampleCounts | rust/src/d4/mod.rs:145-171 | the six example pairs: two contained, four overlapping |
| CrateStacks.LineTypeOrder | rust/src/d5/mod.rs:54-65 | `LineTypeOf` (get_input_line_type) tests in order: an empty line, then a line holding '[', then one holding "move"; every other line is a stack-id line |
| CrateStacks.ExampleLineTypes | rust/src/d5/mod.rs:205-215 | the line kinds of the test cases |
| CrateStacks.StackCount | rust/src/d5/mod.rs:36-44 | the stack count exists exactly when some line is a stack-id line; it is the length, spaces removed, of the first such line |
| CrateStacks.NumberOfStacks | rust/src/d5/mod.rs:36-44 | get_number_of_stacks' loop returns that count, and panics exactly when there is no stack-id line |
| CrateStacks.PushRow | rust/src/d5/mod.rs:16-28 | one crate row pushes, onto each stack i+1, the crate the row shows at column 4i+1 (nothing for a space or a short row), and adds no stack |
| CrateStacks.ReadColumns | rust/src/d5/mod.rs:8-29 | the loops over the crate rows give each stack its column, read top to bottom |
| CrateStacks.InitialStackCrates | rust/src/d5/mod.rs:8-34 | after the reversal, stack k holds exactly the crates of its column, and its first (bottom) crate is the one in the lowest crate row |
| CrateStacks.InitialStacksAt | rust/src/d5/mod.rs:8-34 | every stack 1..n exists and holds its column reversed |
| CrateStacks.InitialStacksAre | rust/src/d5/mod.rs:8-34 | stacks exactly 1..n, each holding its column reversed, are the initial stacks |
| CrateStacks.StackCountAfter | rust/src/d5/mod.rs:36-44 | lines that are not stack-id lines, placed in front, leave the stack count unchanged |
| CrateStacks.ColumnAfterRows | rust/src/d5/mod.rs:8-34 | lines that are not crate rows add no crate to any stack |
| CrateStacks.ExampleStackCount | rust/src/d5/mod.rs:188-203 | the test text of test_get_number_of_stacks has 3 stacks |
| CrateStacks.ExampleInitialStacks | rust/src/d5/mod.rs:164-186 | the test text of test_initialize_stacks gives stacks 1: Z N, 2: M C D, 3: P |
| CrateStacks.InitializeStacks | rust/src/d5/mod.rs:8-34 | initialize_stacks_from_input builds stacks 1..n from the columns, reversed, and fails exactly when get_number_of_stacks panics |
| CrateStacks.MatchAt | rust/src/d5/mod.rs:85 | the regex `move (\d+) from (\d+) to (\d+)` matched at a position captures three non-empty digit runs |
| CrateStacks.FindMove | rust/src/d5/mod.rs:85-87 | `captures` finds the leftmost match, and its captures are non-empty digit runs |
| CrateStacks.ParseMove | rust/src/d5/mod.rs:84-93 | get_move_instruction_from_line reads the count, source and target in capture order 1, 2 and 3; a result has usize-sized numbers |
| CrateStacks.TagDigits | rust/src/d5/mod.rs:85 | a fixed word followed by a digit run: the run is non-empty and all digits |
| CrateStacks.TagDigitsText | rust/src/d5/mod.rs:85 | a word, a digit run and a non-digit rest read back to the run and the rest |
| CrateStacks.MatchAtText | rust/src/d5/mod.rs:85-87 | the regex matches the text of any instruction and captures its three numbers |
| CrateStacks.ParseMoveText | rust/src/d5/mod.rs:84-93 | every instruction whose numbers fit in a usize is read back from its text |
| CrateStacks.ExampleParseMoves | rust/src/d5/mod.rs:255-261 | the two instruction lines of the test |
| CrateStacks.Moved9000 | rust/src/d5/mod.rs:95-105 | the CrateMover 9000 moves the top `count` crates one at a time, so they land reversed; the other stacks are unchanged; it panics exactly when a stack is missing or the source runs empty; moving onto the source itself changes nothing |
| CrateStacks.Moved9001 | rust/src/d5/mod.rs:107-119 | the CrateMover 9001 moves the top `count` crates in their order; the other stacks are unchanged; it panics exactly when the target is missing or the source lacks crates |
| CrateStacks.SingleCrateAgrees | rust/src/d5/mod.rs:95-119 | for a single crate the two cranes give the same result |
| CrateStacks.TransferConserves | rust/src/d5/mod.rs:95-119 | taking the top crates off one stack and putting a permutation of them onto another keeps every crate |
| CrateStacks.MoversConserve | rust/src/d5/mod.rs:95-119 | a successful move by either crane keeps the number of crates of each label |
| CrateStacks.Apply9000 | rust/src/d5/mod.rs:95-105 | the pop-and-push loop computes the 9000 move, and panics exactly when it does |
| CrateStacks.MoveOneByOne | rust/src/d5/mod.rs:95-105 | the loop of single pops and pushes succeeds exactly when the 9000 move does, and then gives the stacks after `count` single moves |
| CrateStacks.After9000Moved | rust/src/d5/mod.rs:95-105 | `count` single moves are the 9000 move |
| CrateStacks.Apply9001 | rust/src/d5/mod.rs:107-119 | the pop-into-buffer loop, the reverse and the append compute the 9001 move, and panic exactly when it does |
| CrateStacks.PopCrates | rust/src/d5/mod.rs:107-114 | popping into the buffer succeeds exactly when the source holds enough crates, keeping the set of stacks |
| CrateStacks.Popped9001Moved | rust/src/d5/mod.rs:107-119 | the popped stacks with the reversed buffer appended to the target are the 9001 move |
| CrateStacks.Moved | rust/src/d5/mod.rs:121-127 | apply_move_instruction leaves the set of stack ids unchanged |
| CrateStacks.Rearranged | rust/src/d5/mod.rs:131-136 | applying every move line in order leaves the set of stack ids unchanged |
| CrateStacks.RearrangedConserves | rust/src/d5/mod.rs:131-136 | the whole rearrangement keeps the number of crates of each label |
| CrateStacks.Rearrange | rust/src/d5/mod.rs:131-136 | the loop over the move lines computes the rearrangement, and panics exactly when a line's move does |
| CrateStacks.Tops | rust/src/d5/mod.rs:137-141 | the output holds one character per stack, the top crate of each stack, and panics exactly when a stack is missing or empty |
| CrateStacks.TopCrates | rust/src/d5/mod.rs:137-141 | the output loop computes those tops for stacks 1..len |
| CrateStacks.RunScenario | rust/src/d5/mod.rs:129-157 | run_scenario_cratemover9000/9001 compute the tops after the rearrangement, and fail exactly when some step panics |
| CrateStacks.TransferIs | rust/src/d5/mod.rs:95-119 | the stacks after a transfer are determined by the new source and target |
| CrateStacks.ExampleMove1 | rust/src/d5/mod.rs:263-282 | the 9000 test moving one crate from stack 2 to 1, which gives the same result for the 9001 |
| CrateStacks.ExampleMove2 | rust/src/d5/mod.rs:284-324 | three crates moved from stack 1 to 3 land reversed with the 9000 and in order with the 9001 |
| CrateStacks.Example9000Rest | rust/src/d5/mod.rs:217-234 | the example's last two instructions with the CrateMover 9000 |
| CrateStacks.Example9001Rest | rust/src/d5/mod.rs:236-253 | the example's last two instructions with the CrateMover 9001 |
| CrateStacks.ExampleTops | rust/src/d5/mod.rs:217-253 | the final tops: "CMZ" for the 9000 and "MCD" for the 9001 |
| Marker.Window | rust/src/d6/mod.rs:5 | the slice `input[i..i+n]` has `n` characters |
| Marker.MarkerUnique | rust/src/d6/mod.rs:3-11 | for a given width a datastream has at most one marker, the end of its first window of distinct characters |
| Marker.FindMarker | rust/src/d6/mod.rs:3-11 | find_marker returns the position just after the first window of `n` distinct characters; it panics (a slice past the end, or the `panic!` after the loop) only when no window in the stream is distinct |
| Marker.PacketMarkerOfPrefix | rust/src/d6/mod.rs:19-25 | every stream starting "mjqjpqm" has its start-of-packet marker at 7 |
| Marker.PacketMarkerExample | rust/src/d6/mod.rs:19-25 | the first test stream has its start-of-packet marker at 7 |
| Trees.Matrix.constructor | rust/src/d8/mod.rs:9-11 | Matrix2D::new holds the given rows |
| Trees.Matrix.FromSize | rust/src/d8/mod.rs:13-23 | from_size's nested loops build the `size` by `size` matrix of zeros |
| Trees.Matrix.GetCol | rust/src/d8/mod.rs:29-35 | get_col takes element `i` of each of the first `data[0].len()` rows, and panics exactly when there are fewer rows than that or one of them has no element `i` |
| Trees.Matrix.Set | rust/src/d8/mod.rs:49-51 | set replaces one cell and nothing else |
| Trees.SetCellAt | rust/src/d8/mod.rs:49-51 | replacing a cell keeps the shape, changes that cell and keeps every other one |
| Trees.RowHeights | rust/src/d8/mod.rs:73-76 | `to_digit(10).unwrap()` over a line succeeds exactly when every character is a digit, and gives each digit's value |
| Trees.InitMatrix | rust/src/d8/mod.rs:69-80 | init_matrix gives one row of heights per line, and panics exactly when some line holds a non-digit |
| Trees.HeightsOfText | rust/src/d8/mod.rs:69-80 | reading the text of any non-empty grid of single-digit heights gives back that grid |
| Trees.ShorterBeforeMeans | rust/src/d8/mod.rs:190-201 | the recursive test "every tree before position z is shorter" means exactly that |
| Trees.ShorterFromMeans | rust/src/d8/mod.rs:202-212 | the recursive test "every tree from position z on is shorter" means exactly that |
| Trees.VisibleInLineMeans | rust/src/d8/mod.rs:186-215 | a tree is visible along its line exactly when it stands at an end, or every tree on one side of it is strictly shorter |
| Trees.IsVisibleInRow | rust/src/d8/mod.rs:186-215 | is_visible_in_row's two running-maximum scans decide exactly that visibility, although `max_index` is not reset between them |
| Trees.VisibilityCellMeans | rust/src/d8/mod.rs:82-102 | on a square grid every cell can be decided; its visibility is 0 or 1, and 1 exactly when the tree is on the border or strictly taller than every tree towards one of the four edges |
| Trees.SquareVisitable | rust/src/d8/mod.rs:82-102 | on a square grid get_visibility_matrix never indexes out of bounds |
| Trees.VisibilityRowAt | rust/src/d8/mod.rs:84-100 | a row of the copy after the loop keeps its length; its first `cols()` cells hold their visibility and any further cells keep their heights |
| Trees.EmptyLastRow | rust/src/d8/mod.rs:84-91 | an empty last row below a non-empty first row makes the loop index out of bounds on the border |
| Trees.TrailingLineFeed | rust/src/d8/mod.rs:69-102 | an input ending in a line feed has an empty last line, so get_visibility_matrix panics on it |
| Trees.BorderVisible | rust/src/d8/mod.rs:87-91 | when the loop completes, every border cell it visits is 1 |
| Trees.VisitCell | rust/src/d8/mod.rs:86-99 | the loop body decides one cell: it panics exactly when the cell is missing from its row or, when its row does not decide it, the column get_col reads is out of bounds or too short; otherwise it gives the cell's visibility |
| Trees.MarkRow | rust/src/d8/mod.rs:86-99 | the loop over one row panics exactly when one of its cells does; otherwise it writes that row of the visibility matrix; the other rows are left alone either way |
| Trees.VisibilityMatrix | rust/src/d8/mod.rs:82-102 | get_visibility_matrix panics exactly when init_matrix does or some visited cell cannot be decided; otherwise it returns the visibility matrix, where cells past the first row's length keep their heights |
| Trees.SumRow | rust/src/d8/mod.rs:217-225 | in a 0/1 matrix the sum of a row prefix counts its ones |
| Trees.SumRows | rust/src/d8/mod.rs:217-225 | in a 0/1 matrix the sum of the flattened first rows counts their ones |
| Trees.SumVisibility | rust/src/d8/mod.rs:217-225 | on a rectangular grid the loop completes on, the sum of the flattened visibility matrix is the number of visible trees |
| Trees.NumberOfVisibleTrees | rust/src/d8/mod.rs:217-225 | get_number_of_visible_trees succeeds exactly when the visibility matrix can be built, returns the sum of its flattened cells, and on a rectangular grid that is the number of trees visible from outside |
| Trees.LookBefore | rust/src/d8/mod.rs:142-151 | looking towards the start sees at most the trees that are there |
| Trees.LookFrom | rust/src/d8/mod.rs:143-151 | looking towards the end sees at most the trees that are there |
| Trees.LookBeforeMeans | rust/src/d8/mod.rs:142-151 | looking towards the start sees nothing only at the start; every tree passed is shorter, and the view ends at the edge or at the first tree at least as tall |
| Trees.LookFromMeans | rust/src/d8/mod.rs:143-151 | looking towards the end sees nothing only at the end; every tree passed is shorter, and the view ends at the edge or at the first tree at least as tall |
| Trees.DistanceBeforeMeans | rust/src/d8/mod.rs:139-152 | a tree's viewing distance towards the start reaches back to the edge or to the first tree at least as tall, and is 0 exactly at the edge |
| Trees.DistanceAfterMeans | rust/src/d8/mod.rs:139-152 | a tree's viewing distance towards the end reaches to the edge or to the first tree at least as tall, and is 0 exactly at the edge |
| Trees.ViewBefore | rust/src/d8/mod.rs:116-127 | the inner `zindexer` loop with its `break`, looking up or left, computes the viewing distance towards the start |
| Trees.ViewAfter | rust/src/d8/mod.rs:140-151 | the inner `zindexer` loop with its `break`, looking down or right, computes the viewing distance towards the end |
| Trees.SquareReadable | rust/src/d8/mod.rs:104-157 | a square grid can be read in every direction: get_col reads every column and every row fits the result |
| Trees.DistanceZero | rust/src/d8/mod.rs:104-157 | on a square grid every direction can be read, and a viewing distance is 0 exactly for a tree on the edge it faces |
| Trees.FillColumn | rust/src/d8/mod.rs:108-130 | one column's viewing distances are written into column `i`, as far down as the column reaches; looking up, the first tree keeps its zero; every other cell is unchanged |
| Trees.FillRow | rust/src/d8/mod.rs:132-154 | `set` stays in bounds exactly when the row is no longer than the result's side; then the row's viewing distances are written into row `i`; every other row is unchanged |
| Trees.FillColumns | rust/src/d8/mod.rs:107-130 | the up and down branch succeeds exactly when get_col can read every column the first row has, and then fills the viewing-distance grid |
| Trees.FillRows | rust/src/d8/mod.rs:131-155 | the left and right branch succeeds exactly when no row is longer than the number of rows, and then fills the viewing-distance grid |
| Trees.ViewingDistanceMatrix | rust/src/d8/mod.rs:104-157 | get_viewing_distance_matrix panics exactly when its branch reads or writes out of bounds; otherwise it returns the rows-by-rows grid of viewing distances in the chosen direction, 0 where no loop writes |
| Trees.MulZero | rust/src/d8/mod.rs:168 | a product is 0 exactly when a factor is 0 |
| Trees.ScenicZero | rust/src/d8/mod.rs:159-174 | on a square grid every distance matrix can be built, and a scenic score is 0 exactly on the border |
| Trees.ScoreRow | rust/src/d8/mod.rs:167-171 | one row of the scoring loop writes that row's scenic scores and leaves the other rows alone |
| Trees.ScenicScore | rust/src/d8/mod.rs:159-174 | get_scenic_score panics exactly when one of the four distance matrices does; otherwise every cell gets the product of its four viewing distances |
| Trees.FlattenMember | rust/src/d8/mod.rs:178 | every value of the flattened rows is a cell of the grid |
| Trees.MaxOfScenicGrid | rust/src/d8/mod.rs:176-179 | the flattened scenic grid is never empty, and its maximum is the best scenic score |
| Trees.MaxScenicScore | rust/src/d8/mod.rs:176-179 | get_max_scenic_score panics exactly when get_scenic_score does; otherwise it returns the scenic score of some tree, and no tree scores more |
| Trees.ScenicScoreFromString | rust/src/d8/mod.rs:181-184 | get_scenic_score_from_string panics exactly when init_matrix or a distance matrix does; otherwise it returns the best scenic score of the heights |
| TreesExamples.ExampleVisibleInRow | rust/src/d8/mod.rs:321-339 | the visibility of every position in the two rows of test_is_visible_in_row |
| TreesExamples.ExampleColumns | rust/src/d8/mod.rs:285-301 | the columns of the example grid, the two the test reads among them |
| TreesExamples.ExampleInitMatrix | rust/src/d8/mod.rs:253-269 | the five example lines read as the example grid |
| TreesExamples.ExampleUpDistances | rust/src/d8/mod.rs:341-363 | the example's viewing distances looking up |
| TreesExamples.ExampleDownDistances | rust/src/d8/mod.rs:364-386 | the example's viewing distances looking down |
| TreesExamples.ExampleLeftDistances | rust/src/d8/mod.rs:387-409 | the example's viewing distances looking left |
| TreesExamples.ExampleRightDistances | rust/src/d8/mod.rs:410-432 | the example's viewing distances looking right |
| TreesExamples.ExampleVisibility | rust/src/d8/mod.rs:303-319 | the example's visibility matrix |
| TreesExamples.ExampleVisibleCount | rust/src/d8/mod.rs:241-251 | the example has 21 visible trees |
| TreesExamples.ExampleScenic | rust/src/d8/mod.rs:433-455 | the example's scenic-score matrix |
| TreesExamples.ExampleMaxScenic | rust/src/d8/mod.rs:456-480 | the example's best scenic score is 8 |
| TreesExamples.TallVisibility | rust/src/d8/mod.rs:82-102 | on the 3 by 2 grid 12/34/56 every cell can be decided and every cell is visible |
| TreesExamples.ExampleTallGrid | rust/src/d8/mod.rs:217-225 | the text "12\n34\n56", with more rows than columns, has 6 visible trees |
| Rope.DoMove | rust/src/d9/mod.rs:27-37 | do_move moves one square, and panics exactly on a direction other than R, L, U and D |
| Rope.MotionBy | rust/src/d9/mod.rs:16-24 | motion applies the whole size at once, and panics exactly on an unknown direction |
| Rope.MotionOfLine | rust/src/d9/mod.rs:13-25 | `Motion` of a line "dir size", for any direction without a space and any i32 size, is the motion by that size |
| Rope.MotionIsRepeatedMoves | rust/src/d9/mod.rs:13-37 | a motion by a non-negative size is that many unit moves |
| Rope.Follow | rust/src/d9/mod.rs:39-54 | follow moves a knot at most one square in each axis, and not at all while it touches its leader |
| Rope.FollowCatchesUp | rust/src/d9/mod.rs:39-54 | a leader at most two away in each axis is caught up with: afterwards the knot touches it, having moved towards it in each axis |
| Rope.FollowFarInOneAxis | rust/src/d9/mod.rs:42-46 | three away in one axis only, the diagonal step also moves the knot in the other axis, where the difference is 0 |
| Rope.ExampleFollows | rust/src/d9/mod.rs:129-151 | the twelve straight and diagonal follow cases of the tests |
| Rope.ExampleMoves | rust/src/d9/mod.rs:118-127 | the four unit moves of the tests |
| Rope.Drag | rust/src/d9/mod.rs:92-95 | the inner loop gives one new position per following knot |
| Rope.DragIndex | rust/src/d9/mod.rs:92-95 | knot i follows knot i-1 after that knot has already moved |
| Rope.StepRope | rust/src/d9/mod.rs:90-96 | one unit step keeps the number of knots |
| Rope.DragConnected | rust/src/d9/mod.rs:92-95 | when the leader of a connected rope moves at most one square in each axis, the dragged rope is connected again |
| Rope.StepKeepsConnected | rust/src/d9/mod.rs:90-96 | a unit step keeps every knot touching the knot before it |
| Rope.Steps | rust/src/d9/mod.rs:69-73 | `n` unit steps keep the number of knots and only add visited cells |
| Rope.Run | rust/src/d9/mod.rs:66-74 | running every line keeps the number of knots and only adds visited cells |
| Rope.StepsKeepConnected | rust/src/d9/mod.rs:69-73 | a connected rope stays connected over a line's steps |
| Rope.RunKeepsConnected | rust/src/d9/mod.rs:87-98 | a rope that starts connected is connected after every line |
| Rope.StartConnected | rust/src/d9/mod.rs:79-83 | knots that all start at the origin are connected |
| Rope.ShortSteps | rust/src/d9/mod.rs:69-73 | the inner loop of short_rope computes the line's steps for the two knots, and panics exactly when a move does |
| Rope.ShortRope | rust/src/d9/mod.rs:61-76 | short_rope returns the cells the tail visits over every line, and panics exactly when a line has no size, a size that is not an i32, or an unknown direction with a positive size (with a size of 0 or less `do_move` is never called, so an unknown direction does not panic) |
| Rope.PullRope | rust/src/d9/mod.rs:91-95 | the head moved in place, then each knot in turn follows the one before it |
| Rope.LongSteps | rust/src/d9/mod.rs:90-97 | the inner loop of long_rope computes the line's steps in place in the knot array |
| Rope.LongRopeLines | rust/src/d9/mod.rs:87-98 | the loop over the lines, on the knot array, computes the run of every line |
| Rope.LongRope | rust/src/d9/mod.rs:78-100 | long_rope returns the cells the last of ten knots visits, and panics in the same cases as short_rope |
| Rope.ShortRopeUniqueLocations | rust/src/d9/mod.rs:102-105 | the number of distinct cells the tail of two knots visits |
| Rope.LongRopeUniqueLocations | rust/src/d9/mod.rs:107-110 | the number of distinct cells the tail of ten knots visits |
| Cpu.ParseInstruction | rust/src/d10/mod.rs:6-17 | a line shorter than four characters panics on the slice `line[0..4]` |
| Cpu.ExampleInstructions | rust/src/d10/mod.rs:7-16 | "noop", "addx 3" and "addx -5" parse to noop, addx 3 and addx -5 |
| Cpu.Trace | rust/src/d10/mod.rs:3-19 | the trace is never empty; it starts with the register's initial 1 |
| Cpu.TraceShape | rust/src/d10/mod.rs:3-19 | the trace holds 1 + (number of noops) + 2 × (number of addx) entries, and its last entry is 1 plus the sum of every addx argument |
| Cpu.TraceExtends | rust/src/d10/mod.rs:9-15 | running more instructions only extends the trace: its earlier entries never change |
| Cpu.TraceSnoc | rust/src/d10/mod.rs:7-16 | one more instruction appends its `Effect`: one copy of the register for noop; the register, then the register plus v, for addx |
| Cpu.Instructions | rust/src/d10/mod.rs:6 | there is one instruction per line |
| Cpu.InstructionsSnoc | rust/src/d10/mod.rs:6 | one more parsing line adds its instruction at the end |
| Cpu.RunStep | rust/src/d10/mod.rs:6-17 | one pass of the loop body extends the trace of the lines so far by the next line's values |
| Cpu.RunLine | rust/src/d10/mod.rs:6-17 | one line's pushes onto `x`: they fail exactly when the line does not parse, and otherwise append the instruction's `Effect` |
| Cpu.RunLines | rust/src/d10/mod.rs:4-18 | the loop pushing onto `x` computes the trace of the lines, and panics exactly when some line does not parse |
| Cpu.Program | rust/src/d10/mod.rs:3-19 | program returns the trace of the input's lines, and panics exactly when some line does not parse |
| Cpu.ExampleTrace | rust/src/d10/mod.rs:56-72 | "noop, addx 3, addx -5" gives the trace [1, 1, 1, 4, 4, -1] |
| Cpu.StrengthSumPermutation | rust/src/d10/mod.rs:38-42 | the strength sum is the same in every order of the cycles, so the HashSet's iteration order does not matter |
| Cpu.StrengthSumStep | rust/src/d10/mod.rs:40-42 | summing from cycle i adds cycle i's strength to the sum of the cycles after it |
| Cpu.TotalSignalStrength | rust/src/d10/mod.rs:36-44 | total_signal_strength is the sum of x[k-1]·k over k in {20, 60, 100, 140, 180, 220}; it panics exactly when a line does not parse or the trace has fewer than 220 entries |
| Monkeys.Number | rust/src/d11/mod.rs:34 | a number read as a u64 is below 2^64 and consumes input |
| Monkeys.TagNumber | rust/src/d11/mod.rs:55-56 | a tag followed by a u64: the value is below 2^64 and input is consumed |
| Monkeys.LineEnding | rust/src/d11/mod.rs:58 | a line ending, when present, is consumed |
| Monkeys.TakeUntilNewline | rust/src/d11/mod.rs:57 | the rest of the header line is skipped and the remainder starts at its line feed |
| Monkeys.ParseTest | rust/src/d11/mod.rs:29-38 | a parsed test's divisor is a u64 and input is consumed |
| Monkeys.ParseItem | rust/src/d11/mod.rs:121-127 | a parsed item's worry level is a u64 and input is consumed |
| Monkeys.MoreItems | rust/src/d11/mod.rs:61 | the items after the first, each below 2^64, never lengthening the input |
| Monkeys.ParseItems | rust/src/d11/mod.rs:61 | `separated_list1` yields at least one item, each a u64, and consumes input |
| Monkeys.ParseOperation | rust/src/d11/mod.rs:65-82 | a parsed addition or multiplication has a u64 operand and input is consumed |
| Monkeys.ParseTargets | rust/src/d11/mod.rs:140-157 | both parsed target indices are u64 values and input is consumed |
| Monkeys.ParseMonkey | rust/src/d11/mod.rs:48-97 | a parsed monkey has at least one item, u64 numbers throughout and nothing inspected, and input is consumed |
| Monkeys.ParseMonkeyAt | rust/src/d11/mod.rs:48-97 | a monkey read after any leading white space is well formed and consumes input |
| Monkeys.ParseMonkeyBody | rust/src/d11/mod.rs:57-97 | the lines after the header give a well-formed monkey with the header's number |
| Monkeys.ParseMonkeys | rust/src/d11/mod.rs:159-162 | every monkey `many0` collects is such a well-formed monkey |
| Monkeys.ParseTestText | rust/src/d11/mod.rs:29-38 | the test line of any divisor parses back to that divisor, with or without a leading line feed |
| Monkeys.ParseTargetsText | rust/src/d11/mod.rs:140-157 | the two target lines of any pair of targets parse back to that pair |
| Monkeys.ParseItemsText | rust/src/d11/mod.rs:61 | any non-empty list of u64 items written with ", " parses back to the same list |
| Monkeys.ParseOperationText | rust/src/d11/mod.rs:65-82 | any operation written out parses back to itself |
| Monkeys.ParseSquare | rust/src/d11/mod.rs:78-81 | "* old" is read as squaring: the `* <digits>` branch fails on it and the third branch applies |
| Monkeys.ParseMonkeyText | rust/src/d11/mod.rs:48-97 | the text of any well-formed monkey parses back to that monkey, also after a blank line |
| Monkeys.ParseMonkeysText | rust/src/d11/mod.rs:159-162 | the blank-line-separated text of any non-empty list of monkeys parses back to the list |
| Monkeys.ValidDivisors | rust/src/d11/mod.rs:228-233 | in a runnable configuration every divisor is at least 1 |
| Monkeys.SameConfigValid | rust/src/d11/mod.rs:214-250 | runnability depends only on operations, tests and targets, never on items or counts |
| Monkeys.ModulusPositive | rust/src/d11/mod.rs:211-213 | the product of the divisors is at least 1 |
| Monkeys.ModulusMultiple | rust/src/d11/mod.rs:211-213 | the product of the divisors is a multiple of every monkey's divisor |
| Monkeys.ReductionKeepsRemainders | rust/src/d11/mod.rs:190-213 | reducing a worry level modulo the product leaves its remainder by every divisor unchanged |
| Monkeys.RoutingUnchanged | rust/src/d11/mod.rs:224-238 | with worry divisor 1, `Dest` sends the reduced level `NewWorry` to the same monkey as the unreduced level |
| Monkeys.Worries | rust/src/d11/mod.rs:224-229 | one new worry level per item held |
| Monkeys.SentAppend | rust/src/d11/mod.rs:238 | the items a turn sends to a monkey split over consecutive stretches of the queue |
| Monkeys.SentMembers | rust/src/d11/mod.rs:230-238 | a monkey receives exactly the new levels whose test (`Dest`) routes them to it |
| Monkeys.Partial | rust/src/d11/mod.rs:214-238 | part-way through monkey i's turn, after k throws, its queue holds its items from k on and its operation, test and targets are unchanged |
| Monkeys.PartialConfig | rust/src/d11/mod.rs:214-238 | part-way through a turn, every monkey's operation, test and targets are unchanged |
| Monkeys.PartialNext | rust/src/d11/mod.rs:221-238 | the (k+1)-th throw of a turn is `Throw` applied to the state after k throws |
| Monkeys.ThrowConfig | rust/src/d11/mod.rs:221-238 | `Throw`, one item popped, given its `NewWorry` level and pushed to its `Dest`, changes no operation, test or target |
| Monkeys.PartialThrows | rust/src/d11/mod.rs:215-238 | `Partial`, the declared state k throws into a turn, is the state reached by counting the queue and then throwing k items one at a time (`AfterThrows`) |
| Monkeys.Turn | rust/src/d11/mod.rs:214-250 | a turn leaves operations, tests and targets unchanged |
| Monkeys.Turns | rust/src/d11/mod.rs:214 | the first n turns keep the number of monkeys and their runnability (`Valid`); that they leave operations, tests and targets unchanged is `TurnsConfig` |
| Monkeys.TurnsConfig | rust/src/d11/mod.rs:214-250 | the first n turns keep every monkey's operation, test and targets |
| Monkeys.SameConfigTrans | rust/src/d11/mod.rs:214-250 | keeping the configuration composes over successive steps |
| Monkeys.RoundOf | rust/src/d11/mod.rs:189-251 | a round keeps the number of monkeys and their runnability; that it leaves operations, tests and targets unchanged is `RoundConfig` |
| Monkeys.RoundConfig | rust/src/d11/mod.rs:189-251 | a round keeps every monkey's operation, test and targets |
| Monkeys.AfterThrowsStep | rust/src/d11/mod.rs:221-238 | throwing the front item moves the in-place turn one item further |
| Monkeys.ThrowFront | rust/src/d11/mod.rs:221-238 | pops the front item and appends its new level to its destination's queue |
| Monkeys.TakeTurn | rust/src/d11/mod.rs:215-249 | the in-place turn: adds the queue length to the count, then throws every item |
| Monkeys.AfterThrowsStart | rust/src/d11/mod.rs:215-220 | before any throw only the count of the monkey taking its turn changes, growing by its queue length |
| Monkeys.Round | rust/src/d11/mod.rs:189-251 | the in-place round computes the product of the divisors and takes every monkey's turn in order |
| Monkeys.Counts | rust/src/d11/mod.rs:214-250 | one queue length per monkey, the terms of the item total that rounds keep |
| Monkeys.ThrowConserves | rust/src/d11/mod.rs:221-238 | a throw neither creates nor loses items |
| Monkeys.PartialConserves | rust/src/d11/mod.rs:221-249 | part of a turn keeps the total number of items |
| Monkeys.TurnsConserve | rust/src/d11/mod.rs:214-250 | any number of turns keeps the total number of items |
| Monkeys.TurnConserves | rust/src/d11/mod.rs:214-250 | a turn keeps the total number of items |
| Monkeys.RoundConserves | rust/src/d11/mod.rs:189-251 | a round keeps the total number of items |
| Monkeys.TurnInspections | rust/src/d11/mod.rs:219-221 | a turn adds the monkey's queue length to its own count, changes no other count and empties its queue |
| Monkeys.TurnsInspections | rust/src/d11/mod.rs:214-221 | after the first n turns, monkey i's count has grown by the size of its queue at its turn exactly when i < n |
| Monkeys.TurnsZero | rust/src/d11/mod.rs:214 | no turns leave the monkeys as they are |
| Monkeys.TurnsStep | rust/src/d11/mod.rs:214-250 | one more turn keeps the total number of items |
| Monkeys.TurnsStepOther | rust/src/d11/mod.rs:214-221 | one more turn leaves every other monkey's count alone |
| Monkeys.TurnsStepOwn | rust/src/d11/mod.rs:214-221 | the monkey taking its turn adds its queue length to its count and empties its queue |
| Monkeys.TurnsUntouched | rust/src/d11/mod.rs:214-221 | turns of other monkeys never change a monkey's count |
| Monkeys.TurnsKeepInspected | rust/src/d11/mod.rs:214-221 | a monkey whose turn has not come keeps its count |
| Monkeys.TurnsGainInspected | rust/src/d11/mod.rs:214-221 | once its turn is over, a monkey's count has grown by the queue it held when its turn began |
| Monkeys.TurnsOwnTotal | rust/src/d11/mod.rs:214-221 | a monkey's own turn adds the queue it held when the turn began |
| Monkeys.RoundInspections | rust/src/d11/mod.rs:189-251 | in a round each monkey's count grows by the queue it holds at its turn, and that queue ends empty |
| Monkeys.Simulate | rust/src/d11/mod.rs:174-178 | repeated rounds keep the number of monkeys and their runnability; that they keep the configuration is `SimulateConfig` |
| Monkeys.SimulateConfig | rust/src/d11/mod.rs:174-178 | any number of rounds keeps every monkey's operation, test and targets |
| Monkeys.SimulateConserves | rust/src/d11/mod.rs:174-178 | any number of rounds keeps the total number of items |
| Monkeys.Inspections | rust/src/d11/mod.rs:179-182 | one inspection count per monkey |
| Monkeys.MonkeyBusinessTopTwo | rust/src/d11/mod.rs:179-186 | monkey business is the product of the largest count and the largest of the rest |
| Monkeys.RunRounds | rust/src/d11/mod.rs:174-178 | the loop of rounds leaves the monkeys as the specified number of rounds does |
| Monkeys.RunAndScore | rust/src/d11/mod.rs:174-187 | the rounds then the top-two product succeed exactly with at least two monkeys, giving the monkey business after the rounds |
| Monkeys.SimulateParsed | rust/src/d11/mod.rs:170-187 | on parsed monkeys: succeeds exactly on a runnable configuration of at least two monkeys with a positive worry divisor, and returns the monkey business after the rounds |
| Monkeys.Simulation | rust/src/d11/mod.rs:170-187 | succeeds exactly on a runnable configuration of at least two monkeys, with the monkey business after the rounds |
| Monkeys.Part1 | rust/src/d11/mod.rs:253-255 | the simulation with 20 rounds and divisor 3 |
| Monkeys.Part2 | rust/src/d11/mod.rs:256-258 | the simulation with 10000 rounds and divisor 1 |
| MonkeysExamples.ExampleTest | rust/src/d11/mod.rs:292-297 | "Test: divisible by 3" parses to a test by 3 |
| MonkeysExamples.ExampleTargets | rust/src/d11/mod.rs:299-308 | the two target lines parse to targets 2 and 3 |
| MonkeysExamples.ExampleMonkey | rust/src/d11/mod.rs:311-332 | the single-monkey example parses to the monkey the test expects |
| MonkeysExamples.ExampleMonkeys | rust/src/d11/mod.rs:334-392 | the four-monkey example parses to the four monkeys the test expects |
| MonkeysExamples.ExampleValid | rust/src/d11/mod.rs:334-392 | the example is runnable with divisors 3 and 1, and its divisor product is 96577 |
| MonkeysExamples.ExampleFits | rust/src/d11/mod.rs:311-392 | the expected example monkeys are well formed |
| MonkeysExamples.ExampleText | rust/src/d11/mod.rs:334-392 | the example's lines are the written form of the four expected monkeys |
| Elevation.NodeEdgesHas | rust/src/d12/mod.rs:28-48 | `NodeEdges`, a node's edges, are exactly the edges from that node to a candidate target below rows·cols whose height is at most one above its own, each of weight 1 |
| Elevation.SquareHeights | rust/src/d12/mod.rs:24-26 | `SourceHeight` and `TargetHeight`: a letter is its own height, 'S' is 'a' both ways, 'E' is 'z' only as a target, so only squares of height 'y' or more reach 'E' |
| Elevation.NodeEdgesStep | rust/src/d12/mod.rs:35-48 | the directions are tried in order: each contributes its edge or is skipped |
| Elevation.EdgesFollowRule | rust/src/d12/mod.rs:19-50 | the edges of the first k nodes are exactly the edges the climbing rule allows from those nodes |
| Elevation.AddNodes | rust/src/d12/mod.rs:8-18 | the nodes are the grid's characters row after row; rows counts the lines and cols is the last line's length |
| Elevation.AddNodeEdges | rust/src/d12/mod.rs:21-48 | looking up a neighbour fails exactly when an in-range index is not a node; otherwise the node's allowed edges are appended |
| Elevation.CreateGraph | rust/src/d12/mod.rs:7-52 | create_graph panics exactly when some neighbour index inside rows·cols is not a node; otherwise it has the grid's nodes and exactly the allowed edges |
| Elevation.GraphOfLines | rust/src/d12/mod.rs:7-52 | the same graph built from the lines |
| Elevation.FirstIndex | rust/src/d12/mod.rs:91-116 | the index of the first occurrence of a character in the grid, and an error exactly when it is absent |
| Elevation.StartIndex | rust/src/d12/mod.rs:91-103 | get_start_nodeindex finds the first 'S' and panics exactly when there is none |
| Elevation.EndIndex | rust/src/d12/mod.rs:105-116 | get_end_nodeindex finds the first 'E' and panics exactly when there is none |
| Elevation.FirstUnique | rust/src/d12/mod.rs:91-116 | the first occurrence is unique |
| Elevation.HikingStarts | rust/src/d12/mod.rs:63-76 | exactly the indices of 'a' and 'S' squares, in increasing order |
| Elevation.MinDistance | rust/src/d12/mod.rs:82-88 | the least distance over the starts, 9999 standing for unreachable, never above 9999 and attained by some start unless it is 9999 |
| Elevation.ShortestPath | rust/src/d12/mod.rs:54-61 | whenever the graph builds and both squares exist, its start and end are the first 'S' and the first 'E'; it returns the distance between them, and panics exactly when the graph cannot be built, either square is missing or the end is unreachable from the start |
| Elevation.HikingTrailShortestPath | rust/src/d12/mod.rs:78-89 | the least distance to 'E' over all 'a' and 'S' squares, capped at 9999; panics exactly when the graph cannot be built or there is no 'E' |
| Elevation.RectangularFits | rust/src/d12/mod.rs:7-52 | a rectangular grid never makes create_graph panic |
| Elevation.RightNeighbourWraps | rust/src/d12/mod.rs:28-33 | the right neighbour of the last square of a row is the first square of the next row, and the edge is added if the climb allows it |
| Packets.Size | python/d13/main.py:19-47 | every packet has a positive size, the measure the comparison's recursion decreases |
| Packets.CompareFromStep | python/d13/main.py:31-34 | the list comparison returns the first decided verdict among the paired items, else moves on |
| Packets.WrapLeft | python/d13/main.py:44-45 | an integer against a list compares as the singleton list holding it |
| Packets.WrapRight | python/d13/main.py:46-47 | a list against an integer compares as against the singleton list holding it |
| Packets.CompareSelf | python/d13/main.py:19-47 | `Compare` of a packet with itself decides nothing |
| Packets.CompareFromSelf | python/d13/main.py:30-41 | `CompareFrom`, the list comparison, of a list with itself from any position decides nothing |
| Packets.CompareFlip | python/d13/main.py:19-47 | swapping the two sides of `Compare` negates the verdict: right order one way is wrong order the other |
| Packets.CompareFromFlip | python/d13/main.py:30-41 | swapping two lists negates the verdict of comparing them from any position |
| Packets.ViaLists | python/d13/main.py:19-47 | every comparison is a list comparison once integers are wrapped into singleton lists |
| Packets.Transitive | python/d13/main.py:19-47 | "not in the wrong order" is transitive, and the verdict of a chain is the first decided step |
| Packets.TransitiveFrom | python/d13/main.py:30-41 | the same transitivity for list comparisons from any position |
| Packets.Comparator | python/d13/main.py:59-68 | custom_comparator is -1 exactly on the right order, 1 exactly on the wrong order and 0 when undecided |
| Packets.ComparatorOrders | python/d13/main.py:59-68 | the comparator is reflexive, antisymmetric and transitive in both its order and its ties, so it is a total preorder sort may use |
| Packets.ParseNatural | python/d13/main.py:15-16 | a JSON digit string, when read, is consumed |
| Packets.ParseNumber | python/d13/main.py:15-16 | a JSON integer with optional minus sign, when read, is consumed |
| Packets.SkipWhite | python/d13/main.py:15-16 | skipping JSON whitespace never lengthens the input |
| Packets.ParseValue | python/d13/main.py:15-16 | a JSON value, when read, consumes input |
| Packets.ParseArray | python/d13/main.py:15-16 | a JSON array, when read, consumes input |
| Packets.ParseItems | python/d13/main.py:15-16 | the elements of a non-empty JSON array, at least one, consume input |
| Packets.ParseNaturalOfString | python/d13/main.py:15-16 | any natural number written in decimal reads back to itself |
| Packets.ParseNumberOfString | python/d13/main.py:15-16 | any integer written in decimal reads back to itself |
| Packets.ParseNegativeOfString | python/d13/main.py:15-16 | a minus sign followed by any natural number reads back to its negation |
| Packets.ParseRender | python/d13/main.py:15-16 | the compact JSON text of any packet reads back to that packet |
| Packets.ParseItemsRender | python/d13/main.py:15-16 | the elements of any non-empty list, written with commas, read back to the list |
| Packets.ParseLineRender | python/d13/main.py:15-16 | json.loads of any packet's JSON text gives the packet back |
| Packets.SplitBlocks | python/d13/main.py:6 | `split("\n\n")`: blocks that contain no blank line and rejoin to the input |
| Packets.PairLines | python/d13/main.py:5-7 | one tuple of lines per block, each rejoining to its block |
| Packets.ParsePairsMeans | python/d13/main.py:50-54 | `ParsePairs` succeeds exactly when every block has two lines that json.loads accepts, giving one pair per block, those packets in order |
| Packets.TriangleClosed | python/d13/main.py:56 | 1 + 2 + … + n is n(n+1)/2 |
| Packets.IndexSumPartition | python/d13/main.py:56 | the index sums over right order, wrong order and undecided pairs add up to 1 + … + n |
| Packets.SumIndicesCorrectOrder | python/d13/main.py:50-56 | defined exactly when the pairs parse, and then at most 1 + … + n for n pairs |
| Packets.IndexSumNegate | python/d13/main.py:56 | negated verdicts move the right-order sum to the wrong-order sum and keep the undecided one |
| Packets.SwapPairs | python/d13/main.py:50-56 | swapping every pair turns the sum of right-order indices into the sum of wrong-order ones |
| Packets.ParseLines | python/d13/main.py:10-12 | defined exactly when every non-empty line parses; blank lines are dropped |
| Packets.ParseLinesRender | python/d13/main.py:10-12 | any packets written one per line, with any blank lines between, read back to the same packets |
| Packets.InsertPacket | python/d13/main.py:76 | inserting adds the packet and keeps every other |
| Packets.InsertSorted | python/d13/main.py:76 | inserting into a sorted list keeps it sorted |
| Packets.SortPackets | python/d13/main.py:76 | the sort gives a permutation of the packets sorted by the comparator |
| Packets.SortPacketsWithDividers | python/d13/main.py:71-78 | the packets plus [[2]] and [[6]], sorted and permuted |
| Packets.IndexOf | python/d13/main.py:84 | `list.index`: the first position holding the packet, and none exactly when it is absent |
| Packets.CountAll | python/d13/main.py:84 | when every packet counts the same v against a divider, the count is v times their number |
| Packets.SortedPosition | python/d13/main.py:84 | in a sorted list where only the divider ties with itself, its first position is the number of packets before it |
| Packets.DecoderKey | python/d13/main.py:81-84 | parses exactly when every non-empty line is JSON; when no packet ties with a divider, the key is (1 + packets below [[2]])·(2 + packets below [[6]]) |
| Packets.DividerKey | python/d13/main.py:81-84 | the same key from the parsed packets |
| Packets.KeyOfSorted | python/d13/main.py:82-84 | any sorted arrangement holding both dividers has both indices and gives the counting formula |
| Packets.DividersPresent | python/d13/main.py:73-74 | after the appends both dividers are found by `index` |
| Packets.DividerPositions | python/d13/main.py:82-84 | the dividers sit after exactly the packets below them, [[6]] also after [[2]] |
| Packets.DividersInOrder | python/d13/main.py:73-76 | [[2]] is in the right order before [[6]], the wrong order after it, and each is undecided against itself |
| Packets.DividersDecideSorted | python/d13/main.py:73-76 | when no input packet ties with a divider, the divider ties only with itself in the full list |
| Packets.CountDividers | python/d13/main.py:73-74 | appending the two dividers leaves the count below [[2]] unchanged and adds one, for [[2]], to the count below [[6]] |
| PacketsExamples.TrailingComma | python/d13/main.py:15-16 | json.loads rejects "[1,]" |
| PacketsExamples.LeadingZero | python/d13/main.py:15-16 | json.loads rejects "[01]" |
| PacketsExamples.Negative | python/d13/main.py:15-16 | json.loads reads "-3" as the integer -3 |
| PacketsExamples.ExampleVerdicts | python/d13/main.py:19-47 | the eight example pairs get the verdicts of the puzzle's walk-through |
| PacketsExamples.ExampleIndexSum | python/d13/main.py:50-56 | the example's right-order indices sum to 13 |
| PacketsExamples.ExampleDividersDecide | python/d13/main.py:73-76 | no example packet ties with a divider |
| PacketsExamples.ExampleCounts | python/d13/main.py:81-84 | 9 example packets sort below [[2]] and 12 below [[6]] |
| PacketsExamples.ExampleDecoderKey | python/d13/main.py:81-84 | the example's decoder key is 140 |
| Cave.ParsePoint | rust/src/d14/mod.rs:55-66 | a point "x,y", when read, consumes input |
| Cave.MorePoints | rust/src/d14/mod.rs:75 | the points after the first never lengthen the input |
| Cave.ParsePolygon | rust/src/d14/mod.rs:72-78 | a path holds at least one point and consumes input |
| Cave.ParsePolygons | rust/src/d14/mod.rs:18-21 | every path `many0` collects has at least one point |
| Cave.ParsePointText | rust/src/d14/mod.rs:55-66 | any point written "x,y" reads back to itself |
| Cave.MorePointsText | rust/src/d14/mod.rs:75 | any points written with " -> " read back to the same points, stopping at the line end |
| Cave.ParsePolygonText | rust/src/d14/mod.rs:72-78 | any path written out reads back to the same path |
| Cave.ParsePolygonsText | rust/src/d14/mod.rs:18-21 | any paths written one per line read back to the same paths |
| Cave.FoldPoints | rust/src/d14/mod.rs:30-35 | folding points widens the bounds to cover them, and each new bound is attained by a point |
| Cave.FoldPolygons | rust/src/d14/mod.rs:24-37 | folding paths widens the bounds to cover all their points, each new bound attained |
| Cave.CaveBounds | rust/src/d14/mod.rs:23-38 | the least and greatest x, including 500, and the greatest y, including 0, over all points |
| Cave.FoldPolygonsAppend | rust/src/d14/mod.rs:24-37 | folding one more path continues from the bounds of the others |
| Cave.CaveBoundsAppend | rust/src/d14/mod.rs:23-38 | the bounds of the paths plus one more are the bounds of the others folded over its points |
| Cave.InitialGrid | rust/src/d14/mod.rs:79-103 | the grid is height + 1 rows of max - min + 1 cells |
| Cave.Grid | rust/src/d14/mod.rs:12 | the cave as rows of cells, cell for cell the array |
| Cave.DrawSegment | rust/src/d14/mod.rs:84-98 | a segment turns exactly its cells to '#' and leaves every other cell as it was |
| Cave.DrawPolygon | rust/src/d14/mod.rs:83-99 | a path turns exactly the cells of its segments to '#' |
| Cave.PolygonWithin | rust/src/d14/mod.rs:80-100 | every point of each path lies inside the bounds of all paths |
| Cave.DrawPolygons | rust/src/d14/mod.rs:82-100 | after drawing, a cell is '#' exactly when some path segment covers it, else '.' |
| Cave.ParseCave | rust/src/d14/mod.rs:79-103 | parse_cave builds a new grid: rock where a segment passes, '+' at the entry, '.' elsewhere |
| Cave.InitialCellAway | rust/src/d14/mod.rs:79-101 | away from the entry, an initial cell is rock or air |
| Cave.InitialGridCells | rust/src/d14/mod.rs:79-103 | each cell of the initial grid is the cell the drawing rule gives |
| Cave.InitialGridOf | rust/src/d14/mod.rs:79-103 | an array holding the drawing rule's cells is the initial grid |
| Cave.TryFallAt | rust/src/d14/mod.rs:133-192 | an attempt fails out of bounds exactly at the bottom row or the side edges; it moves exactly when the target cell is air; otherwise it stays |
| Cave.FallAt | rust/src/d14/mod.rs:124-132 | a fall goes down, else down-left, else down-right, one row lower into air, and rests when all three are blocked |
| Cave.FallAtCases | rust/src/d14/mod.rs:124-192 | the fall's outcomes: staying put unless falling, falling one row into air within one column, the order of the three tries, resting exactly when all three targets are blocked inside the grid, and leaving exactly at the bottom or past a blocked side |
| Cave.Sand.constructor | rust/src/d14/mod.rs:221-226 | a grain starts at the given position |
| Cave.Sand.TryFall | rust/src/d14/mod.rs:133-192 | the in-place attempt moves the grain as TryFallAt says |
| Cave.Sand.Fall | rust/src/d14/mod.rs:124-132 | the in-place fall moves the grain as FallAt says |
| Cave.FallOnce | rust/src/d14/mod.rs:228-242 | one pass of the inner loop either finishes with the grain's end as `DropFrom` gives it from the entry, or leaves the grain dropping one iteration further |
| Cave.DropFromRests | rust/src/d14/mod.rs:228-242 | `DropFrom`: a grain that rests ends on air or its start, inside the grid, and can fall no further |
| Cave.Mark | rust/src/d14/mod.rs:243 | marking keeps the grid's shape |
| Cave.CountUpdate | rust/src/d14/mod.rs:248-252 | replacing one row changes the count by that row's difference |
| Cave.MarkCount | rust/src/d14/mod.rs:243 | marking a cell adds one 'o' and removes what the cell held |
| Cave.MarkShrinks | rust/src/d14/mod.rs:215-244 | each resting grain reduces the cells left to fill, so the outer loop ends |
| Cave.PouredMark | rust/src/d14/mod.rs:243 | a grain settles only on air or the entry |
| Cave.PouredTrans | rust/src/d14/mod.rs:215-244 | pouring twice is pouring |
| Cave.Simulate | rust/src/d14/mod.rs:215-245 | a finished run only turns air or the entry into sand, and stops with the entry covered or the next grain leaving the cave |
| Cave.MarkAddsOneGrain | rust/src/d14/mod.rs:243-252 | each resting grain adds one to the sand count |
| Cave.SimulateKeepsSand | rust/src/d14/mod.rs:215-252 | a run never lowers the sand count |
| Cave.FallInCone | rust/src/d14/mod.rs:124-132 | above a full floor, a grain inside the cone under the entry never leaves the grid and stays in the cone |
| Cave.DropInCone | rust/src/d14/mod.rs:228-242 | above a full floor, no grain dropped in the cone escapes |
| Cave.FloorStopsAtEntry | rust/src/d14/mod.rs:215-219 | above a full floor, a finished run has covered the entry |
| Cave.FloorIsRock | rust/src/d14/mod.rs:197-209 | the bedrock floor is rock along the whole width 500 ± (height + 2) |
| Cave.FloorBounds | rust/src/d14/mod.rs:197-210 | adding the floor raises the height by two and widens the bounds to its ends |
| Cave.FloorFold | rust/src/d14/mod.rs:197-210 | folding the floor's two points raises the height by two and widens the bounds to at least 500 ± (height + 2) |
| Cave.InitialGridCell | rust/src/d14/mod.rs:79-103 | one initial cell is the drawing rule's cell |
| Cave.BedrockFloor | rust/src/d14/mod.rs:196-212 | with the floor, the grid has height + 3 rows and its last row is rock right under the whole cone |
| Cave.FloorCell | rust/src/d14/mod.rs:197-209 | each cell of the last row under the cone is rock |
| Cave.FloorCellIsRock | rust/src/d14/mod.rs:197-209 | the drawing rule puts rock at each floor cell |
| Cave.SandOutcomeOf | rust/src/d14/mod.rs:194-246 | the outcome of fall_sand is the run on its polygons |
| Cave.BedrockPolygons | rust/src/d14/mod.rs:196-209 | in the bedrock run the polygons are the parsed ones plus the floor, and the floor's left end does not underflow |
| Cave.BedrockRunCoversEntry | rust/src/d14/mod.rs:215-246 | with the floor, a finished run ends with sand on the entry cell |
| Cave.BedrockCoversEntry | rust/src/d14/mod.rs:258-261 | in part 2 no grain leaves the cave: the run ends with the entry covered by sand |
| Cave.DropGrain | rust/src/d14/mod.rs:221-242 | the inner loop drops a grain from the entry as DropFrom says |
| Cave.Settle | rust/src/d14/mod.rs:243 | the resting grain's cell becomes 'o' and nothing else changes |
| Cave.PourSand | rust/src/d14/mod.rs:215-245 | the outer loop succeeds exactly when the run finishes, leaving the grid the run gives |
| Cave.BuildPolygons | rust/src/d14/mod.rs:195-211 | the polygons fall_sand uses, with the floor's usize underflow as an error |
| Cave.RunCave | rust/src/d14/mod.rs:212-246 | rasterise and pour: a new grid holding the run's outcome, or the run's error |
| Cave.FallSand | rust/src/d14/mod.rs:194-246 | fall_sand gives the run's grid as a new array, and fails exactly when the run does |
| Cave.CountRestingSand | rust/src/d14/mod.rs:248-261 | part1 and part2 count the 'o' cells of fall_sand's grid |
| CaveExamples.ParseOneLine | rust/src/d14/mod.rs:297-309 | "498,4 -> 498,6 -> 496,6" parses to that one path |
| CaveExamples.ExampleRepresentable | rust/src/d14/mod.rs:266-269 | the example paths fit the parser's number range |
| CaveExamples.ParseExample | rust/src/d14/mod.rs:266-283 | the two example lines parse to the two example paths |
| CaveExamples.FirstPathBounds | rust/src/d14/mod.rs:288-296 | the first path widens the start bounds to (496, 500, 6) |
| CaveExamples.SecondPathBounds | rust/src/d14/mod.rs:288-296 | the second path widens them to (494, 503, 9) |
| CaveExamples.ExampleBounds | rust/src/d14/mod.rs:288-296 | the example's bounds are (494, 503, 9) |
| CaveExamples.ExampleRock | rust/src/d14/mod.rs:270-283 | the rock cells of the example are its five segments |
| CaveExamples.ExampleParseCave | rust/src/d14/mod.rs:266-288 | parse_cave draws the test's 10 by 10 grid for the two example lines |
| Sensors.TaggedField | rust/src/d15/mod.rs:32-35 | a tag then an unsigned number, when read, consumes input |
| Sensors.Coordinates | rust/src/d15/mod.rs:32-39 | a pair of tagged coordinates, when read, consumes input |
| Sensors.ParseLine | rust/src/d15/mod.rs:30-53 | a sensor and beacon line, when read, consumes input |
| Sensors.ParseReadings | rust/src/d15/mod.rs:12 | `many1` yields at least one reading whenever it succeeds |
| Sensors.TaggedFieldOf | rust/src/d15/mod.rs:32-35 | a tag followed by any number written in decimal reads back to the number |
| Sensors.CoordinatesOf | rust/src/d15/mod.rs:32-39 | any pair of coordinates written out reads back to the pair |
| Sensors.ParseLineText | rust/src/d15/mod.rs:30-53 | the line of any reading reads back to that reading |
| Sensors.MoreReadingsText | rust/src/d15/mod.rs:12 | readings written one per line after a line feed read back to the same readings |
| Sensors.FirstReading | rust/src/d15/mod.rs:30-53 | the first line of written readings reads back to the first reading, with or without a leading line feed |
| Sensors.ParseReadingsText | rust/src/d15/mod.rs:12 | any non-empty list of readings written one per line parses back to the list |
| Sensors.NegativeBeaconFails | rust/src/d15/mod.rs:33-37 | a negative beacon coordinate such as "x=-2" is not a digit string, so the line does not parse and, as the first line, fails `many1` |
| Sensors.NegativeBeaconLine | rust/src/d15/mod.rs:33-37 | a line whose beacon x starts with '-' does not parse |
| Sensors.Bounds | rust/src/d15/mod.rs:54-63 | the greatest x and the greatest y over all sensors and beacons, starting from (0, 0) |
| Sensors.BoundsGridTooSmall | rust/src/d15/mod.rs:13-17 | a grid of exactly the bounds' size never holds every reading: the one at the greatest x falls outside it |
| Sensors.BoundsGridFits | rust/src/d15/mod.rs:13-17 | a grid one larger each way holds every reading |
| Sensors.Cell | rust/src/d15/mod.rs:14-18 | a cell is '.' exactly when no reading is there, 'S' only at a sensor, 'B' only at a beacon |
| Sensors.Picture | rust/src/d15/mod.rs:14-18 | rows of the given size whose every cell is the drawing rule's cell |
| Sensors.PictureText | rust/src/d15/mod.rs:65-70 | in the joined picture, row r and column c sit at position r·cols + c |
| Sensors.Rows | rust/src/d15/mod.rs:14 | the grid as rows, cell for cell the array |
| Sensors.CellSnoc | rust/src/d15/mod.rs:15-18 | each later reading overwrites its cells, the beacon after the sensor |
| Sensors.Draw | rust/src/d15/mod.rs:15-18 | the loop succeeds exactly when every reading lies inside the grid, and then leaves each cell as the drawing rule says |
| Sensors.CaveToString | rust/src/d15/mod.rs:65-70 | cave_to_string joins the rows without separators |
| Sensors.RowsArePicture | rust/src/d15/mod.rs:14-19 | a drawn grid is the picture of the readings |
| Sensors.ParseAsWritten | rust/src/d15/mod.rs:11-20 | parse as written: fails on a parse error and whenever a reading lies outside the x by y grid |
| Sensors.Parse | rust/src/d15/mod.rs:11-20 | parse with the grid one larger each way: fails exactly on a parse error, else gives the picture of all the readings |
| Sensors.Render | rust/src/d15/mod.rs:14-19 | building, drawing and joining succeeds exactly when the readings fit the grid, giving the picture |

## Left out

- `rust/src/main.rs` only reads the input files and prints the answers, so it is not modelled.
- Day 7 (`rust/src/d7`) is not part of this model. Its tree is built on shared ownership and read-write locks, and the module is not declared in `main.rs`.
- `1/test_1.py` holds the Python tests, which read a file. Their expected values are the ones `Calories.ExampleGroups` and `Calories.ExampleTopThree` prove for the Rust twin.
- Printing is not modelled: `print_cave` (d14:40-47), `print_monkeys`, the `Display` for a monkey and the `println` in its parser (d11:54, 99-112, 164-168), the `Debug` output of the day 8 matrix (d8:54-67), and the `println` calls of days 10, 11 and 12.
- The CRT picture of day 10 (`draw_program`, `draw_crt`, d10:21-34, 46-48) is not modelled. It only builds output for the screen, and its test fails unconditionally.
- Dijkstra's algorithm from petgraph (d12:59, 84) is a foreign library. `Elevation.ShortestPath` and `Elevation.HikingTrailShortestPath` take the distance function as a parameter. So the example answers 31 and 29 are not proved.
- The library parsers are written as direct grammars: nom's combinators, the regular expression of day 5 (d5:85) and `json.loads` of day 13. The grammars cover only what the inputs use. The regex's `\d` is read as ASCII digits. Floats, strings, objects, `true`, `false` and `null` are not accepted. A JSON document that is not a packet is rejected.
- The library sorts (`Vec::sort` with `reverse`, `list.sort` with `cmp_to_key`) become a functional insertion sort with both sortedness and permutation proved. The in-place sorting order of the library is not modelled.
- The iteration order of hash sets and maps (d3:15-18, d5's stacks, d10:38) is not modelled. The model uses sets and maps and proves that the answers do not depend on that order (`Rucksacks.PrioritySumOrderFree`, `Cpu.StrengthSumPermutation`).
- Machine-integer overflow is not modelled; the model uses unbounded integers. This covers the `u64` worry arithmetic of day 11 (d11:225-227), the `u32` calorie and priority sums, the `i32` knot coordinates of day 9 and the `usize` products of day 8 scenic scores. Parsed numbers are still checked against their width (u32, u64, i32), as `str::parse` does. One exception: the `usize` subtraction `SAND_ENTRY_X - height - 2` of the floor (d14:201) underflows when the floor reaches past column 0, and `Cave.BuildPolygons` and `Cave.BedrockPolygons` model that panic as an error.
- Strings are sequences of characters, and one character stands for one byte. This matches the source for ASCII inputs, which the puzzles use: the byte indexing and slicing of days 3, 5, 6 and 10 (d3:5-10, d5:39, d6:4-5, d10:6-17) would split a multi-byte character or panic, which the model does not capture.
- Python's `int()` is modelled for ASCII text only. Unicode digits and Unicode white space are left out.
- Day 8 is modelled on grids of any shape, including ones `get_col` cannot read. The bound checks of Rust indexing are the model's error cases: `Trees.VisibilityMatrix`, `Trees.ViewingDistanceMatrix` and the methods below them fail exactly where the source panics. A trailing line feed is one such case (`Trees.TrailingLineFeed`).
- Day 11's worry level is a plain number rather than the `Item` struct. The monkey's own `number` is parsed but not used for routing, exactly as in the source.
- `Monkeys.Simulation`, `Monkeys.SimulateParsed`, `Monkeys.Part1` and `Monkeys.Part2`: they return an error for every configuration that is not runnable: a test divisor of 0, a target outside the list, a monkey that throws to itself, or a worry divisor of 0. This over-approximates the source. Its round loop (d11:221-238) fails only when an item reaches the fault: it panics when an item is routed to a missing target, and on `% 0` or `/ 0` when an item meets a zero divisor or worry divisor. It loops only while thrown items keep going back to the monkey that threw them. With zero rounds, with no items, or when no item ever reaches the bad divisor or target, the source finishes and the model still returns an error.
- `Monkeys.RoutingUnchanged`: it is stated for worry divisor 1 only. With divisor 3 the source reduces modulo the product before dividing, and the routing is then whatever that order gives, which the model follows.
- `Packets.DecoderKey` and `Packets.DividerKey`: their counting formula is proved only when no packet ties with a divider (`DividersDecide`). With such a tie the position depends on the stability of `list.sort`, which is not modelled. The example has no tie (`PacketsExamples.ExampleDividersDecide`).
- `Packets.SumIndicesCorrectOrder` is undefined on a block that does not have exactly two lines, where Python's tuple unpacking raises. An input ending in a line feed has such a block.
- test_fall_sand_2 (d14:333-353) is not turned into a property. It expects the bedrock run to give the grid of the run without a floor, which has a different size.
- The day 15 test (d15:89-116) is not turned into a property. Its first line holds `x=-2`, which the parser rejects, so `parse` fails on it (`Sensors.NegativeBeaconFails`).
- `Sensors.Parse`: the layout the day 15 test expects is not modelled. That test draws signed coordinates, shifts every column by the smallest x (23 rows of 28 columns for x from -2 to 25), and joins the rows with line feeds. `Sensors.Parse` keeps the source's unsigned, unshifted coordinates and its unseparated rows, and only enlarges the grid enough to remove the panic, so it agrees with the test in the number of rows only.
- Example answers that need long runs are not proved: day 14's 24 and 93 grains, day 11's 10605, day 9's 13 and 36 cells, day 10's 13140, and the day 6 markers other than the first.
- The two day 5 scenario tests (d5:217-253) are proved move by move, from the example's stacks to the tops "CMZ" and "MCD". `CrateStacks.RunScenario` is not evaluated on the whole test text.

## Findings

| source | as written | input that shows it | evidently intended | confidence | as-written member | corrected member |
|---|---|---|---|---|---|---|
| rust/src/d15/mod.rs:13-17 | the grid has y rows of x columns, where (x, y) are the largest coordinates, so writing the reading that holds the largest x is always out of range and `parse` panics on every input it can read | `Sensor at x=0, y=0: closest beacon is at x=0, y=0` (bounds (0, 0), an empty grid, and a write at row 0, column 0) | the smallest change that removes the panic: a grid of y + 1 rows of x + 1 columns, which holds every sensor and beacon (the test at d15:89-116 expects a different, signed and shifted layout, which is not modelled) | not executed | Sensors.ParseAsWritten, Sensors.BoundsGridTooSmall | Sensors.Parse, Sensors.BoundsGridFits |
