/** Day 10: a one-register CPU running `noop` and `addx v`. The trace
    records the register during every cycle, starting from 1. */
module Cpu {
  import opened Wrappers
  import opened Text
  import opened Seqs

  datatype Instruction = Noop | Addx(v: int) | Other

  /** The instruction on one line. The first four characters name it, so a
      shorter line panics on the slice; after "addx" the text from character 5
      must parse as an i32. A line naming neither instruction is skipped. */
  function ParseInstruction(line: string): (r: Result<Instruction>)
    ensures r.Ok? ==> |line| >= 4
  {
    if |line| < 4 then Err("byte index 4 is out of bounds")
    else if line[..4] == "addx" then
      if |line| < 5 then Err("byte index 5 is out of bounds")
      else match ParseI32(line[5..])
        case Some(v) => Ok(Addx(v))
        case None => Err("called `Result::unwrap()` on an `Err` value: ParseIntError")
    else if line[..4] == "noop" then Ok(Noop)
    else Ok(Other)
  }

  /** The values one instruction appends once the register holds `prev`. */
  function Effect(prev: int, ins: Instruction): seq<int>
  {
    match ins
    case Noop => [prev]
    case Addx(v) => [prev, prev + v]
    case Other => []
  }

  /** The trace of a program: [1], then each instruction's values. */
  function Trace(program: seq<Instruction>): (t: seq<int>)
    ensures |t| >= 1
  {
    if program == [] then [1]
    else
      var t := Trace(program[..|program| - 1]);
      t + Effect(t[|t| - 1], program[|program| - 1])
  }

  function Last(t: seq<int>): int
    requires |t| >= 1
  {
    t[|t| - 1]
  }

  /** Cycles the program takes: one per noop, two per addx. */
  function Cycles(program: seq<Instruction>): nat
  {
    if program == [] then 0
    else
      Cycles(program[..|program| - 1]) +
      match program[|program| - 1]
      case Noop => 1
      case Addx(_) => 2
      case Other => 0
  }

  /** The sum of every addx argument. */
  function AddedTotal(program: seq<Instruction>): int
  {
    if program == [] then 0
    else
      AddedTotal(program[..|program| - 1]) +
      match program[|program| - 1]
      case Addx(v) => v
      case _ => 0
  }

  /** The trace has one entry per cycle after the initial 1, and ends at 1
      plus every addx argument. */
  lemma {:induction false} TraceShape(program: seq<Instruction>)
    ensures |Trace(program)| == 1 + Cycles(program)
    ensures Last(Trace(program)) == 1 + AddedTotal(program)
  {
    if program != [] {
      TraceShape(program[..|program| - 1]);
    }
  }

  /** Running more instructions only extends the trace: earlier entries
      are never changed. */
  lemma {:induction false} TraceExtends(program: seq<Instruction>, more: seq<Instruction>)
    ensures Trace(program) <= Trace(program + more)
    decreases |more|
  {
    if more != [] {
      var init := more[..|more| - 1];
      TraceExtends(program, init);
      assert program + more == (program + init) + [more[|more| - 1]];
      TraceSnoc(program + init, more[|more| - 1]);
    } else {
      assert program + more == program;
    }
  }

  /** Every line holds an instruction that parses. */
  predicate AllParse(lines: seq<string>)
  {
    forall i :: 0 <= i < |lines| ==> ParseInstruction(lines[i]).Ok?
  }

  /** The instructions of lines that all parse. */
  function Instructions(lines: seq<string>): (p: seq<Instruction>)
    requires AllParse(lines)
    ensures |p| == |lines|
  {
    if lines == [] then []
    else Instructions(lines[..|lines| - 1]) + [ParseInstruction(lines[|lines| - 1]).value]
  }

  lemma InstructionsSnoc(lines: seq<string>, line: string)
    requires AllParse(lines) && ParseInstruction(line).Ok?
    ensures AllParse(lines + [line])
    ensures Instructions(lines + [line]) == Instructions(lines) + [ParseInstruction(line).value]
  {
    assert (lines + [line])[..|lines|] == lines;
  }

  lemma RunStep(lines: seq<string>, i: nat, x: seq<int>, ins: Instruction)
    requires i < |lines| && AllParse(lines[..i])
    requires x == Trace(Instructions(lines[..i]))
    requires ParseInstruction(lines[i]) == Ok(ins)
    ensures AllParse(lines[..i + 1])
    ensures x + Effect(Last(x), ins) == Trace(Instructions(lines[..i + 1]))
  {
    assert lines[..i + 1] == lines[..i] + [lines[i]];
    InstructionsSnoc(lines[..i], lines[i]);
    TraceSnoc(Instructions(lines[..i]), ins);
  }

  /** One more instruction appends its values to the trace. */
  lemma TraceSnoc(program: seq<Instruction>, ins: Instruction)
    ensures Trace(program + [ins]) == Trace(program) + Effect(Last(Trace(program)), ins)
  {
    assert (program + [ins])[..|program|] == program;
  }

  /** program: one instruction per line of the input, in order; the first
      line that does not parse panics. */
  method Program(input: string) returns (r: Result<seq<int>>)
    ensures r.Ok? <==> AllParse(Split(input, '\n'))
    ensures r.Ok? ==> r.value == Trace(Instructions(Split(input, '\n')))
  {
    r := RunLines(Split(input, '\n'));
  }

  /** One pass of program's loop: the line's instruction appends its values
      to `x`, starting from the register value `x` ends with. */
  method RunLine(x: seq<int>, line: string) returns (r: Result<seq<int>>)
    requires |x| >= 1
    ensures r.Ok? <==> ParseInstruction(line).Ok?
    ensures r.Ok? ==> r.value == x + Effect(Last(x), ParseInstruction(line).value)
  {
    var prev := x[|x| - 1];
    var parsed := ParseInstruction(line);
    if parsed.Err? {
      return Err(parsed.msg);
    }
    match parsed.value {
      case Addx(v) =>
        return Ok(x + [prev, prev + v]);
      case Noop =>
        return Ok(x + [prev]);
      case Other =>
        assert x + [] == x;
        return Ok(x);
    }
  }

  method RunLines(lines: seq<string>) returns (r: Result<seq<int>>)
    ensures r.Ok? <==> AllParse(lines)
    ensures r.Ok? ==> r.value == Trace(Instructions(lines))
  {
    var x := [1];
    for i := 0 to |lines|
      invariant AllParse(lines[..i])
      invariant x == Trace(Instructions(lines[..i]))
    {
      var next := RunLine(x, lines[i]);
      if next.Err? {
        return Err(next.msg);
      }
      RunStep(lines, i, x, ParseInstruction(lines[i]).value);
      x := next.value;
    }
    assert lines[..|lines|] == lines;
    return Ok(x);
  }

  /** "noop", "addx 3", "addx -5" gives the trace [1, 1, 1, 4, 4, -1]. */
  lemma ExampleTrace()
    ensures Trace([Noop, Addx(3), Addx(-5)]) == [1, 1, 1, 4, 4, -1]
  {
    assert [Noop, Addx(3), Addx(-5)][..2] == [Noop, Addx(3)];
    assert [Noop, Addx(3)][..1] == [Noop];
    assert [Noop][..0] == [];
  }

  /** The three example lines parse to noop, addx 3 and addx -5. */
  lemma ExampleInstructions()
    ensures ParseInstruction("noop") == Ok(Noop)
    ensures ParseInstruction("addx 3") == Ok(Addx(3))
    ensures ParseInstruction("addx -5") == Ok(Addx(-5))
  {
    assert "noop"[..4] == "noop" && "noop"[..4] != "addx" by { assert "noop"[0] != "addx"[0]; }
    assert "addx 3"[..4] == "addx" && "addx 3"[5..] == IntToString(3);
    assert "addx -5"[..4] == "addx" && "addx -5"[5..] == IntToString(-5);
    ParseI32OfString(3);
    ParseI32OfString(-5);
  }

  /** The signal strength during cycle `k`: the register then, times `k`;
      the register during cycle k is entry k-1 of the trace. A cycle past
      the trace contributes nothing here; total_signal_strength checks the
      trace length before it sums. */
  function Strength(x: seq<int>, k: nat): int
  {
    if 1 <= k <= |x| then x[k - 1] * k else 0
  }

  /** The strengths summed over the cycles `ks`, in the order given. */
  function StrengthSum(x: seq<int>, ks: seq<nat>): int
  {
    SumOf(ks, (k: nat) => Strength(x, k))
  }

  /** The sum does not depend on the order the cycles are visited in, so
      the iteration order of the HashSet of cycles does not matter. */
  lemma StrengthSumPermutation(x: seq<int>, a: seq<nat>, b: seq<nat>)
    requires multiset(a) == multiset(b)
    ensures StrengthSum(x, a) == StrengthSum(x, b)
  {
    SumOfPermutation(a, b, (k: nat) => Strength(x, k));
  }

  lemma StrengthSumStep(x: seq<int>, ks: seq<nat>, i: nat)
    requires i < |ks|
    ensures StrengthSum(x, ks[i..]) == Strength(x, ks[i]) + StrengthSum(x, ks[i + 1..])
  {
    assert ks[i..][1..] == ks[i + 1..];
  }

  const CYCLES_OF_INTEREST: seq<nat> := [20, 60, 100, 140, 180, 220]

  /** total_signal_strength: the strengths at cycles 20, 60, ..., 220 of
      the program's trace; a trace of fewer than 220 entries panics on the
      index. */
  method TotalSignalStrength(input: string) returns (r: Result<int>)
    ensures r.Ok? <==> AllParse(Split(input, '\n')) && |Trace(Instructions(Split(input, '\n')))| >= 220
    ensures r.Ok? ==> r.value == StrengthSum(Trace(Instructions(Split(input, '\n'))), CYCLES_OF_INTEREST)
  {
    var x :- Program(input);
    if |x| < 220 {
      return Err("index out of bounds");
    }
    var sum := 0;
    for i := 0 to |CYCLES_OF_INTEREST|
      invariant sum + StrengthSum(x, CYCLES_OF_INTEREST[i..]) == StrengthSum(x, CYCLES_OF_INTEREST)
    {
      var k := CYCLES_OF_INTEREST[i];
      StrengthSumStep(x, CYCLES_OF_INTEREST, i);
      sum := sum + x[k - 1] * k;
    }
    return Ok(sum);
  }
}
