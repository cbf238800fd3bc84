/** Day 1 in Python (1/main.py): the same grouping as the Rust solution,
    with Python's `int()` reading each non-empty line. */
module CaloriesPy {
  import opened Wrappers
  import opened Text
  import opened Seqs
  import Calories

  /** The ASCII characters `str.strip` and `int()` treat as whitespace. */
  predicate IsPyWhitespace(c: char)
  {
    c == ' ' || 9 <= c as int <= 13 || 28 <= c as int <= 31
  }

  /** `s` without leading and trailing whitespace. */
  function Strip(s: string): (r: string)
    ensures |r| <= |s|
    ensures r == [] || (!IsPyWhitespace(r[0]) && !IsPyWhitespace(r[|r| - 1]))
    decreases |s|
  {
    if s == [] then []
    else if IsPyWhitespace(s[0]) then Strip(s[1..])
    else if IsPyWhitespace(s[|s| - 1]) then Strip(s[..|s| - 1])
    else s
  }

  /** Digits with single underscores between them, as `int()` accepts. */
  predicate IsDigitPart(s: string)
  {
    |s| >= 1 && IsDigit(s[0]) &&
    forall i {:trigger s[i]} :: 0 <= i < |s| ==> IsDigit(s[i]) || (s[i] == '_' && i + 1 < |s| && IsDigit(s[i + 1]))
  }

  function DropUnderscores(s: string): (r: string)
    ensures forall c :: c in r ==> c in s && c != '_'
  {
    if s == [] then []
    else if s[0] == '_' then DropUnderscores(s[1..])
    else [s[0]] + DropUnderscores(s[1..])
  }

  lemma {:induction false} DropUnderscoresOfDigits(s: string)
    requires forall i :: 0 <= i < |s| ==> IsDigit(s[i]) || s[i] == '_'
    ensures AllDigits(DropUnderscores(s))
    ensures s != [] && IsDigit(s[0]) ==> DropUnderscores(s) != []
  {
    if s != [] {
      assert forall i :: 0 <= i < |s| - 1 ==> s[1..][i] == s[i + 1];
      DropUnderscoresOfDigits(s[1..]);
    }
  }

  /** Python's `int()` on a string, for the ASCII characters: whitespace
      around an optional sign and a digit part. Anything else raises
      ValueError. */
  function PyInt(s: string): (r: Option<int>)
  {
    var t := Strip(s);
    var negative := |t| > 0 && t[0] == '-';
    var body := if |t| > 0 && (t[0] == '+' || t[0] == '-') then t[1..] else t;
    if IsDigitPart(body) then
      DropUnderscoresOfDigits(body);
      var v: int := DigitsValue(DropUnderscores(body));
      Some(if negative then -v else v)
    else None
  }

  lemma StripNoWhitespace(s: string)
    requires s != [] && !IsPyWhitespace(s[0]) && !IsPyWhitespace(s[|s| - 1])
    ensures Strip(s) == s
  {
  }

  lemma {:induction false} DropUnderscoresOfPlainDigits(s: string)
    requires AllDigits(s)
    ensures DropUnderscores(s) == s
  {
    if s != [] {
      DropUnderscoresOfPlainDigits(s[1..]);
      assert [s[0]] + s[1..] == s;
    }
  }

  /** `int()` reads back the decimal text of any integer. */
  lemma PyIntOfString(v: int)
    ensures PyInt(IntToString(v)) == Some(v)
  {
    var s := IntToString(v);
    var d := NatToString(if v < 0 then -v else v);
    assert s == if v < 0 then "-" + d else d;
    assert s[|s| - 1] == d[|d| - 1];
    StripNoWhitespace(s);
    var body := if v < 0 then s[1..] else s;
    assert body == d;
    DropUnderscoresOfPlainDigits(d);
  }

  /** `int()` rejects a string that holds a letter or other stray
      character. */
  lemma PyIntRejects(s: string, i: nat)
    requires i < |Strip(s)|
    requires !IsDigit(Strip(s)[i]) && Strip(s)[i] != '_'
    requires Strip(s)[i] != '+' && Strip(s)[i] != '-'
    ensures PyInt(s) == None
  {
  }

  /** A line's calories: 0 for an empty line, `int(line)` otherwise. */
  function PyCalorie(line: string): Result<int>
  {
    if line == "" then Ok(0)
    else match PyInt(line)
      case Some(v) => Ok(v)
      case None => Err("invalid literal for int() with base 10")
  }

  /** `list(map(...))` over the lines: the first line `int()` rejects
      raises. */
  function PyValues(lines: seq<string>): (r: Result<seq<int>>)
    ensures r.Ok? ==> |r.value| == |lines|
    ensures r.Ok? <==> forall i :: 0 <= i < |lines| ==> PyCalorie(lines[i]).Ok?
    ensures r.Ok? ==> forall i :: 0 <= i < |lines| ==> r.value[i] == PyCalorie(lines[i]).value
  {
    if lines == [] then Ok([])
    else
      var v :- PyCalorie(lines[0]);
      var rest :- PyValues(lines[1..]);
      Ok([v] + rest)
  }

  /** get_calories_by_elf. */
  method CaloriesByElf(input: string) returns (r: Result<seq<int>>)
    ensures r.Ok? <==> PyValues(Split(input, '\n')).Ok?
    ensures r.Ok? ==> r.value == Calories.Groups(PyValues(Split(input, '\n')).value)
    ensures r.Ok? ==> |r.value| >= 1
  {
    var values :- PyValues(Split(input, '\n'));
    var groups := Calories.GroupCalories(values);
    Calories.GroupsCount(values);
    return Ok(groups);
  }

  /** get_most_calories: Python's `max` of the groups. */
  method MostCalories(input: string) returns (r: Result<int>)
    ensures r.Ok? <==> PyValues(Split(input, '\n')).Ok?
    ensures r.Ok? ==> r.value in Calories.Groups(PyValues(Split(input, '\n')).value)
    ensures r.Ok? ==> forall g :: g in Calories.Groups(PyValues(Split(input, '\n')).value) ==> g <= r.value
  {
    var groups :- CaloriesByElf(input);
    return Ok(Max(groups));
  }

  /** get_top3_calories: sorted descending, the sum of at most the first
      three; fewer than three groups is not an error here. */
  method Top3Calories(input: string) returns (r: Result<int>)
    ensures r.Ok? <==> PyValues(Split(input, '\n')).Ok?
    ensures r.Ok? ==> var groups := Calories.Groups(PyValues(Split(input, '\n')).value);
      r.value == Sum(SortDescending(groups)[..Min(3, |groups|)])
  {
    var groups :- CaloriesByElf(input);
    var sorted := SortDescending(groups);
    return Ok(Sum(sorted[..Min(3, |sorted|)]));
  }

  function Min(a: int, b: int): int { if a <= b then a else b }
}
