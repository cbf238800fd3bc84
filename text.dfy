/** Text helpers shared by the puzzle modules: splitting on a one-character
    separator (Rust's `str::split`, Python's `str.split`), decimal digits and
    the small lexical pieces of the nom parsers (`tag`, `digit1`,
    `multispace0`, `space0`). Strings are sequences of characters; the inputs
    are ASCII, so a character stands for a byte. */
module Text {
  import opened Wrappers

  /** The pieces of `parts` written one after another with `sep` between
      neighbours: the inverse of `Split`. */
  function Join<T>(parts: seq<seq<T>>, sep: T): seq<T>
  {
    if |parts| == 0 then []
    else if |parts| == 1 then parts[0]
    else parts[0] + [sep] + Join(parts[1..], sep)
  }

  /** `s` cut at every occurrence of `sep`: n separators give n + 1 pieces,
      some of them possibly empty, as `str::split` does in Rust and
      `str.split` does in Python. */
  function Split<T(==)>(s: seq<T>, sep: T): (r: seq<seq<T>>)
    ensures |r| >= 1
  {
    if s == [] then [[]]
    else if s[0] == sep then
      [[]] + Split(s[1..], sep)
    else
      var rest := Split(s[1..], sep);
      [[s[0]] + rest[0]] + rest[1..]
  }

  /** No piece holds a separator, and joining the pieces gives `s` back. */
  lemma {:induction false} SplitParts<T>(s: seq<T>, sep: T)
    ensures forall i :: 0 <= i < |Split(s, sep)| ==> sep !in Split(s, sep)[i]
    ensures Join(Split(s, sep), sep) == s
  {
    if s != [] {
      SplitParts(s[1..], sep);
      var rest := Split(s[1..], sep);
      if s[0] == sep {
        assert ([[]] + rest)[1..] == rest;
      } else {
        var r := [[s[0]] + rest[0]] + rest[1..];
        assert r[1..] == rest[1..];
        assert s == [s[0]] + s[1..];
      }
    }
  }

  /** The number of pieces is one more than the number of separators. */
  lemma {:induction false} SplitCount<T>(s: seq<T>, sep: T)
    ensures |Split(s, sep)| == multiset(s)[sep] + 1
  {
    if s != [] {
      SplitCount(s[1..], sep);
      assert s == [s[0]] + s[1..];
    }
  }

  /** Splitting grows at the back: a separator opens a new empty piece. */
  lemma {:induction false} SplitSnocSeparator<T>(s: seq<T>, sep: T)
    ensures Split(s + [sep], sep) == Split(s, sep) + [[]]
  {
    if s == [] {
      assert s + [sep] == [sep];
      assert [sep][1..] == [];
    } else {
      assert (s + [sep])[1..] == s[1..] + [sep];
      SplitSnocSeparator(s[1..], sep);
      var rest := Split(s[1..], sep);
      if s[0] == sep {
        assert [[]] + (rest + [[]]) == ([[]] + rest) + [[]];
      } else {
        var rest2 := rest + [[]];
        assert rest2[0] == rest[0];
        assert rest2[1..] == rest[1..] + [[]];
      }
    }
  }

  /** Splitting grows at the back: any other element extends the last piece. */
  lemma {:induction false} SplitSnocOther<T>(s: seq<T>, x: T, sep: T)
    requires x != sep
    ensures Split(s + [x], sep) == ExtendLast(Split(s, sep), x)
  {
    if s == [] {
      assert s + [x] == [x];
      assert [x][1..] == [];
      assert Split([x][1..], sep) == [[]];
      assert [[x][0]] + [] == [x];
      var none: seq<seq<T>> := [[]];
      assert none[1..] == [];
      assert Split([x], sep) == [[x]];
      assert ExtendLast([[]], x) == [[x]];
    } else {
      SplitSnocOther(s[1..], x, sep);
      if s[0] == sep {
        SnocOtherAfterSeparator(s, x, sep);
      } else {
        SnocOtherInFirstPiece(s, x, sep);
      }
    }
  }

  /** `pieces` with `x` appended to its last piece. */
  function ExtendLast<T>(pieces: seq<seq<T>>, x: T): seq<seq<T>>
    requires |pieces| >= 1
  {
    pieces[..|pieces| - 1] + [pieces[|pieces| - 1] + [x]]
  }

  /** Only the last piece changes, and it gains `x` at its end. */
  lemma ExtendLastPieces<T>(pieces: seq<seq<T>>, x: T)
    requires |pieces| >= 1
    ensures var r := ExtendLast(pieces, x);
      |r| == |pieces| && r[|r| - 1] == pieces[|pieces| - 1] + [x] && r[..|r| - 1] == pieces[..|pieces| - 1]
    ensures forall i :: 0 <= i < |pieces| - 1 ==> ExtendLast(pieces, x)[i] == pieces[i]
  {
  }

  /** Extending the last piece commutes with putting an empty piece in front. */
  lemma ExtendLastAfterEmpty<T>(rest: seq<seq<T>>, x: T)
    requires |rest| >= 1
    ensures [[]] + ExtendLast(rest, x) == ExtendLast([[]] + rest, x)
  {
    assert ([[]] + rest)[..|rest|] == [[]] + rest[..|rest| - 1];
  }

  /** Extending the last piece commutes with growing the first piece at its front. */
  lemma ExtendLastAfterHead<T>(rest: seq<seq<T>>, h: T, x: T)
    requires |rest| >= 1
    ensures var e := ExtendLast(rest, x);
      [[h] + e[0]] + e[1..] == ExtendLast([[h] + rest[0]] + rest[1..], x)
  {
    ExtendLastPieces(rest, x);
    ExtendLastPieces([[h] + rest[0]] + rest[1..], x);
    var e := ExtendLast(rest, x);
    var a := [[h] + e[0]] + e[1..];
    var b := ExtendLast([[h] + rest[0]] + rest[1..], x);
    assert |a| == |b|;
    if |rest| == 1 {
      assert [h] + (rest[0] + [x]) == ([h] + rest[0]) + [x];
      assert a[0] == b[0];
    } else {
      assert a[0] == b[0];
      forall i | 1 <= i < |a| ensures a[i] == b[i] {
        assert a[i] == e[i];
      }
    }
  }

  /** A leading separator closes an empty first piece. */
  lemma SplitConsSeparator<T>(s: seq<T>, sep: T)
    requires s != [] && s[0] == sep
    ensures Split(s, sep) == [[]] + Split(s[1..], sep)
  {
  }

  /** Any other leading element opens the first piece. */
  lemma SplitConsOther<T>(s: seq<T>, sep: T)
    requires s != [] && s[0] != sep
    ensures var rest := Split(s[1..], sep); Split(s, sep) == [[s[0]] + rest[0]] + rest[1..]
  {
  }

  lemma SnocOtherAfterSeparator<T>(s: seq<T>, x: T, sep: T)
    requires s != [] && s[0] == sep && x != sep
    requires Split(s[1..] + [x], sep) == ExtendLast(Split(s[1..], sep), x)
    ensures Split(s + [x], sep) == ExtendLast(Split(s, sep), x)
  {
    SplitConsSeparator(s, sep);
    SplitConsSeparator(s + [x], sep);
    assert (s + [x])[1..] == s[1..] + [x];
    ExtendLastAfterEmpty(Split(s[1..], sep), x);
  }

  lemma SnocOtherInFirstPiece<T>(s: seq<T>, x: T, sep: T)
    requires s != [] && s[0] != sep && x != sep
    requires Split(s[1..] + [x], sep) == ExtendLast(Split(s[1..], sep), x)
    ensures Split(s + [x], sep) == ExtendLast(Split(s, sep), x)
  {
    SplitConsOther(s, sep);
    SplitConsOther(s + [x], sep);
    assert (s + [x])[1..] == s[1..] + [x];
    ExtendLastAfterHead(Split(s[1..], sep), s[0], x);
  }

  lemma {:induction false} SplitNoSeparator<T>(a: seq<T>, sep: T)
    requires sep !in a
    ensures Split(a, sep) == [a]
  {
    if a != [] {
      SplitNoSeparator(a[1..], sep);
      assert [a[0]] + a[1..] == a;
    }
  }

  lemma {:induction false} SplitAfterPiece<T>(a: seq<T>, b: seq<T>, sep: T)
    requires sep !in a
    ensures Split(a + [sep] + b, sep) == [a] + Split(b, sep)
  {
    var s := a + [sep] + b;
    if a == [] {
      assert s[1..] == b;
    } else {
      assert s[1..] == a[1..] + [sep] + b;
      SplitAfterPiece(a[1..], b, sep);
      assert [a[0]] + a[1..] == a;
    }
  }

  /** Splitting a joined list gives the list back when no piece holds the
      separator. */
  lemma {:induction false} SplitJoin<T>(parts: seq<seq<T>>, sep: T)
    requires |parts| >= 1
    requires forall i :: 0 <= i < |parts| ==> sep !in parts[i]
    ensures Split(Join(parts, sep), sep) == parts
  {
    if |parts| == 1 {
      SplitNoSeparator(parts[0], sep);
    } else {
      SplitAfterPiece(parts[0], Join(parts[1..], sep), sep);
      SplitJoin(parts[1..], sep);
      assert [parts[0]] + parts[1..] == parts;
    }
  }

  lemma ConsTail<T>(s: seq<T>, tail: seq<T>)
    requires |s| >= 1
    requires |s| == 1 ==> tail == []
    requires |s| > 1 ==> tail == s[1..]
    ensures [s[0]] + tail == s
  {
  }

  lemma Assoc(a: string, b: string, c: string)
    ensures a + b + c == a + (b + c)
  {
  }

  predicate IsDigit(c: char) { '0' <= c <= '9' }

  predicate AllDigits(s: string) { forall i :: 0 <= i < |s| ==> IsDigit(s[i]) }

  /** The decimal value of a string of digits, most significant first. */
  function DigitsValue(s: string): nat
    requires AllDigits(s)
  {
    if s == [] then 0
    else 10 * DigitsValue(s[..|s| - 1]) + ((s[|s| - 1] as int) - ('0' as int))
  }

  /** The decimal representation of `n`, without leading zeros. */
  function NatToString(n: nat): (r: string)
    ensures |r| >= 1 && AllDigits(r)
    ensures DigitsValue(r) == n
  {
    if n < 10 then [('0' as int + n) as char]
    else
      var r := NatToString(n / 10) + [('0' as int + n % 10) as char];
      assert r[..|r| - 1] == NatToString(n / 10);
      r
  }

  /** The length of the longest prefix of `s` made of digits. */
  function DigitRun(s: string): (k: nat)
    ensures k <= |s|
    ensures AllDigits(s[..k])
    ensures k == |s| || !IsDigit(s[k])
  {
    if s != [] && IsDigit(s[0]) then
      var k := 1 + DigitRun(s[1..]);
      assert forall i :: 1 <= i < k ==> s[..k][i] == s[1..][..k - 1][i - 1];
      k
    else 0
  }

  lemma {:induction false} DigitRunOfDigits(d: string, rest: string)
    requires AllDigits(d)
    requires rest == [] || !IsDigit(rest[0])
    ensures DigitRun(d + rest) == |d|
  {
    if d != [] {
      assert (d + rest)[1..] == d[1..] + rest;
      DigitRunOfDigits(d[1..], rest);
    }
  }

  /** nom's `digit1` followed by `str::parse` (or nom's `u64` parser): the
      leading run of digits of `s` read as a number, with the rest of `s`.
      No digit at all, or a value that does not fit below `limit` (the
      integer type's range), is a parse error. */
  function NatPrefix(s: string, limit: nat): (r: Option<(nat, string)>)
    ensures r.Some? ==> r.value.0 < limit && |r.value.1| < |s|
  {
    var k := DigitRun(s);
    if k == 0 then None
    else
      var v := DigitsValue(s[..k]);
      if v < limit then Some((v, s[k..])) else None
  }

  lemma NatPrefixOfString(n: nat, rest: string, limit: nat)
    requires n < limit
    requires rest == [] || !IsDigit(rest[0])
    ensures NatPrefix(NatToString(n) + rest, limit) == Some((n, rest))
  {
    var d := NatToString(n);
    DigitRunOfDigits(d, rest);
    assert (d + rest)[..|d|] == d;
    assert (d + rest)[|d|..] == rest;
  }

  const U32_LIMIT: nat := 0x1_0000_0000
  const U64_LIMIT: nat := 0x1_0000_0000_0000_0000
  const I32_MIN: int := -0x8000_0000
  const I32_MAX: int := 0x7fff_ffff

  /** Rust's `str::parse` for an unsigned integer type whose values lie below
      `limit`: an optional '+' and then one or more digits, nothing else. */
  function ParseUnsigned(s: string, limit: nat): (r: Option<nat>)
    ensures r.Some? ==> r.value < limit
    ensures r.Some? ==> |s| >= 1
  {
    var digits := if |s| > 0 && s[0] == '+' then s[1..] else s;
    if |digits| > 0 && AllDigits(digits) && DigitsValue(digits) < limit
    then Some(DigitsValue(digits))
    else None
  }

  lemma ParseUnsignedOfString(n: nat, limit: nat)
    requires n < limit
    ensures ParseUnsigned(NatToString(n), limit) == Some(n)
  {
  }

  /** Rust's `str::parse::<i32>`: an optional sign and then one or more
      digits, nothing else, with a value in the 32-bit signed range. */
  function ParseI32(s: string): (r: Option<int>)
    ensures r.Some? ==> I32_MIN <= r.value <= I32_MAX
  {
    var negative := |s| > 0 && s[0] == '-';
    var digits := if |s| > 0 && (s[0] == '+' || s[0] == '-') then s[1..] else s;
    if |digits| > 0 && AllDigits(digits) then
      var v := if negative then -(DigitsValue(digits) as int) else DigitsValue(digits);
      if I32_MIN <= v <= I32_MAX then Some(v) else None
    else None
  }

  /** The decimal text of an integer, with a leading '-' when negative. */
  function IntToString(v: int): string
  {
    if v < 0 then "-" + NatToString(-v) else NatToString(v)
  }

  lemma ParseI32OfString(v: int)
    requires I32_MIN <= v <= I32_MAX
    ensures ParseI32(IntToString(v)) == Some(v)
  {
    if v < 0 {
      assert IntToString(v)[1..] == NatToString(-v);
    }
  }

  /** nom's `tag`: `s` with the prefix `t` removed, if `s` starts with `t`. */
  function Tag(s: string, t: string): (r: Option<string>)
    ensures r.Some? <==> |t| <= |s| && s[..|t|] == t
    ensures r.Some? ==> s == t + r.value
  {
    if |t| <= |s| && s[..|t|] == t then Some(s[|t|..]) else None
  }

  lemma TagOfPrefix(t: string, rest: string)
    ensures Tag(t + rest, t) == Some(rest)
  {
    assert (t + rest)[..|t|] == t;
  }

  predicate IsMultispace(c: char) { c == ' ' || c == '\t' || c == '\r' || c == '\n' }

  predicate IsSpace(c: char) { c == ' ' || c == '\t' }

  /** nom's `multispace0`: `s` without its leading spaces, tabs, carriage
      returns and line feeds. */
  function SkipMultispace(s: string): (r: string)
    ensures |r| <= |s| && r == s[|s| - |r|..]
    ensures r == [] || !IsMultispace(r[0])
    ensures forall i :: 0 <= i < |s| - |r| ==> IsMultispace(s[i])
  {
    if s != [] && IsMultispace(s[0]) then SkipMultispace(s[1..]) else s
  }

  /** Text that starts with a digit has no white space to skip. */
  lemma SkipMultispaceAtDigit(s: string)
    requires s != [] && IsDigit(s[0])
    ensures SkipMultispace(s) == s
  {
  }

  /** nom's `space0`: `s` without its leading spaces and tabs. */
  function SkipSpace(s: string): (r: string)
    ensures |r| <= |s| && r == s[|s| - |r|..]
    ensures r == [] || !IsSpace(r[0])
    ensures forall i :: 0 <= i < |s| - |r| ==> IsSpace(s[i])
  {
    if s != [] && IsSpace(s[0]) then SkipSpace(s[1..]) else s
  }

  /** `sub` occurs in `s` starting at index `i`. */
  predicate OccursAt(s: string, sub: string, i: int)
  {
    0 <= i <= |s| - |sub| && s[i..i + |sub|] == sub
  }

  /** Whether `sub` occurs in `s` (Rust's `str::contains`). */
  function Contains(s: string, sub: string): (b: bool)
    ensures b <==> exists i :: OccursAt(s, sub, i)
  {
    if |sub| <= |s| && s[..|sub|] == sub then
      assert OccursAt(s, sub, 0);
      true
    else if s == [] then false
    else
      OccursAfterFirst(s, sub);
      Contains(s[1..], sub)
  }

  lemma OccursAfterFirst(s: string, sub: string)
    requires s != [] && !(|sub| <= |s| && s[..|sub|] == sub)
    ensures (exists i :: OccursAt(s, sub, i)) <==> (exists i :: OccursAt(s[1..], sub, i))
  {
    forall i | OccursAt(s, sub, i)
      ensures OccursAt(s[1..], sub, i - 1)
    {
      assert i != 0;
      assert |s[1..]| == |s| - 1;
      assert s[1..][i - 1..i - 1 + |sub|] == s[i..i + |sub|];
    }
    forall i | OccursAt(s[1..], sub, i)
      ensures OccursAt(s, sub, i + 1)
    {
      assert s[i + 1..i + 1 + |sub|] == s[1..][i..i + |sub|];
    }
  }

  /** Rust's `str::replace(" ", "")`: `s` without its spaces. */
  function RemoveSpaces(s: string): (r: string)
    ensures ' ' !in r
    ensures |r| <= |s|
    ensures forall c :: c != ' ' ==> multiset(r)[c] == multiset(s)[c]
  {
    if s == [] then ""
    else
      assert s == [s[0]] + s[1..];
      if s[0] == ' ' then RemoveSpaces(s[1..]) else [s[0]] + RemoveSpaces(s[1..])
  }
}
