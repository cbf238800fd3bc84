/** Day 13 (python/d13/main.py): packets are integers or lists of packets.
    compare_values decides whether a pair is in the right order, the first
    part adds up the indices of the ordered pairs and the second sorts all
    packets with two dividers. */
module Packets {
  import opened Wrappers
  import opened Text
  import opened Seqs

  /** A packet as json.loads returns it: an int or a list. */
  datatype Packet = Int(value: int) | List(items: seq<Packet>)

  /** The number of constructors in a packet, the measure of the
      comparison's recursion. */
  function Size(p: Packet): (n: nat)
    ensures n >= 1
  {
    match p
    case Int(_) => 1
    case List(items) => 1 + ItemsSize(items)
  }

  function ItemsSize(items: seq<Packet>): nat
  {
    if items == [] then 0 else Size(items[0]) + ItemsSize(items[1..])
  }

  lemma {:induction false} ItemSize(items: seq<Packet>, i: nat)
    requires i < |items|
    ensures Size(items[i]) <= ItemsSize(items)
  {
    if i > 0 {
      ItemSize(items[1..], i - 1);
    }
  }

  lemma SingletonSize(p: Packet)
    ensures ItemsSize([p]) == Size(p)
  {
    assert [p][1..] == [];
  }

  // compare_values

  /** compare_values: Some(true) when the pair is in the right order,
      Some(false) when it is not and None when nothing decides. An int
      compared with a list is compared as a one-element list. */
  function Compare(left: Packet, right: Packet): Option<bool>
    decreases Size(left) + Size(right), 0
  {
    match (left, right)
    case (Int(l), Int(r)) =>
      if l < r then Some(true) else if l > r then Some(false) else None
    case (List(ls), List(rs)) => CompareFrom(ls, rs, 0)
    case (Int(_), List(rs)) => SingletonSize(left); CompareFrom([left], rs, 0)
    case (List(ls), Int(_)) => SingletonSize(right); CompareFrom(ls, [right], 0)
  }

  /** The loop over the common positions from `i` on, then the lengths. */
  function CompareFrom(ls: seq<Packet>, rs: seq<Packet>, i: nat): Option<bool>
    requires i <= |ls| && i <= |rs|
    decreases ItemsSize(ls) + ItemsSize(rs), 1, |ls| - i
  {
    if i < |ls| && i < |rs| then
      ItemSize(ls, i);
      ItemSize(rs, i);
      var result := Compare(ls[i], rs[i]);
      if result != None then result else CompareFrom(ls, rs, i + 1)
    else if |ls| < |rs| then Some(true)
    else if |ls| > |rs| then Some(false)
    else None
  }

  /** One step of the loop over common positions. */
  lemma CompareFromStep(ls: seq<Packet>, rs: seq<Packet>, i: nat)
    requires i < |ls| && i < |rs|
    ensures CompareFrom(ls, rs, i)
      == if Compare(ls[i], rs[i]) != None then Compare(ls[i], rs[i]) else CompareFrom(ls, rs, i + 1)
  {
  }

  /** The int of a mixed pair is wrapped in a list and the comparison
      retried. */
  lemma WrapLeft(n: int, rs: seq<Packet>)
    ensures Compare(Int(n), List(rs)) == Compare(List([Int(n)]), List(rs))
  {
  }

  lemma WrapRight(ls: seq<Packet>, n: int)
    ensures Compare(List(ls), Int(n)) == Compare(List(ls), List([Int(n)]))
  {
  }

  /** A packet compared with itself decides nothing. */
  lemma {:induction false} CompareSelf(p: Packet)
    ensures Compare(p, p) == None
    decreases Size(p), 0
  {
    match p
    case Int(_) =>
    case List(items) => CompareFromSelf(items, 0);
  }

  lemma {:induction false} CompareFromSelf(items: seq<Packet>, i: nat)
    requires i <= |items|
    ensures CompareFrom(items, items, i) == None
    decreases ItemsSize(items), 1, |items| - i
  {
    if i < |items| {
      ItemSize(items, i);
      CompareSelf(items[i]);
      CompareFromSelf(items, i + 1);
    }
  }

  function Negate(r: Option<bool>): Option<bool>
  {
    match r
    case None => None
    case Some(b) => Some(!b)
  }

  /** Swapping the two sides negates the answer: a pair is in the right
      order exactly when the swapped pair is not. */
  lemma {:induction false} CompareFlip(left: Packet, right: Packet)
    ensures Compare(right, left) == Negate(Compare(left, right))
    ensures Compare(left, right) == Some(true) <==> Compare(right, left) == Some(false)
    decreases Size(left) + Size(right), 0
  {
    match (left, right)
    case (Int(_), Int(_)) =>
    case (List(ls), List(rs)) => CompareFromFlip(ls, rs, 0);
    case (Int(_), List(rs)) => SingletonSize(left); CompareFromFlip([left], rs, 0);
    case (List(ls), Int(_)) => SingletonSize(right); CompareFromFlip(ls, [right], 0);
  }

  lemma {:induction false} CompareFromFlip(ls: seq<Packet>, rs: seq<Packet>, i: nat)
    requires i <= |ls| && i <= |rs|
    ensures CompareFrom(rs, ls, i) == Negate(CompareFrom(ls, rs, i))
    decreases ItemsSize(ls) + ItemsSize(rs), 1, |ls| - i
  {
    if i < |ls| && i < |rs| {
      ItemSize(ls, i);
      ItemSize(rs, i);
      CompareFlip(ls[i], rs[i]);
      CompareFromFlip(ls, rs, i + 1);
    }
  }

  // compare_values orders packets: a total preorder

  /** The elements a comparison with a mixed pair looks at: an int stands
      for the one-element list holding it. */
  function AsList(p: Packet): seq<Packet>
  {
    match p
    case Int(_) => [p]
    case List(items) => items
  }

  lemma AsListSize(p: Packet)
    ensures ItemsSize(AsList(p)) <= Size(p)
    ensures p.List? ==> ItemsSize(AsList(p)) < Size(p)
  {
    if p.Int? {
      SingletonSize(p);
    }
  }

  /** Every comparison, even of two ints, is the comparison of the element
      lists. */
  lemma ViaLists(left: Packet, right: Packet)
    ensures Compare(left, right) == CompareFrom(AsList(left), AsList(right), 0)
  {
    if left.Int? && right.Int? {
      assert CompareFrom([left], [right], 1) == None;
    }
  }

  /** A comparison has three answers. */
  lemma Answers(r: Option<bool>)
    ensures r == None || r == Some(true) || r == Some(false)
  {
    match r
    case None =>
    case Some(b) => assert r == Some(b);
  }

  /** `left` comes before `right` or ties with it. */
  predicate Le(left: Packet, right: Packet)
  {
    Compare(left, right) != Some(false)
  }

  /** The answer for the outer pair of a chain of two answers that are not
      Some(false). */
  function Chain(first: Option<bool>, second: Option<bool>): Option<bool>
  {
    if first == Some(true) || second == Some(true) then Some(true) else None
  }

  /** Transitivity, of the order and of ties alike: a chain a, b, c with no
      pair out of order gives a before c when either step is in the right
      order, and a tie when both steps tie. */
  lemma {:induction false} Transitive(a: Packet, b: Packet, c: Packet)
    requires Le(a, b) && Le(b, c)
    ensures Compare(a, c) == Chain(Compare(a, b), Compare(b, c))
    decreases Size(a) + Size(b) + Size(c), 0
  {
    if !(a.Int? && b.Int? && c.Int?) {
      ViaLists(a, b);
      ViaLists(b, c);
      ViaLists(a, c);
      AsListSize(a);
      AsListSize(b);
      AsListSize(c);
      TransitiveFrom(AsList(a), AsList(b), AsList(c), 0);
    }
  }

  lemma {:induction false} TransitiveFrom(as_: seq<Packet>, bs: seq<Packet>, cs: seq<Packet>, i: nat)
    requires i <= |as_| && i <= |bs| && i <= |cs|
    requires CompareFrom(as_, bs, i) != Some(false) && CompareFrom(bs, cs, i) != Some(false)
    ensures CompareFrom(as_, cs, i) == Chain(CompareFrom(as_, bs, i), CompareFrom(bs, cs, i))
    decreases ItemsSize(as_) + ItemsSize(bs) + ItemsSize(cs), 1, |as_| - i
  {
    if i < |as_| && i < |bs| && i < |cs| {
      ItemSize(as_, i);
      ItemSize(bs, i);
      ItemSize(cs, i);
      CompareFromStep(as_, bs, i);
      CompareFromStep(bs, cs, i);
      CompareFromStep(as_, cs, i);
      Transitive(as_[i], bs[i], cs[i]);
      Answers(Compare(as_[i], bs[i]));
      Answers(Compare(bs[i], cs[i]));
      if Compare(as_[i], bs[i]) == None && Compare(bs[i], cs[i]) == None {
        TransitiveFrom(as_, bs, cs, i + 1);
      }
    }
  }

  // custom_comparator

  /** custom_comparator: the three answers as the numbers `cmp_to_key`
      expects, negative for "left first". */
  function Comparator(left: Packet, right: Packet): (c: int)
    ensures c == -1 <==> Compare(left, right) == Some(true)
    ensures c == 1 <==> Compare(left, right) == Some(false)
    ensures c == 0 <==> Compare(left, right) == None
  {
    Answers(Compare(left, right));
    match Compare(left, right)
    case None => 0
    case Some(b) => if b then -1 else 1
  }

  /** The comparator is a consistent one for a sort: zero on equal packets,
      antisymmetric, and transitive for "not after" and for ties. */
  lemma ComparatorOrders(a: Packet, b: Packet, c: Packet)
    ensures Comparator(a, a) == 0
    ensures Comparator(b, a) == -Comparator(a, b)
    ensures Comparator(a, b) <= 0 && Comparator(b, c) <= 0 ==> Comparator(a, c) <= 0
    ensures Comparator(a, b) == 0 && Comparator(b, c) == 0 ==> Comparator(a, c) == 0
  {
    CompareSelf(a);
    CompareFlip(a, b);
    if Le(a, b) && Le(b, c) {
      Transitive(a, b, c);
    }
  }

  // json.loads, for the values packets are made of

  /** A JSON integer without its sign: a lone '0', or a run of digits that
      does not start with '0'. */
  function ParseNatural(s: string): (r: Option<(nat, string)>)
    ensures r.Some? ==> |r.value.1| < |s|
  {
    if s != [] && s[0] == '0' then Some((0, s[1..]))
    else
      var k := DigitRun(s);
      if k == 0 then None else Some((DigitsValue(s[..k]), s[k..]))
  }

  /** A JSON integer: an optional '-' and then a natural number. */
  function ParseNumber(s: string): (r: Option<(int, string)>)
    ensures r.Some? ==> |r.value.1| < |s|
  {
    if s != [] && s[0] == '-' then
      var n :- ParseNatural(s[1..]);
      Some((-(n.0 as int), n.1))
    else
      var n :- ParseNatural(s);
      Some((n.0 as int, n.1))
  }

  /** JSON's white space, skipped around values: spaces, tabs, line feeds
      and carriage returns. */
  function SkipWhite(s: string): (r: string)
    ensures |r| <= |s|
  {
    if s != [] && IsMultispace(s[0]) then SkipWhite(s[1..]) else s
  }

  /** A JSON value that is an integer or an array of such values, with the
      white space around it, and the text after it. */
  function ParseValue(s: string): (r: Option<(Packet, string)>)
    ensures r.Some? ==> |r.value.1| < |s|
    decreases |s|, 0
  {
    var t := SkipWhite(s);
    if t != [] && t[0] == '[' then ParseArray(t[1..])
    else
      var n :- ParseNumber(t);
      Some((Int(n.0), SkipWhite(n.1)))
  }

  /** An array after its opening bracket: empty, or elements up to the
      closing bracket; then white space. */
  function ParseArray(s: string): (r: Option<(Packet, string)>)
    ensures r.Some? ==> |r.value.1| < |s|
    decreases |s|, 2
  {
    var u := SkipWhite(s);
    if u != [] && u[0] == ']' then Some((List([]), SkipWhite(u[1..])))
    else
      var items :- ParseItems(s);
      Some((List(items.0), SkipWhite(items.1)))
  }

  /** The elements of a non-empty array, separated by commas, up to and
      including the closing bracket. */
  function ParseItems(s: string): (r: Option<(seq<Packet>, string)>)
    ensures r.Some? ==> |r.value.0| >= 1 && |r.value.1| < |s|
    decreases |s|, 1
  {
    var first :- ParseValue(s);
    var rest := first.1;
    if rest != [] && rest[0] == ',' then
      var more :- ParseItems(rest[1..]);
      Some(([first.0] + more.0, more.1))
    else if rest != [] && rest[0] == ']' then Some(([first.0], rest[1..]))
    else None
  }

  /** convert_string_to_list: json.loads of a whole line; anything it would
      reject, or that is not an integer or an array, is None. */
  function ParseLine(line: string): Option<Packet>
  {
    var v :- ParseValue(line);
    if v.1 == [] then Some(v.0) else None
  }

  /** The compact JSON text of a packet, followed by `rest`. */
  function Render(p: Packet, rest: string): string
    decreases Size(p), 0
  {
    match p
    case Int(v) => IntToString(v) + rest
    case List(items) => if items == [] then "[]" + rest else "[" + RenderItems(items, "]" + rest)
  }

  function RenderItems(items: seq<Packet>, rest: string): string
    requires items != []
    decreases ItemsSize(items), 1
  {
    if |items| == 1 then Render(items[0], rest)
    else Render(items[0], "," + RenderItems(items[1..], rest))
  }

  /** Rendered packets start with a bracket, a sign or a digit. */
  lemma RenderStart(p: Packet, rest: string)
    ensures Render(p, rest) != []
    ensures var c := Render(p, rest)[0]; c == '[' || c == '-' || IsDigit(c)
  {
    match p
    case Int(v) =>
      if v >= 0 {
        assert Render(p, rest)[0] == NatToString(v)[0];
      } else {
        assert Render(p, rest)[0] == '-';
      }
    case List(items) =>
  }

  lemma {:induction false} NatToStringLead(n: nat)
    requires n >= 1
    ensures NatToString(n)[0] != '0'
  {
    if n >= 10 {
      NatToStringLead(n / 10);
    }
  }

  lemma ParseNaturalOfString(n: nat, rest: string)
    requires rest == [] || !IsDigit(rest[0])
    ensures ParseNatural(NatToString(n) + rest) == Some((n, rest))
  {
    var d := NatToString(n);
    if n == 0 {
      assert (d + rest)[1..] == rest;
    } else {
      NatToStringLead(n);
      DigitRunOfDigits(d, rest);
      assert (d + rest)[..|d|] == d;
      assert (d + rest)[|d|..] == rest;
    }
  }

  lemma ParseNumberOfString(v: int, rest: string)
    requires rest == [] || !IsDigit(rest[0])
    ensures ParseNumber(IntToString(v) + rest) == Some((v, rest))
  {
    if v < 0 {
      ParseNegativeOfString(-v, rest);
    } else {
      var d := NatToString(v);
      assert (d + rest)[0] == d[0];
      ParseNaturalOfString(v, rest);
    }
  }

  lemma ParseNegativeOfString(n: nat, rest: string)
    requires rest == [] || !IsDigit(rest[0])
    ensures ParseNumber("-" + NatToString(n) + rest) == Some((-(n as int), rest))
  {
    var d := NatToString(n);
    Assoc("-", d, rest);
    assert ("-" + (d + rest))[1..] == d + rest;
    ParseNaturalOfString(n, rest);
  }

  /** The text a packet is followed by in a line: its end, a comma or a
      closing bracket. */
  predicate Follows(rest: string)
  {
    rest == [] || rest[0] == ',' || rest[0] == ']'
  }

  /** The steps of ParseValue and ParseItems on text without white space. */
  lemma ValueOfNumber(s: string, v: int, rest: string)
    requires s != [] && !IsMultispace(s[0]) && s[0] != '['
    requires ParseNumber(s) == Some((v, rest)) && Follows(rest)
    ensures ParseValue(s) == Some((Int(v), rest))
  {
    assert SkipWhite(rest) == rest;
  }

  lemma ValueOfEmpty(s: string, rest: string)
    requires |s| >= 2 && s[0] == '[' && s[1] == ']' && s[2..] == rest && Follows(rest)
    ensures ParseValue(s) == Some((List([]), rest))
  {
    assert SkipWhite(s) == s;
    assert ParseValue(s) == ParseArray(s[1..]);
    var t := s[1..];
    assert t[0] == ']' && t[1..] == rest;
    assert SkipWhite(t) == t;
    assert SkipWhite(rest) == rest;
    assert ParseArray(t) == Some((List([]), rest));
  }

  /** Where the brackets of "[]" + rest are. */
  lemma EmptyListText(rest: string)
    ensures var s := "[]" + rest; |s| >= 2 && s[0] == '[' && s[1] == ']' && s[2..] == rest
  {
  }

  lemma ValueOfItems(inner: string, items: seq<Packet>, rest: string)
    requires inner != [] && !IsMultispace(inner[0]) && inner[0] != ']'
    requires ParseItems(inner) == Some((items, rest)) && Follows(rest)
    ensures ParseValue("[" + inner) == Some((List(items), rest))
  {
    var s := "[" + inner;
    assert s[0] == '[' && s[1..] == inner;
    assert SkipWhite(rest) == rest;
  }

  lemma ItemsLast(s: string, p: Packet, rest: string)
    requires ParseValue(s) == Some((p, "]" + rest))
    ensures ParseItems(s) == Some(([p], rest))
  {
    assert ("]" + rest)[1..] == rest;
  }

  lemma ItemsMore(s: string, p: Packet, more: string, items: seq<Packet>, rest: string)
    requires ParseValue(s) == Some((p, "," + more))
    requires ParseItems(more) == Some((items, rest))
    ensures ParseItems(s) == Some(([p] + items, rest))
  {
    assert ("," + more)[1..] == more;
  }

  /** json.loads reads back the rendered text of a packet. */
  lemma {:induction false} ParseRender(p: Packet, rest: string)
    requires Follows(rest)
    ensures ParseValue(Render(p, rest)) == Some((p, rest))
    decreases Size(p), 0
  {
    match p
    case Int(v) =>
      RenderStart(p, rest);
      ParseNumberOfString(v, rest);
      ValueOfNumber(Render(p, rest), v, rest);
    case List(items) =>
      if items == [] {
        EmptyListText(rest);
        ValueOfEmpty("[]" + rest, rest);
      } else {
        var inner := RenderItems(items, "]" + rest);
        ParseItemsRender(items, rest);
        RenderItemsStart(items, "]" + rest);
        ValueOfItems(inner, items, rest);
      }
  }

  lemma RenderItemsStart(items: seq<Packet>, rest: string)
    requires items != []
    ensures RenderItems(items, rest) != []
    ensures var c := RenderItems(items, rest)[0]; c == '[' || c == '-' || IsDigit(c)
  {
    if |items| == 1 {
      RenderStart(items[0], rest);
    } else {
      RenderStart(items[0], "," + RenderItems(items[1..], rest));
    }
  }

  lemma {:induction false} ParseItemsRender(items: seq<Packet>, rest: string)
    requires items != [] && Follows(rest)
    ensures ParseItems(RenderItems(items, "]" + rest)) == Some((items, rest))
    decreases ItemsSize(items), 1
  {
    if |items| == 1 {
      ParseRender(items[0], "]" + rest);
      ItemsLast(RenderItems(items, "]" + rest), items[0], rest);
      assert [items[0]] == items;
    } else {
      var more := RenderItems(items[1..], "]" + rest);
      ParseRender(items[0], "," + more);
      ParseItemsRender(items[1..], rest);
      ItemsMore(RenderItems(items, "]" + rest), items[0], more, items[1..], rest);
      assert [items[0]] + items[1..] == items;
    }
  }

  /** A line holding the rendered packet parses back to it. */
  lemma ParseLineRender(p: Packet)
    ensures ParseLine(Render(p, "")) == Some(p)
  {
    ParseRender(p, "");
  }

  // parse_input_sequence_to_pairs

  /** Pieces written one after another with a blank line between
      neighbours: the inverse of SplitBlocks. */
  function JoinBlocks(blocks: seq<string>): string
  {
    if blocks == [] then ""
    else if |blocks| == 1 then blocks[0]
    else blocks[0] + ("\n\n" + JoinBlocks(blocks[1..]))
  }

  /** No two line feeds in a row. */
  predicate NoBlankLine(s: string)
  {
    forall j :: 0 < j < |s| ==> !(s[j - 1] == '\n' && s[j] == '\n')
  }

  predicate EndsInLineFeed(s: string)
  {
    s != [] && s[|s| - 1] == '\n'
  }

  /** `blocks` is how Python's `str.split("\n\n")` cuts `s`: joined back they
      give `s`, no piece holds two line feeds in a row, and no piece but the
      last ends in one (it would have met the next "\n\n" earlier). */
  predicate BlocksOf(blocks: seq<string>, s: string)
  {
    |blocks| >= 1 && JoinBlocks(blocks) == s
    && (forall i :: 0 <= i < |blocks| ==> NoBlankLine(blocks[i]))
    && (forall i :: 0 <= i < |blocks| - 1 ==> !EndsInLineFeed(blocks[i]))
  }

  /** Python's `str.split("\n\n")`: the pieces between the occurrences of
      "\n\n" found from the left without overlap. */
  function SplitBlocks(s: string): (r: seq<string>)
    ensures BlocksOf(r, s)
  {
    if s == [] then [""]
    else if |s| >= 2 && s[0] == '\n' && s[1] == '\n' then
      var rest := SplitBlocks(s[2..]);
      BlankFirst(s, rest);
      [""] + rest
    else
      var rest := SplitBlocks(s[1..]);
      CharFirstJoin(s, rest);
      CharFirstPieces(s, rest);
      [[s[0]] + rest[0]] + rest[1..]
  }

  lemma BlankFirst(s: string, rest: seq<string>)
    requires |s| >= 2 && s[0] == '\n' && s[1] == '\n' && BlocksOf(rest, s[2..])
    ensures BlocksOf([""] + rest, s)
  {
    var r := [""] + rest;
    assert r[1..] == rest;
    assert s == "\n\n" + s[2..];
  }

  lemma CharFirstJoin(s: string, rest: seq<string>)
    requires s != [] && |rest| >= 1 && JoinBlocks(rest) == s[1..]
    ensures JoinBlocks([[s[0]] + rest[0]] + rest[1..]) == s
  {
    var r := [[s[0]] + rest[0]] + rest[1..];
    assert r[1..] == rest[1..];
    assert s == [s[0]] + s[1..];
    if |rest| > 1 {
      Assoc([s[0]], rest[0], "\n\n" + JoinBlocks(rest[1..]));
    }
  }

  lemma CharFirstPieces(s: string, rest: seq<string>)
    requires s != [] && !(|s| >= 2 && s[0] == '\n' && s[1] == '\n') && BlocksOf(rest, s[1..])
    ensures var r := [[s[0]] + rest[0]] + rest[1..];
      (forall i :: 0 <= i < |r| ==> NoBlankLine(r[i]))
      && (forall i :: 0 <= i < |r| - 1 ==> !EndsInLineFeed(r[i]))
  {
    var first := [s[0]] + rest[0];
    var r := [first] + rest[1..];
    if |rest| > 1 {
      assert rest[0] + ("\n\n" + JoinBlocks(rest[1..])) == s[1..];
      if rest[0] == [] {
        assert s[1..][0] == '\n';
      } else {
        assert first[|first| - 1] == rest[0][|rest[0]| - 1];
      }
    } else {
      assert rest[0] == s[1..];
    }
    if rest[0] != [] {
      assert s[1] == rest[0][0];
    }
    assert NoBlankLine(first) by {
      forall j | 0 < j < |first|
        ensures !(first[j - 1] == '\n' && first[j] == '\n')
      {
        if j > 1 {
          assert first[j - 1] == rest[0][j - 2] && first[j] == rest[0][j - 1];
        }
      }
    }
    assert forall i :: 1 <= i < |r| ==> r[i] == rest[i];
  }

  /** parse_input_sequence_to_pairs: the lines of each block, as the tuples
      the first part unpacks. */
  function PairLines(input: string): (r: seq<seq<string>>)
    ensures |r| == |SplitBlocks(input)|
    ensures forall i :: 0 <= i < |r| ==> Join(r[i], '\n') == SplitBlocks(input)[i]
  {
    var blocks := SplitBlocks(input);
    assert forall i :: 0 <= i < |blocks| ==> Join(Split(blocks[i], '\n'), '\n') == blocks[i] by {
      forall i | 0 <= i < |blocks| ensures Join(Split(blocks[i], '\n'), '\n') == blocks[i] {
        SplitParts(blocks[i], '\n');
      }
    }
    seq(|blocks|, i requires 0 <= i < |blocks| => Split(blocks[i], '\n'))
  }

  // sum_indices_correct_order

  /** A tuple the unpacking accepts: exactly two lines, both of them packets. */
  predicate PairParses(t: seq<string>)
  {
    |t| == 2 && ParseLine(t[0]).Some? && ParseLine(t[1]).Some?
  }

  /** The two packets of an accepted tuple. */
  function PairOf(t: seq<string>): (Packet, Packet)
    requires PairParses(t)
  {
    (ParseLine(t[0]).value, ParseLine(t[1]).value)
  }

  /** The unpacking `for left, right in ...` and json.loads of both sides,
      tuple by tuple; the first tuple it rejects raises. */
  function ParsePairs(tuples: seq<seq<string>>): Option<seq<(Packet, Packet)>>
  {
    if tuples == [] then Some([])
    else if !PairParses(tuples[0]) then None
    else
      var more :- ParsePairs(tuples[1..]);
      Some([PairOf(tuples[0])] + more)
  }

  /** The unpacking succeeds exactly when every tuple has two lines that
      both parse, and then gives their packets in order. */
  lemma {:induction false} ParsePairsMeans(tuples: seq<seq<string>>)
    ensures ParsePairs(tuples).Some? <==> forall i :: 0 <= i < |tuples| ==> PairParses(tuples[i])
    ensures ParsePairs(tuples).Some? ==> |ParsePairs(tuples).value| == |tuples|
    ensures ParsePairs(tuples).Some? ==>
      forall i :: 0 <= i < |tuples| ==> ParsePairs(tuples).value[i] == PairOf(tuples[i])
  {
    if tuples != [] {
      ParsePairsMeans(tuples[1..]);
      assert forall i :: 1 <= i < |tuples| ==> tuples[i] == tuples[1..][i - 1];
      if !PairParses(tuples[0]) {
        assert ParsePairs(tuples).None?;
      }
    }
  }

  /** compare_values of every pair. */
  function Verdicts(pairs: seq<(Packet, Packet)>): seq<Option<bool>>
  {
    seq(|pairs|, i requires 0 <= i < |pairs| => Compare(pairs[i].0, pairs[i].1))
  }

  /** The sum of the 1-based positions holding `v`. */
  function IndexSum(verdicts: seq<Option<bool>>, v: Option<bool>): nat
  {
    if verdicts == [] then 0
    else
      var n := |verdicts|;
      IndexSum(verdicts[..n - 1], v) + (if verdicts[n - 1] == v then n else 0)
  }

  /** 1 + 2 + ... + n. */
  function Triangle(n: nat): nat
  {
    if n == 0 then 0 else Triangle(n - 1) + n
  }

  lemma {:induction false} TriangleClosed(n: nat)
    ensures Triangle(n) == n * (n + 1) / 2
  {
    if n > 0 {
      TriangleClosed(n - 1);
      assert n * (n + 1) == (n - 1) * n + 2 * n;
    }
  }

  /** Every position holds one of the three answers, so the three index sums
      add up to 1 + 2 + ... + n. */
  lemma {:induction false} IndexSumPartition(verdicts: seq<Option<bool>>)
    ensures IndexSum(verdicts, Some(true)) + IndexSum(verdicts, Some(false)) + IndexSum(verdicts, None)
      == Triangle(|verdicts|)
  {
    if verdicts != [] {
      var n := |verdicts|;
      IndexSumPartition(verdicts[..n - 1]);
      Answers(verdicts[n - 1]);
    }
  }

  /** sum_indices_correct_order: the sum of the 1-based indices of the pairs
      in the right order; None where Python raises (a block without exactly
      two lines, a line json.loads rejects). */
  function SumIndicesCorrectOrder(input: string): (r: Option<nat>)
    ensures r.Some? <==> ParsePairs(PairLines(input)).Some?
    ensures r.Some? ==> r.value <= Triangle(|SplitBlocks(input)|)
  {
    ParsePairsMeans(PairLines(input));
    var pairs :- ParsePairs(PairLines(input));
    var verdicts := Verdicts(pairs);
    IndexSumPartition(verdicts);
    Some(IndexSum(verdicts, Some(true)))
  }

  /** Reading every answer the other way round. */
  lemma {:induction false} IndexSumNegate(a: seq<Option<bool>>, b: seq<Option<bool>>)
    requires |a| == |b| && forall i :: 0 <= i < |a| ==> b[i] == Negate(a[i])
    ensures IndexSum(b, Some(true)) == IndexSum(a, Some(false))
    ensures IndexSum(b, None) == IndexSum(a, None)
  {
    if a != [] {
      var n := |a|;
      IndexSumNegate(a[..n - 1], b[..n - 1]);
      Answers(a[n - 1]);
    }
  }

  function Swap(pairs: seq<(Packet, Packet)>): seq<(Packet, Packet)>
  {
    seq(|pairs|, i requires 0 <= i < |pairs| => (pairs[i].1, pairs[i].0))
  }

  /** With every pair swapped, the pairs in the right order are exactly the
      ones that were in the wrong order, and the ties stay. */
  lemma SwapPairs(pairs: seq<(Packet, Packet)>)
    ensures IndexSum(Verdicts(Swap(pairs)), Some(true)) == IndexSum(Verdicts(pairs), Some(false))
    ensures IndexSum(Verdicts(Swap(pairs)), None) == IndexSum(Verdicts(pairs), None)
  {
    forall i | 0 <= i < |pairs|
      ensures Verdicts(Swap(pairs))[i] == Negate(Verdicts(pairs)[i])
    {
      CompareFlip(pairs[i].0, pairs[i].1);
    }
    IndexSumNegate(Verdicts(pairs), Verdicts(Swap(pairs)));
  }

  // parse_input_sequence_to_list

  /** The packets of the non-empty lines, in order; None when a non-empty
      line is not a packet. */
  function ParseLines(lines: seq<string>): (r: Option<seq<Packet>>)
    ensures r.Some? <==> forall i :: 0 <= i < |lines| && lines[i] != "" ==> ParseLine(lines[i]).Some?
    ensures r.Some? ==> |r.value| <= |lines|
  {
    if lines == [] then Some([])
    else
      assert forall i :: 1 <= i < |lines| ==> lines[i] == lines[1..][i - 1];
      if lines[0] == "" then ParseLines(lines[1..])
      else
        var p :- ParseLine(lines[0]);
        var more :- ParseLines(lines[1..]);
        Some([p] + more)
  }

  /** parse_input_sequence_to_list: every line of the input that is not
      empty, read as a packet. */
  function ParseList(input: string): Option<seq<Packet>>
  {
    ParseLines(Split(input, '\n'))
  }

  /** Lines holding rendered packets, with blank lines anywhere between
      them, read back as those packets. */
  lemma {:induction false} ParseLinesRender(ps: seq<Packet>, blanks: seq<nat>)
    requires |blanks| == |ps|
    ensures ParseLines(Spaced(ps, blanks)) == Some(ps)
    decreases |ps|, if blanks == [] then 0 else blanks[0]
  {
    if ps != [] {
      if blanks[0] > 0 {
        var lines := Spaced(ps, blanks);
        ParseLinesRender(ps, [blanks[0] - 1] + blanks[1..]);
        assert lines[1..] == Spaced(ps, [blanks[0] - 1] + blanks[1..]);
      } else {
        ParseLineRender(ps[0]);
        ParseLinesRender(ps[1..], blanks[1..]);
        assert [ps[0]] + ps[1..] == ps;
      }
    }
  }

  /** The lines of the packets, each after as many empty lines as `blanks`
      says. */
  function Spaced(ps: seq<Packet>, blanks: seq<nat>): seq<string>
    requires |blanks| == |ps|
    decreases |ps|, if blanks == [] then 0 else blanks[0]
  {
    if ps == [] then []
    else if blanks[0] > 0 then [""] + Spaced(ps, [blanks[0] - 1] + blanks[1..])
    else [Render(ps[0], "")] + Spaced(ps[1..], blanks[1..])
  }

  // sort_packets_with_dividers

  /** The divider packets [[2]] and [[6]]. */
  const D2: Packet := List([List([Int(2)])])
  const D6: Packet := List([List([Int(6)])])

  /** Every packet is in order with every later one. */
  predicate Sorted(s: seq<Packet>)
  {
    forall i, j :: 0 <= i < j < |s| ==> Le(s[i], s[j])
  }

  /** `p` put before the first packet it is in order with. */
  function InsertPacket(p: Packet, s: seq<Packet>): (r: seq<Packet>)
    ensures multiset(r) == multiset(s) + multiset{p}
  {
    if s == [] then [p]
    else if Le(p, s[0]) then [p] + s
    else
      assert s == [s[0]] + s[1..];
      [s[0]] + InsertPacket(p, s[1..])
  }

  lemma {:induction false} InsertSorted(p: Packet, s: seq<Packet>)
    requires Sorted(s)
    ensures Sorted(InsertPacket(p, s))
  {
    if s == [] {
    } else if Le(p, s[0]) {
      InsertFront(p, s);
    } else {
      CompareFlip(p, s[0]);
      assert Sorted(s[1..]) by {
        assert forall i :: 0 <= i < |s| - 1 ==> s[1..][i] == s[i + 1];
      }
      InsertSorted(p, s[1..]);
      InsertBehind(p, s, InsertPacket(p, s[1..]));
    }
  }

  lemma InsertFront(p: Packet, s: seq<Packet>)
    requires Sorted(s) && s != [] && Le(p, s[0])
    ensures Sorted([p] + s)
  {
    forall j | 0 <= j < |s| ensures Le(p, s[j]) {
      if j > 0 {
        Transitive(p, s[0], s[j]);
      }
    }
    var r := [p] + s;
    assert forall j :: 1 <= j < |r| ==> r[j] == s[j - 1];
  }

  lemma InsertBehind(p: Packet, s: seq<Packet>, tail: seq<Packet>)
    requires Sorted(s) && s != [] && Le(s[0], p)
    requires Sorted(tail) && multiset(tail) == multiset(s[1..]) + multiset{p}
    ensures Sorted([s[0]] + tail)
  {
    forall j | 0 <= j < |tail| ensures Le(s[0], tail[j]) {
      assert tail[j] in multiset(tail);
      if tail[j] != p {
        assert tail[j] in multiset(s[1..]);
        var k :| 0 <= k < |s[1..]| && s[1..][k] == tail[j];
        assert s[k + 1] == tail[j];
      }
    }
    var r := [s[0]] + tail;
    assert forall j :: 1 <= j < |r| ==> r[j] == tail[j - 1];
  }

  /** An insertion sort by the comparator, standing for `list.sort` with
      `cmp_to_key(custom_comparator)`: a sorted permutation. */
  function SortPackets(s: seq<Packet>): (r: seq<Packet>)
    ensures Sorted(r)
    ensures multiset(r) == multiset(s)
  {
    if s == [] then []
    else
      assert s == [s[0]] + s[1..];
      InsertSorted(s[0], SortPackets(s[1..]));
      InsertPacket(s[0], SortPackets(s[1..]))
  }

  /** sort_packets_with_dividers: the packets with the two dividers appended,
      sorted. */
  method SortPacketsWithDividers(packets: seq<Packet>) returns (sorted: seq<Packet>)
    ensures Sorted(sorted)
    ensures multiset(sorted) == multiset(packets) + multiset{D2, D6}
  {
    var list := packets;
    list := list + [D2];
    list := list + [D6];
    sorted := SortPackets(list);
  }

  // decoder_key

  /** list.index: the first position holding `x`; None where Python raises
      ValueError. */
  function IndexOf(s: seq<Packet>, x: Packet): (r: Option<nat>)
    ensures r.Some? ==> r.value < |s| && s[r.value] == x && forall i :: 0 <= i < r.value ==> s[i] != x
    ensures r.None? <==> x !in s
  {
    if s == [] then None
    else if s[0] == x then Some(0)
    else
      var k :- IndexOf(s[1..], x);
      Some(k + 1)
  }

  /** 1 for a packet in the right order before `d`. */
  function BelowOne(d: Packet): Packet -> int
  {
    p => if Compare(p, d) == Some(true) then 1 else 0
  }

  /** The number of packets that come before `d` in the right order. */
  function CountBelow(s: seq<Packet>, d: Packet): int
  {
    SumOf(s, BelowOne(d))
  }

  /** Every packet that ties with `d` is `d` itself. */
  predicate OnlySelfTies(s: seq<Packet>, d: Packet)
  {
    forall x :: x in s && Compare(x, d) == None ==> x == d
  }

  lemma {:induction false} CountAll(s: seq<Packet>, d: Packet, v: int)
    requires forall x :: x in s ==> BelowOne(d)(x) == v
    ensures CountBelow(s, d) == v * |s|
  {
    if s != [] {
      assert forall x :: x in s[1..] ==> x in s;
      CountAll(s[1..], d, v);
    }
  }

  /** In a sorted list where only `d` ties with `d`, the first `d` sits
      after exactly the packets that come before it. */
  lemma SortedPosition(s: seq<Packet>, d: Packet, k: nat)
    requires Sorted(s) && OnlySelfTies(s, d)
    requires k < |s| && s[k] == d && forall i :: 0 <= i < k ==> s[i] != d
    ensures CountBelow(s, d) == k
  {
    forall x | x in s[..k] ensures BelowOne(d)(x) == 1 {
      var i :| 0 <= i < k && s[..k][i] == x;
      assert s[i] == x && Le(s[i], s[k]);
      Answers(Compare(x, d));
    }
    forall x | x in s[k..] ensures BelowOne(d)(x) == 0 {
      var j :| 0 <= j < |s| - k && s[k..][j] == x;
      assert s[k + j] == x;
      if j == 0 {
        CompareSelf(d);
      } else {
        assert Le(s[k], s[k + j]);
        CompareFlip(d, x);
      }
    }
    CountAll(s[..k], d, 1);
    CountAll(s[k..], d, 0);
    assert s == s[..k] + s[k..];
    SumOfAppend(s[..k], s[k..], BelowOne(d));
  }

  /** Every input packet that ties with a divider is that divider. */
  predicate DividersDecide(packets: seq<Packet>)
  {
    OnlySelfTies(packets, D2) && OnlySelfTies(packets, D6)
  }

  /** decoder_key: the product of the 1-based positions of [[2]] and [[6]]
      after sorting with the dividers; None where the input does not parse.
      When only the dividers themselves tie with the dividers, the positions
      are fixed by counting: one more than the packets before [[2]], and two
      more than the packets before [[6]], since [[2]] is one of those. */
  method DecoderKey(input: string) returns (key: Option<int>)
    ensures key.Some? <==> ParseList(input).Some?
    ensures key.Some? && DividersDecide(ParseList(input).value) ==>
      key.value == (1 + CountBelow(ParseList(input).value, D2)) * (2 + CountBelow(ParseList(input).value, D6))
  {
    var parsed := ParseList(input);
    if parsed.None? {
      return None;
    }
    var k := DividerKey(parsed.value);
    key := Some(k);
  }

  /** The decoder key of parsed packets. */
  method DividerKey(packets: seq<Packet>) returns (key: int)
    ensures DividersDecide(packets) ==>
      key == (1 + CountBelow(packets, D2)) * (2 + CountBelow(packets, D6))
  {
    var sorted := SortPacketsWithDividers(packets);
    KeyOfSorted(packets, sorted);
    key := KeyOf(sorted).value;
  }

  /** The product of the 1-based positions of the first [[2]] and the first
      [[6]]; None where one of them is missing. */
  function KeyOf(sorted: seq<Packet>): Option<int>
  {
    var i2 :- IndexOf(sorted, D2);
    var i6 :- IndexOf(sorted, D6);
    Some((i2 + 1) * (i6 + 1))
  }

  lemma KeyOfSorted(packets: seq<Packet>, sorted: seq<Packet>)
    requires Sorted(sorted) && multiset(sorted) == multiset(packets) + multiset{D2, D6}
    ensures KeyOf(sorted).Some?
    ensures DividersDecide(packets) ==>
      KeyOf(sorted).value == (1 + CountBelow(packets, D2)) * (2 + CountBelow(packets, D6))
  {
    DividersPresent(packets, sorted);
    var i2 := IndexOf(sorted, D2).value;
    var i6 := IndexOf(sorted, D6).value;
    if DividersDecide(packets) {
      DividerPositions(packets, sorted, i2, i6);
    }
  }

  lemma DividersPresent(packets: seq<Packet>, sorted: seq<Packet>)
    requires multiset(sorted) == multiset(packets) + multiset{D2, D6}
    ensures IndexOf(sorted, D2).Some? && IndexOf(sorted, D6).Some?
  {
    assert D2 in multiset(sorted) && D6 in multiset(sorted);
  }

  lemma DividerPositions(packets: seq<Packet>, sorted: seq<Packet>, i2: nat, i6: nat)
    requires DividersDecide(packets) && Sorted(sorted)
    requires multiset(sorted) == multiset(packets) + multiset{D2, D6}
    requires IndexOf(sorted, D2) == Some(i2) && IndexOf(sorted, D6) == Some(i6)
    ensures i2 == CountBelow(packets, D2) && i6 == 1 + CountBelow(packets, D6)
  {
    var all := packets + [D2, D6];
    assert multiset(all) == multiset(sorted);
    DividersInOrder();
    DividersDecideSorted(packets, sorted);
    SortedPosition(sorted, D2, i2);
    SortedPosition(sorted, D6, i6);
    SumOfPermutation(all, sorted, BelowOne(D2));
    SumOfPermutation(all, sorted, BelowOne(D6));
    CountDividers(packets);
  }

  /** [[2]] comes before [[6]]; each ties with itself. */
  lemma DividersInOrder()
    ensures Compare(D2, D6) == Some(true) && Compare(D6, D2) == Some(false)
    ensures Compare(D2, D2) == None && Compare(D6, D6) == None
  {
    CompareSelf(D2);
    CompareSelf(D6);
  }

  lemma DividersDecideSorted(packets: seq<Packet>, sorted: seq<Packet>)
    requires DividersDecide(packets)
    requires multiset(sorted) == multiset(packets) + multiset{D2, D6}
    ensures OnlySelfTies(sorted, D2) && OnlySelfTies(sorted, D6)
  {
    DividersInOrder();
    forall x | x in sorted ensures (Compare(x, D2) == None ==> x == D2) && (Compare(x, D6) == None ==> x == D6) {
      assert x in multiset(sorted);
      assert x in packets || x == D2 || x == D6;
    }
  }

  lemma CountDividers(packets: seq<Packet>)
    ensures CountBelow(packets + [D2, D6], D2) == CountBelow(packets, D2)
    ensures CountBelow(packets + [D2, D6], D6) == CountBelow(packets, D6) + 1
  {
    DividersInOrder();
    SumOfAppend(packets, [D2, D6], BelowOne(D2));
    SumOfAppend(packets, [D2, D6], BelowOne(D6));
    assert [D2, D6][1..] == [D6] && [D6][1..] == [];
    assert BelowOne(D2)(D2) == 0 && BelowOne(D2)(D6) == 0;
    assert BelowOne(D6)(D2) == 1 && BelowOne(D6)(D6) == 0;
    assert SumOf([D6], BelowOne(D2)) == 0 && SumOf([D6], BelowOne(D6)) == 0;
    assert SumOf([D2, D6], BelowOne(D2)) == 0 && SumOf([D2, D6], BelowOne(D6)) == 1;
  }
}
