/** The worked example of day 13: eight pairs of packets, of which pairs 1,
    2, 4 and 6 are in the right order (index sum 13), and the decoder key 140
    of the sixteen packets with the two dividers. */
module PacketsExamples {
  import opened Wrappers
  import opened Seqs
  import opened Packets

  /** json.loads rejects a trailing comma and a leading zero, and reads a
      negative integer. */
  lemma TrailingComma()
    ensures ParseLine("[1,]") == None
  {
  }

  lemma LeadingZero()
    ensures ParseLine("[01]") == None
  {
  }

  lemma Negative()
    ensures ParseLine("-3") == Some(Int(-3))
  {
  }

  function Ints(xs: seq<int>): seq<Packet>
  {
    seq(|xs|, i requires 0 <= i < |xs| => Int(xs[i]))
  }

  const LEFT1: Packet := List(Ints([1, 1, 3, 1, 1]))
  const RIGHT1: Packet := List(Ints([1, 1, 5, 1, 1]))
  const LEFT2: Packet := List([List([Int(1)]), List(Ints([2, 3, 4]))])
  const RIGHT2: Packet := List([List([Int(1)]), Int(4)])
  const LEFT3: Packet := List([Int(9)])
  const RIGHT3: Packet := List([List(Ints([8, 7, 6]))])
  const LEFT4: Packet := List([List(Ints([4, 4])), Int(4), Int(4)])
  const RIGHT4: Packet := List([List(Ints([4, 4])), Int(4), Int(4), Int(4)])
  const LEFT5: Packet := List(Ints([7, 7, 7, 7]))
  const RIGHT5: Packet := List(Ints([7, 7, 7]))
  const LEFT6: Packet := List([])
  const RIGHT6: Packet := List([Int(3)])
  const LEFT7: Packet := List([List([List([])])])
  const RIGHT7: Packet := List([List([])])
  const LEFT8: Packet := List([Int(1), List([Int(2), List([Int(3), List([Int(4), List(Ints([5, 6, 7]))])])]), Int(8), Int(9)])
  const RIGHT8: Packet := List([Int(1), List([Int(2), List([Int(3), List([Int(4), List(Ints([5, 6, 0]))])])]), Int(8), Int(9)])

  /** The nested lists of pair 8, from the innermost out. */
  function Nest(depth: nat, last: int): Packet
  {
    if depth == 0 then List(Ints([5, 6, last])) else List([Int(5 - depth), Nest(depth - 1, last)])
  }

  lemma Pair1() ensures Compare(LEFT1, RIGHT1) == Some(true) {}
  lemma Pair2() ensures Compare(LEFT2, RIGHT2) == Some(true) {}
  lemma Pair3() ensures Compare(LEFT3, RIGHT3) == Some(false) {}
  lemma Pair4() ensures Compare(LEFT4, RIGHT4) == Some(true) {}
  lemma Pair5() ensures Compare(LEFT5, RIGHT5) == Some(false) {}
  lemma Pair6() ensures Compare(LEFT6, RIGHT6) == Some(true) {}
  lemma Pair7() ensures Compare(LEFT7, RIGHT7) == Some(false) {}
  lemma Pair8() ensures Compare(LEFT8, RIGHT8) == Some(false)
  {
    assert Compare(Nest(0, 7), Nest(0, 0)) == Some(false);
    assert Compare(Nest(1, 7), Nest(1, 0)) == Some(false);
    assert Compare(Nest(2, 7), Nest(2, 0)) == Some(false);
    assert Compare(Nest(3, 7), Nest(3, 0)) == Some(false);
    assert LEFT8 == List([Int(1), Nest(3, 7), Int(8), Int(9)]);
    assert RIGHT8 == List([Int(1), Nest(3, 0), Int(8), Int(9)]);
  }

  const EXAMPLE: seq<(Packet, Packet)> := [
    (LEFT1, RIGHT1), (LEFT2, RIGHT2), (LEFT3, RIGHT3), (LEFT4, RIGHT4),
    (LEFT5, RIGHT5), (LEFT6, RIGHT6), (LEFT7, RIGHT7), (LEFT8, RIGHT8)]

  const VERDICTS: seq<Option<bool>> := [Some(true), Some(true), Some(false), Some(true),
                                        Some(false), Some(true), Some(false), Some(false)]

  /** Pairs 1, 2, 4 and 6 are in the right order. */
  lemma ExampleVerdicts()
    ensures Verdicts(EXAMPLE) == VERDICTS
  {
    Pair1(); Pair2(); Pair3(); Pair4(); Pair5(); Pair6(); Pair7(); Pair8();
  }

  /** Their indices add up to 13. */
  lemma ExampleIndexSum()
    ensures IndexSum(Verdicts(EXAMPLE), Some(true)) == 13
  {
    ExampleVerdicts();
    var v := VERDICTS;
    assert IndexSum(v[..1], Some(true)) == 1 by { assert v[..1][..0] == []; }
    assert IndexSum(v[..2], Some(true)) == 3 by { assert v[..2][..1] == v[..1]; }
    assert IndexSum(v[..3], Some(true)) == 3 by { assert v[..3][..2] == v[..2]; }
    assert IndexSum(v[..4], Some(true)) == 7 by { assert v[..4][..3] == v[..3]; }
    assert IndexSum(v[..5], Some(true)) == 7 by { assert v[..5][..4] == v[..4]; }
    assert IndexSum(v[..6], Some(true)) == 13 by { assert v[..6][..5] == v[..5]; }
    assert IndexSum(v[..7], Some(true)) == 13 by { assert v[..7][..6] == v[..6]; }
    assert v[..8] == v;
  }

  // part two: the sixteen packets in input order

  const GROUP1: seq<Packet> := [LEFT1, RIGHT1, LEFT2, RIGHT2]
  const GROUP2: seq<Packet> := [LEFT3, RIGHT3, LEFT4, RIGHT4]
  const GROUP3: seq<Packet> := [LEFT5, RIGHT5, LEFT6, RIGHT6]
  const GROUP4: seq<Packet> := [LEFT7, RIGHT7, LEFT8, RIGHT8]
  const PACKETS: seq<Packet> := GROUP1 + GROUP2 + GROUP3 + GROUP4

  lemma CountFour(a: Packet, b: Packet, c: Packet, e: Packet, d: Packet)
    ensures CountBelow([a, b, c, e], d) == BelowOne(d)(a) + BelowOne(d)(b) + BelowOne(d)(c) + BelowOne(d)(e)
  {
    var f := BelowOne(d);
    assert [e][1..] == [] && SumOf([e], f) == f(e);
    assert [c, e][1..] == [e] && SumOf([c, e], f) == f(c) + f(e);
    assert [b, c, e][1..] == [c, e] && SumOf([b, c, e], f) == f(b) + f(c) + f(e);
    assert [a, b, c, e][1..] == [b, c, e];
  }

  lemma Group1()
    ensures Compare(LEFT1, D2) == Some(true) && Compare(RIGHT1, D2) == Some(true)
    ensures Compare(LEFT2, D2) == Some(true) && Compare(RIGHT2, D2) == Some(true)
    ensures Compare(LEFT1, D6) == Some(true) && Compare(RIGHT1, D6) == Some(true)
    ensures Compare(LEFT2, D6) == Some(true) && Compare(RIGHT2, D6) == Some(true)
    ensures CountBelow(GROUP1, D2) == 4 && CountBelow(GROUP1, D6) == 4
  {
    CountFour(LEFT1, RIGHT1, LEFT2, RIGHT2, D2);
    CountFour(LEFT1, RIGHT1, LEFT2, RIGHT2, D6);
  }

  lemma Group2()
    ensures Compare(LEFT3, D2) == Some(false) && Compare(RIGHT3, D2) == Some(false)
    ensures Compare(LEFT4, D2) == Some(false) && Compare(RIGHT4, D2) == Some(false)
    ensures Compare(LEFT3, D6) == Some(false) && Compare(RIGHT3, D6) == Some(false)
    ensures Compare(LEFT4, D6) == Some(true) && Compare(RIGHT4, D6) == Some(true)
    ensures CountBelow(GROUP2, D2) == 0 && CountBelow(GROUP2, D6) == 2
  {
    CountFour(LEFT3, RIGHT3, LEFT4, RIGHT4, D2);
    CountFour(LEFT3, RIGHT3, LEFT4, RIGHT4, D6);
  }

  lemma Group3()
    ensures Compare(LEFT5, D2) == Some(false) && Compare(RIGHT5, D2) == Some(false)
    ensures Compare(LEFT6, D2) == Some(true) && Compare(RIGHT6, D2) == Some(false)
    ensures Compare(LEFT5, D6) == Some(false) && Compare(RIGHT5, D6) == Some(false)
    ensures Compare(LEFT6, D6) == Some(true) && Compare(RIGHT6, D6) == Some(true)
    ensures CountBelow(GROUP3, D2) == 1 && CountBelow(GROUP3, D6) == 2
  {
    CountFour(LEFT5, RIGHT5, LEFT6, RIGHT6, D2);
    CountFour(LEFT5, RIGHT5, LEFT6, RIGHT6, D6);
  }

  lemma Group4()
    ensures Compare(LEFT7, D2) == Some(true) && Compare(RIGHT7, D2) == Some(true)
    ensures Compare(LEFT8, D2) == Some(true) && Compare(RIGHT8, D2) == Some(true)
    ensures Compare(LEFT7, D6) == Some(true) && Compare(RIGHT7, D6) == Some(true)
    ensures Compare(LEFT8, D6) == Some(true) && Compare(RIGHT8, D6) == Some(true)
    ensures CountBelow(GROUP4, D2) == 4 && CountBelow(GROUP4, D6) == 4
  {
    CountFour(LEFT7, RIGHT7, LEFT8, RIGHT8, D2);
    CountFour(LEFT7, RIGHT7, LEFT8, RIGHT8, D6);
  }

  /** No example packet ties with a divider. */
  lemma ExampleDividersDecide()
    ensures DividersDecide(PACKETS)
  {
    Group1(); Group2(); Group3(); Group4();
    forall x | x in PACKETS ensures Compare(x, D2) != None && Compare(x, D6) != None {
      assert x in GROUP1 || x in GROUP2 || x in GROUP3 || x in GROUP4;
    }
  }

  /** 9 packets come before [[2]] and 12 before [[6]]. */
  lemma ExampleCounts()
    ensures CountBelow(PACKETS, D2) == 9 && CountBelow(PACKETS, D6) == 12
  {
    Group1(); Group2(); Group3(); Group4();
    SumOfAppend(GROUP1, GROUP2, BelowOne(D2));
    SumOfAppend(GROUP1 + GROUP2, GROUP3, BelowOne(D2));
    SumOfAppend(GROUP1 + GROUP2 + GROUP3, GROUP4, BelowOne(D2));
    SumOfAppend(GROUP1, GROUP2, BelowOne(D6));
    SumOfAppend(GROUP1 + GROUP2, GROUP3, BelowOne(D6));
    SumOfAppend(GROUP1 + GROUP2 + GROUP3, GROUP4, BelowOne(D6));
  }

  /** So the decoder key of the sorted packets is 10 * 14 = 140. */
  lemma ExampleDecoderKey()
    ensures KeyOf(SortPackets(PACKETS + [D2, D6])) == Some(140)
  {
    ExampleDividersDecide();
    ExampleCounts();
    var all := PACKETS + [D2, D6];
    assert multiset(all) == multiset(PACKETS) + multiset{D2, D6};
    KeyOfSorted(PACKETS, SortPackets(all));
  }
}
