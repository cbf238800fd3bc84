/** Sums and the descending sort used by several puzzle modules. The
    library sorts of the solutions (`Vec::sort` followed by `reverse`,
    Python's `list.sort(reverse=True)`) reorder a list of numbers; here the
    sorted list is a value, characterised as the descending permutation of
    its input. */
module Seqs {

  /** The sum of a sequence of integers, added up from the front. */
  function Sum(s: seq<int>): int
  {
    if s == [] then 0 else Sum(s[..|s| - 1]) + s[|s| - 1]
  }

  lemma SumSnoc(s: seq<int>, x: int)
    ensures Sum(s + [x]) == Sum(s) + x
  {
    assert (s + [x])[..|s|] == s;
  }

  lemma {:induction false} SumAppend(a: seq<int>, b: seq<int>)
    ensures Sum(a + b) == Sum(a) + Sum(b)
    decreases |b|
  {
    if b == [] {
      assert a + b == a;
    } else {
      var c := b[..|b| - 1];
      assert a + b == (a + c) + [b[|b| - 1]];
      SumSnoc(a + c, b[|b| - 1]);
      SumAppend(a, c);
    }
  }

  /** Replacing one element changes the sum by the difference. */
  lemma {:induction false} SumUpdate(s: seq<int>, p: nat, v: int)
    requires p < |s|
    ensures Sum(s[p := v]) == Sum(s) - s[p] + v
    decreases |s|
  {
    var t := s[p := v];
    var n := |s| - 1;
    if p == n {
      assert t[..n] == s[..n];
    } else {
      assert t[..n] == s[..n][p := v];
      SumUpdate(s[..n], p, v);
    }
  }

  lemma SumCons(x: int, s: seq<int>)
    ensures Sum([x] + s) == x + Sum(s)
  {
    SumAppend([x], s);
    assert [x][..0] == [];
  }

  lemma SumOfThree(s: seq<int>)
    requires |s| >= 3
    ensures Sum(s[..3]) == s[0] + s[1] + s[2]
  {
    assert s[..1][..0] == [];
    assert Sum(s[..1]) == s[0];
    assert s[..2][..1] == s[..1];
    assert Sum(s[..2]) == s[0] + s[1];
    assert s[..3][..2] == s[..2];
  }

  /** Each element no smaller than the next ones. */
  predicate Descending(s: seq<int>)
  {
    forall i, j :: 0 <= i < j < |s| ==> s[i] >= s[j]
  }

  /** `x` placed before the first element it is no smaller than. */
  function Insert(x: int, s: seq<int>): (r: seq<int>)
    ensures multiset(r) == multiset(s) + multiset{x}
    ensures |r| == |s| + 1
  {
    if s == [] then [x]
    else if x >= s[0] then [x] + s
    else
      assert s == [s[0]] + s[1..];
      [s[0]] + Insert(x, s[1..])
  }

  lemma {:induction false} InsertDescending(x: int, s: seq<int>)
    requires Descending(s)
    ensures Descending(Insert(x, s))
  {
    if s != [] && x < s[0] {
      var rest := Insert(x, s[1..]);
      InsertDescending(x, s[1..]);
      DescendingHeadIsMax(s);
      forall y | y in rest
        ensures y <= s[0]
      {
        assert y in multiset(rest);
        if y != x {
          assert y in multiset(s[1..]);
        }
      }
      ConsDescending(s[0], rest);
    }
  }

  lemma ConsDescending(h: int, t: seq<int>)
    requires Descending(t) && forall y :: y in t ==> y <= h
    ensures Descending([h] + t)
  {
    var r := [h] + t;
    forall i, j | 0 <= i < j < |r|
      ensures r[i] >= r[j]
    {
      assert r[j] == t[j - 1];
      if i > 0 {
        assert r[i] == t[i - 1];
      } else {
        assert t[j - 1] in t;
      }
    }
  }

  /** The list in descending order: a permutation of `s` that is descending. */
  function SortDescending(s: seq<int>): (r: seq<int>)
    ensures Descending(r)
    ensures multiset(r) == multiset(s)
    ensures |r| == |s|
  {
    if s == [] then []
    else
      assert s == [s[0]] + s[1..];
      InsertDescending(s[0], SortDescending(s[1..]));
      Insert(s[0], SortDescending(s[1..]))
  }

  lemma DescendingTail(s: seq<int>)
    requires Descending(s) && |s| >= 1
    ensures Descending(s[1..])
  {
    forall i, j | 0 <= i < j < |s| - 1
      ensures s[1..][i] >= s[1..][j]
    {
      assert s[1..][i] == s[i + 1] && s[1..][j] == s[j + 1];
    }
  }

  lemma MultisetTail(s: seq<int>)
    requires |s| >= 1
    ensures multiset(s[1..]) == multiset(s) - multiset{s[0]}
    ensures s[0] in multiset(s)
  {
    assert s == [s[0]] + s[1..];
  }

  /** A descending permutation is unique: any two agree. */
  lemma {:induction false} DescendingUnique(a: seq<int>, b: seq<int>)
    requires Descending(a) && Descending(b) && multiset(a) == multiset(b)
    ensures a == b
    decreases |a|
  {
    assert |multiset(a)| == |a| && |multiset(b)| == |b|;
    if a != [] {
      DescendingSameHead(a, b);
      DescendingUnique(a[1..], b[1..]);
      assert a == [a[0]] + a[1..];
      assert b == [b[0]] + b[1..];
    }
  }

  /** Two descending permutations of each other start with the same
      element, and what follows is again such a pair. */
  lemma DescendingSameHead(a: seq<int>, b: seq<int>)
    requires Descending(a) && Descending(b) && multiset(a) == multiset(b) && a != []
    ensures b != [] && a[0] == b[0]
    ensures Descending(a[1..]) && Descending(b[1..]) && multiset(a[1..]) == multiset(b[1..])
  {
    assert |multiset(a)| == |a| && |multiset(b)| == |b|;
    MultisetTail(a);
    MultisetTail(b);
    DescendingHeadIsMax(a);
    DescendingHeadIsMax(b);
    assert a[0] in b && b[0] in a;
    DescendingTail(a);
    DescendingTail(b);
  }

  /** The head of a descending list is its largest element. */
  lemma DescendingHeadIsMax(s: seq<int>)
    requires Descending(s) && |s| >= 1
    ensures forall x :: x in s ==> x <= s[0]
  {
  }

  /** The first k elements of a descending list are the k largest: each of
      the others is no larger than every one of them. */
  lemma DescendingPrefixDominates(s: seq<int>, k: nat)
    requires Descending(s) && k <= |s|
    ensures forall x, y :: x in s[..k] && y in s[k..] ==> y <= x
  {
    forall x, y | x in s[..k] && y in s[k..]
      ensures y <= x
    {
      var i :| 0 <= i < k && s[i] == x;
      var j :| k <= j < |s| && s[j] == y;
    }
  }

  /** The largest element, when there is one (Python's `max`). */
  function Max(s: seq<int>): (m: int)
    requires |s| >= 1
    ensures m in s
    ensures forall x :: x in s ==> x <= m
  {
    if |s| == 1 then s[0]
    else
      var m := Max(s[1..]);
      assert s == [s[0]] + s[1..];
      if s[0] >= m then s[0] else m
  }

  /** No element occurs twice in `w`. */
  predicate Distinct<T(==)>(w: seq<T>)
  {
    forall j, k :: 0 <= j < k < |w| ==> w[j] != w[k]
  }

  /** The set of the elements of `w`, as a hash set built from them. */
  function Elements<T>(w: seq<T>): set<T>
  {
    set x | x in w
  }

  /** The set of the elements of `w` has as many elements as `w` exactly
      when they are pairwise distinct. */
  lemma {:induction false} ElementsCount<T>(w: seq<T>)
    ensures |Elements(w)| <= |w|
    ensures |Elements(w)| == |w| <==> Distinct(w)
  {
    if w != [] {
      var rest := w[1..];
      ElementsCount(rest);
      assert Elements(w) == {w[0]} + Elements(rest);
      if w[0] in rest {
        assert !Distinct(w) by {
          var k :| 0 <= k < |rest| && rest[k] == w[0];
          assert w[0] == w[k + 1];
        }
      } else {
        assert Distinct(w) <==> Distinct(rest) by {
          if Distinct(rest) {
            forall j, k | 0 <= j < k < |w| ensures w[j] != w[k] {
              if j > 0 {
                assert w[j] == rest[j - 1] && w[k] == rest[k - 1];
              } else {
                assert w[k] == rest[k - 1];
              }
            }
          }
          if Distinct(w) {
            forall j, k | 0 <= j < k < |rest| ensures rest[j] != rest[k] {
              assert rest[j] == w[j + 1] && rest[k] == w[k + 1];
            }
          }
        }
      }
    }
  }

  /** `f` of every element of `s`, added up. */
  function SumOf<T>(s: seq<T>, f: T -> int): int
  {
    if s == [] then 0 else f(s[0]) + SumOf(s[1..], f)
  }

  lemma {:induction false} SumOfRemove<T>(s: seq<T>, f: T -> int, j: nat)
    requires j < |s|
    ensures SumOf(s, f) == f(s[j]) + SumOf(s[..j] + s[j + 1..], f)
  {
    if j > 0 {
      SumOfRemove(s[1..], f, j - 1);
      assert s[1..][..j - 1] + s[1..][j..] == (s[..j] + s[j + 1..])[1..];
    } else {
      assert s[..0] + s[1..] == s[1..];
    }
  }

  lemma {:induction false} SumOfAppend<T>(a: seq<T>, b: seq<T>, f: T -> int)
    ensures SumOf(a + b, f) == SumOf(a, f) + SumOf(b, f)
  {
    if a == [] {
      assert a + b == b;
    } else {
      assert (a + b)[1..] == a[1..] + b;
      SumOfAppend(a[1..], b, f);
    }
  }

  /** The sum does not depend on the order of the elements. */
  lemma {:induction false} SumOfPermutation<T>(a: seq<T>, b: seq<T>, f: T -> int)
    requires multiset(a) == multiset(b)
    ensures SumOf(a, f) == SumOf(b, f)
    decreases |a|
  {
    if a != [] {
      var rest := SumOfPick(a, b, f);
      SumOfPermutation(a[1..], rest, f);
    }
  }

  /** The first element of `a` taken out of `b`, a permutation of it. */
  lemma SumOfPick<T>(a: seq<T>, b: seq<T>, f: T -> int) returns (rest: seq<T>)
    requires multiset(a) == multiset(b) && a != []
    ensures multiset(a[1..]) == multiset(rest)
    ensures SumOf(b, f) == f(a[0]) + SumOf(rest, f)
  {
    var j := PickIndex(a, b);
    SumOfRemove(b, f, j);
    rest := b[..j] + b[j + 1..];
  }

  /** Where the first element of `a` sits in `b`, a permutation of it. */
  lemma PickIndex<T>(a: seq<T>, b: seq<T>) returns (j: nat)
    requires multiset(a) == multiset(b) && a != []
    ensures j < |b| && b[j] == a[0]
    ensures multiset(a[1..]) == multiset(b[..j] + b[j + 1..])
  {
    assert a == [a[0]] + a[1..];
    assert a[0] in multiset(b);
    j :| 0 <= j < |b| && b[j] == a[0];
    MultisetRemove(b, j);
  }

  lemma MultisetRemove<T>(s: seq<T>, j: nat)
    requires j < |s|
    ensures multiset(s[..j] + s[j + 1..]) == multiset(s) - multiset{s[j]}
  {
    assert s == s[..j] + [s[j]] + s[j + 1..];
    assert multiset(s) == multiset(s[..j]) + multiset{s[j]} + multiset(s[j + 1..]);
  }

  /** A sequence without duplicates holds each of its elements once. */
  lemma {:induction false} DistinctMultiplicity<T>(a: seq<T>, x: T)
    requires Distinct(a)
    ensures multiset(a)[x] == if x in a then 1 else 0
  {
    if a != [] {
      assert a == [a[0]] + a[1..];
      assert Distinct(a[1..]) by {
        forall p, q | 0 <= p < q < |a[1..]| ensures a[1..][p] != a[1..][q] {
          assert a[1..][p] == a[p + 1] && a[1..][q] == a[q + 1];
        }
      }
      DistinctMultiplicity(a[1..], x);
    }
  }

  /** Two sequences without duplicates that hold the same elements are
      permutations of each other. */
  lemma DistinctSameElements<T>(a: seq<T>, b: seq<T>)
    requires Distinct(a) && Distinct(b)
    requires forall x :: x in a <==> x in b
    ensures multiset(a) == multiset(b)
  {
    forall x ensures multiset(a)[x] == multiset(b)[x] {
      DistinctMultiplicity(a, x);
      DistinctMultiplicity(b, x);
    }
  }

  /** A set of one element is that element's singleton. */
  lemma SingletonOf<T>(s: set<T>, x: T)
    requires |s| == 1 && x in s
    ensures s == {x}
  {
    var rest := s - {x};
    assert s == rest + {x};
    assert |rest| == 0;
  }

  /** The rows, concatenated in order. */
  function Flatten<T>(lines: seq<seq<T>>): (flat: seq<T>)
  {
    if lines == [] then [] else Flatten(lines[..|lines| - 1]) + lines[|lines| - 1]
  }

  /** When every row has `cols` elements, element row*cols+col of the
      concatenation is the one at that row and column. */
  lemma {:induction false} FlattenRowMajor<T>(lines: seq<seq<T>>, cols: nat, row: nat, col: nat)
    requires forall i :: 0 <= i < |lines| ==> |lines[i]| == cols
    requires row < |lines| && col < cols
    ensures |Flatten(lines)| == |lines| * cols
    ensures row * cols + col < |Flatten(lines)|
    ensures Flatten(lines)[row * cols + col] == lines[row][col]
  {
    var init := lines[..|lines| - 1];
    FlattenLength(init, cols);
    if row < |lines| - 1 {
      FlattenRowMajor(init, cols, row, col);
    }
  }

  lemma {:induction false} FlattenLength<T>(lines: seq<seq<T>>, cols: nat)
    requires forall i :: 0 <= i < |lines| ==> |lines[i]| == cols
    ensures |Flatten(lines)| == |lines| * cols
  {
    if lines != [] {
      var init := lines[..|lines| - 1];
      FlattenLength(init, cols);
      assert |Flatten(lines)| == |Flatten(init)| + cols;
      MulSucc(|init|, cols);
    }
  }

  lemma MulSucc(n: nat, c: nat)
    ensures (n + 1) * c == n * c + c
  {
  }

  /** Every element of every row is in the concatenation. */
  lemma {:induction false} FlattenHas<T>(lines: seq<seq<T>>, row: nat, col: nat)
    requires row < |lines| && col < |lines[row]|
    ensures lines[row][col] in Flatten(lines)
  {
    var init := lines[..|lines| - 1];
    if row < |lines| - 1 {
      FlattenHas(init, row, col);
    } else {
      assert Flatten(lines)[|Flatten(init)| + col] == lines[row][col];
    }
  }

  /** The rows before row `i`, then the first `j` elements of row `i`,
      begin the concatenation. */
  lemma FlattenPrefixAt<T>(lines: seq<seq<T>>, i: nat, j: nat)
    requires i < |lines| && j < |lines[i]|
    ensures |Flatten(lines[..i])| + j < |Flatten(lines)|
    ensures Flatten(lines)[..|Flatten(lines[..i])| + j] == Flatten(lines[..i]) + lines[i][..j]
    ensures Flatten(lines)[|Flatten(lines[..i])| + j] == lines[i][j]
  {
    assert lines[..i + 1][..i] == lines[..i];
    FlattenMonotone(lines, i + 1);
  }

  /** Concatenating a prefix of the rows gives a prefix. */
  lemma {:induction false} FlattenMonotone<T>(lines: seq<seq<T>>, i: nat)
    requires i <= |lines|
    ensures Flatten(lines[..i]) <= Flatten(lines)
    decreases |lines| - i
  {
    if i < |lines| {
      FlattenMonotone(lines, i + 1);
      assert lines[..i + 1][..i] == lines[..i];
    } else {
      assert lines[..i] == lines;
    }
  }

  /** The elements of `s` in the opposite order. */
  function Reverse<T>(s: seq<T>): (r: seq<T>)
    ensures |r| == |s|
  {
    if s == [] then [] else Reverse(s[1..]) + [s[0]]
  }

  /** Element i of the reversal is element |s|-1-i of the original. */
  lemma {:induction false} ReverseIndex<T>(s: seq<T>, i: nat)
    requires i < |s|
    ensures Reverse(s)[i] == s[|s| - 1 - i]
  {
    if i < |s| - 1 {
      ReverseIndex(s[1..], i);
    }
  }

  /** The first element of the reversal is the last one of the original. */
  lemma ReverseFirst<T>(s: seq<T>)
    requires s != []
    ensures Reverse(s)[0] == s[|s| - 1]
  {
    ReverseIndex(s, 0);
  }

  lemma ReverseReverse<T>(s: seq<T>)
    ensures Reverse(Reverse(s)) == s
  {
    forall i | 0 <= i < |s| ensures Reverse(Reverse(s))[i] == s[i] {
      ReverseIndex(Reverse(s), i);
      ReverseIndex(s, |s| - 1 - i);
    }
  }

  lemma {:induction false} ReverseMultiset<T>(s: seq<T>)
    ensures multiset(Reverse(s)) == multiset(s)
  {
    if s != [] {
      ReverseMultiset(s[1..]);
      assert s == [s[0]] + s[1..];
    }
  }
}
