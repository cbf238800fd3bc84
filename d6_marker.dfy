/** Day 6: the position just after the first window of `n` pairwise
    distinct characters in a datastream. */
module Marker {
  import opened Wrappers
  import opened Seqs

  /** The `n` characters of `s` from position `k`. */
  function Window(s: string, k: nat, n: nat): (w: string)
    requires k + n <= |s|
    ensures |w| == n
  {
    s[k..k + n]
  }

  /** `m` is the marker of `s` for windows of `n`: the `n` characters
      before `m` are distinct and no earlier window is. */
  predicate IsMarker(s: string, n: nat, m: nat)
  {
    n <= m <= |s| && m - n < |s| && Distinct(Window(s, m - n, n)) &&
    forall k: nat :: k < m - n ==> !Distinct(Window(s, k, n))
  }

  /** A datastream has at most one marker for a given window width. */
  lemma MarkerUnique(s: string, n: nat, a: nat, b: nat)
    requires IsMarker(s, n, a) && IsMarker(s, n, b)
    ensures a == b
  {
  }

  /** find_marker: scan the window starts in order and return at the first
      window whose set of characters has `n` elements. A window that runs
      past the end panics on the slice, and an empty stream panics after
      the loop. */
  method FindMarker(input: string, n: nat) returns (r: Result<nat>)
    ensures r.Ok? ==> IsMarker(input, n, r.value)
    ensures r.Err? ==> forall k: nat :: k < |input| && k + n <= |input| ==> !Distinct(Window(input, k, n))
  {
    for i := 0 to |input|
      invariant i == 0 || i + n <= |input| + 1
      invariant forall k: nat :: k < i ==> !Distinct(Window(input, k, n))
    {
      if i + n > |input| {
        return Err("byte index out of range");
      }
      var hs := Elements(input[i..i + n]);
      ElementsCount(input[i..i + n]);
      assert input[i..i + n] == Window(input, i, n);
      if |hs| == n {
        return Ok(i + n);
      }
    }
    return Err("explicit panic");
  }

  const STREAM := "mjqjpqmgbljsphdztnvjfqwrcgsmlb"

  lemma Repeats(w: string, j: nat, k: nat)
    requires j < k < |w| && w[j] == w[k]
    ensures !Distinct(w)
  {
  }

  /** A stream that starts "mjqjpqm" has its start-of-packet marker at 7. */
  lemma PacketMarkerOfPrefix(s: string)
    requires |s| >= 7
    requires s[0] == 'm' && s[1] == 'j' && s[2] == 'q' && s[3] == 'j'
    requires s[4] == 'p' && s[5] == 'q' && s[6] == 'm'
    ensures IsMarker(s, 4, 7)
  {
    Repeats(Window(s, 0, 4), 1, 3);
    Repeats(Window(s, 1, 4), 0, 2);
    Repeats(Window(s, 2, 4), 0, 3);
    var w := Window(s, 3, 4);
    assert w[0] == 'j' && w[1] == 'p' && w[2] == 'q' && w[3] == 'm';
  }

  /** The first test stream has its start-of-packet marker at 7. */
  lemma PacketMarkerExample()
    ensures IsMarker(STREAM, 4, 7)
  {
    assert STREAM[0] == 'm' && STREAM[1] == 'j' && STREAM[2] == 'q' && STREAM[3] == 'j';
    assert STREAM[4] == 'p' && STREAM[5] == 'q' && STREAM[6] == 'm';
    PacketMarkerOfPrefix(STREAM);
  }
}
