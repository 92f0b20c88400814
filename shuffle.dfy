/** `shuffleArray`: a Fisher–Yates shuffle over a copy of its argument.
    The random draw `Math.floor(Math.random() * (i + 1))` is replaced by an
    index oracle: `picks[i]` is the position swapped with position `i`. */
module Shuffle {

  /** The oracle covers every loop index and each draw lies in `0..i`, as
      `Math.floor(Math.random() * (i + 1))` does. `picks[0]` is never used. */
  predicate ValidPicks(picks: seq<nat>, n: nat)
  {
    |picks| == n && forall i :: 0 <= i < n ==> picks[i] <= i
  }

  /** The sequence with positions `i` and `j` exchanged (`[out[i], out[j]] = [out[j], out[i]]`). */
  function Swap<T>(s: seq<T>, i: nat, j: nat): (r: seq<T>)
    requires i < |s| && j < |s|
    ensures |r| == |s| && r[i] == s[j] && r[j] == s[i]
    ensures forall k :: 0 <= k < |s| && k != i && k != j ==> r[k] == s[k]
  {
    s[i := s[j]][j := s[i]]
  }

  lemma SwapPermutes<T>(s: seq<T>, i: nat, j: nat)
    requires i < |s| && j < |s|
    ensures multiset(Swap(s, i, j)) == multiset(s)
  {
  }

  /** What the loop leaves behind when it starts at index `i` on `s`: steps
      `i`, `i - 1`, ..., `1`, each swapping position `k` with `picks[k]`. */
  function ShuffleFrom<T>(s: seq<T>, picks: seq<nat>, i: int): seq<T>
    requires i < |s| && ValidPicks(picks, |s|)
    decreases i
  {
    if i <= 0 then s else ShuffleFrom(Swap(s, i, picks[i]), picks, i - 1)
  }

  /** The result of `shuffleArray(s)` under the draws `picks`. */
  function Shuffled<T>(s: seq<T>, picks: seq<nat>): seq<T>
    requires ValidPicks(picks, |s|)
  {
    ShuffleFrom(s, picks, |s| - 1)
  }

  lemma {:induction false} ShuffleFromPermutes<T>(s: seq<T>, picks: seq<nat>, i: int)
    requires i < |s| && ValidPicks(picks, |s|)
    ensures |ShuffleFrom(s, picks, i)| == |s|
    ensures multiset(ShuffleFrom(s, picks, i)) == multiset(s)
    decreases i
  {
    if i > 0 {
      SwapPermutes(s, i, picks[i]);
      ShuffleFromPermutes(Swap(s, i, picks[i]), picks, i - 1);
    }
  }

  /** Whatever the draws, the shuffle returns a permutation of its input. */
  lemma ShuffledPermutes<T>(s: seq<T>, picks: seq<nat>)
    requires ValidPicks(picks, |s|)
    ensures |Shuffled(s, picks)| == |s|
    ensures multiset(Shuffled(s, picks)) == multiset(s)
  {
    ShuffleFromPermutes(s, picks, |s| - 1);
  }

  /** The loop body never runs on an input of length 0 or 1. */
  lemma ShuffledShortUnchanged<T>(s: seq<T>, picks: seq<nat>)
    requires ValidPicks(picks, |s|) && |s| <= 1
    ensures Shuffled(s, picks) == s
  {
  }

  lemma {:induction false} ShuffleFromIdentity<T>(s: seq<T>, picks: seq<nat>, i: int)
    requires i < |s| && ValidPicks(picks, |s|)
    requires forall k :: 0 <= k < |s| ==> picks[k] == k
    ensures ShuffleFrom(s, picks, i) == s
    decreases i
  {
    if i > 0 {
      assert Swap(s, i, picks[i]) == s;
      ShuffleFromIdentity(s, picks, i - 1);
    }
  }

  /** Draws that always pick the current index leave the order as it was. */
  lemma ShuffledIdentity<T>(s: seq<T>, picks: seq<nat>)
    requires ValidPicks(picks, |s|)
    requires forall k :: 0 <= k < |s| ==> picks[k] == k
    ensures Shuffled(s, picks) == s
  {
    ShuffleFromIdentity(s, picks, |s| - 1);
  }

  /** Step `i` of the loop fixes position `i` for good: after the loop has
      started at `i`, every position above `i` still holds what it held. */
  lemma {:induction false} ShuffleFromKeepsTail<T>(s: seq<T>, picks: seq<nat>, i: int, k: nat)
    requires i < |s| && ValidPicks(picks, |s|)
    requires i < k < |s|
    ensures |ShuffleFrom(s, picks, i)| == |s|
    ensures ShuffleFrom(s, picks, i)[k] == s[k]
    decreases i
  {
    ShuffleFromPermutes(s, picks, i);
    if i > 0 {
      ShuffleFromKeepsTail(Swap(s, i, picks[i]), picks, i - 1, k);
    }
  }

  /** The last element of the result is the input element the first draw chose. */
  lemma ShuffledLast<T>(s: seq<T>, picks: seq<nat>)
    requires ValidPicks(picks, |s|) && |s| > 1
    ensures |Shuffled(s, picks)| == |s|
    ensures Shuffled(s, picks)[|s| - 1] == s[picks[|s| - 1]]
  {
    var n := |s|;
    ShuffleFromKeepsTail(Swap(s, n - 1, picks[n - 1]), picks, n - 2, n - 1);
  }

  /** `shuffleArray`: copies `input` (`[...array]`) and swaps from the last
      index down to index 1. The argument is left as it was (no `modifies`);
      the result is a fresh array holding a permutation of it. */
  method ShuffleArray<T>(input: array<T>, picks: seq<nat>) returns (out: array<T>)
    requires ValidPicks(picks, input.Length)
    ensures fresh(out)
    ensures out[..] == Shuffled(input[..], picks)
    ensures multiset(out[..]) == multiset(input[..])
  {
    out := new T[input.Length](k requires 0 <= k < input.Length reads input => input[k]);
    assert out[..] == input[..];
    var i := out.Length - 1;
    while i > 0
      invariant -1 <= i < out.Length
      invariant out.Length == 0 <==> i == -1
      invariant ShuffleFrom(out[..], picks, i) == Shuffled(input[..], picks)
    {
      var j := picks[i];
      ghost var before := out[..];
      out[i], out[j] := out[j], out[i];
      assert out[..] == Swap(before, i, j);
      i := i - 1;
    }
    ShuffledPermutes(input[..], picks);
  }
}
