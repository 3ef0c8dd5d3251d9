/** Bounded windows over sequences and the sums and means computed over them. */
module Window {

  /** The last `n` elements of `s`, or all of `s` when it is shorter:
      JavaScript's `s.slice(-n)` for a positive `n`. */
  function LastN<T>(s: seq<T>, n: nat): (r: seq<T>)
    ensures |r| == if |s| < n then |s| else n
    ensures r == s[|s| - |r|..]
  {
    if |s| <= n then s else s[|s| - n..]
  }

  /** Appending to a window and re-cutting it gives the window of the longer sequence:
      keeping only the last `n` entries loses nothing a later window needs. */
  lemma LastNOfAppend<T>(s: seq<T>, x: T, n: nat)
    requires n > 0
    ensures LastN(LastN(s, n) + [x], n) == LastN(s + [x], n)
  {
    var w := LastN(s, n);
    var lhs := LastN(w + [x], n);
    var rhs := LastN(s + [x], n);
    assert |lhs| == |rhs|;
    forall i | 0 <= i < |lhs|
      ensures lhs[i] == rhs[i]
    {
      if i == |lhs| - 1 {
        assert lhs[i] == x;
      } else {
        assert lhs[i] == (w + [x])[|w| + 1 - |lhs| + i];
      }
    }
  }

  /** The sum of a sequence of reals, folded from the left as `reduce((a, b) => a + b, 0)`. */
  function Sum(s: seq<real>): real
  {
    if |s| == 0 then 0.0 else Sum(s[..|s| - 1]) + s[|s| - 1]
  }

  /** The arithmetic mean of `s`, 0 on an empty sequence. */
  function Mean(s: seq<real>): real
  {
    if |s| == 0 then 0.0 else Sum(s) / (|s| as real)
  }

  lemma {:induction false} SumBounds(s: seq<real>, lo: real, hi: real)
    requires forall i :: 0 <= i < |s| ==> lo <= s[i] <= hi
    ensures (|s| as real) * lo <= Sum(s) <= (|s| as real) * hi
  {
    if |s| > 0 {
      SumBounds(s[..|s| - 1], lo, hi);
    }
  }

  /** A mean lies between any lower and upper bound of the averaged values. */
  lemma MeanBounds(s: seq<real>, lo: real, hi: real)
    requires |s| > 0
    requires forall i :: 0 <= i < |s| ==> lo <= s[i] <= hi
    ensures lo <= Mean(s) <= hi
  {
    SumBounds(s, lo, hi);
    var n := |s| as real;
    assert Sum(s) / n >= lo by {
      assert Sum(s) >= n * lo;
    }
    assert Sum(s) / n <= hi by {
      assert Sum(s) <= n * hi;
    }
  }
}
