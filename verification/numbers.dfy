/** Exact arithmetic over sequences of reals: sum, minimum, maximum and mean,
    as pandas and Python compute them on a list or a column of numbers. */
module Numbers {

  /** The sum of a sequence, Python's `sum`. */
  function Sum(xs: seq<real>): real
  {
    if |xs| == 0 then 0.0 else xs[0] + Sum(xs[1..])
  }

  /** The smallest element of a non-empty sequence. */
  function Min(xs: seq<real>): (m: real)
    requires |xs| > 0
    ensures forall i :: 0 <= i < |xs| ==> m <= xs[i]
    ensures m in xs
  {
    if |xs| == 1 then xs[0]
    else
      var rest := Min(xs[1..]);
      if xs[0] <= rest then xs[0] else rest
  }

  /** The largest element of a non-empty sequence. */
  function Max(xs: seq<real>): (m: real)
    requires |xs| > 0
    ensures forall i :: 0 <= i < |xs| ==> xs[i] <= m
    ensures m in xs
  {
    if |xs| == 1 then xs[0]
    else
      var rest := Max(xs[1..]);
      if rest <= xs[0] then xs[0] else rest
  }

  /** A lower bound on every element bounds the sum from below. */
  lemma {:induction false} SumAtLeast(xs: seq<real>, lo: real)
    requires forall i :: 0 <= i < |xs| ==> lo <= xs[i]
    ensures lo * |xs| as real <= Sum(xs)
  {
    if |xs| > 0 {
      assert forall i :: 0 <= i < |xs[1..]| ==> lo <= xs[1..][i];
      SumAtLeast(xs[1..], lo);
    }
  }

  /** An upper bound on every element bounds the sum from above. */
  lemma {:induction false} SumAtMost(xs: seq<real>, hi: real)
    requires forall i :: 0 <= i < |xs| ==> xs[i] <= hi
    ensures Sum(xs) <= hi * |xs| as real
  {
    if |xs| > 0 {
      assert forall i :: 0 <= i < |xs[1..]| ==> xs[1..][i] <= hi;
      SumAtMost(xs[1..], hi);
    }
  }

  /** The arithmetic mean of a non-empty sequence, `sum(xs) / len(xs)`; it
      lies between the sequence's minimum and maximum. */
  function Mean(xs: seq<real>): (r: real)
    requires |xs| > 0
    ensures Min(xs) <= r <= Max(xs)
  {
    var n := |xs| as real;
    SumAtLeast(xs, Min(xs));
    SumAtMost(xs, Max(xs));
    QuotientBetween(Sum(xs), n, Min(xs), Max(xs));
    Sum(xs) / n
  }

  /** Dividing `lo * n <= s <= hi * n` by a positive `n`. */
  lemma QuotientBetween(s: real, n: real, lo: real, hi: real)
    requires n > 0.0
    requires lo * n <= s <= hi * n
    ensures lo <= s / n <= hi
  {
    var q := s / n;
    assert (q - lo) * n == s - lo * n;
    assert (hi - q) * n == hi * n - s;
  }

  /** The mean of a sequence whose elements all equal `c` is `c`. */
  lemma MeanOfConstant(xs: seq<real>, c: real)
    requires |xs| > 0
    requires forall i :: 0 <= i < |xs| ==> xs[i] == c
    ensures Mean(xs) == c
  {
    assert Min(xs) == c && Max(xs) == c;
  }

  /** The minimum of a whole sequence is at most the minimum of any of its
      non-empty suffixes. */
  lemma MinOfSuffix(xs: seq<real>, k: nat)
    requires k < |xs|
    ensures Min(xs) <= Min(xs[k..])
  {
    var m := Min(xs[k..]);
    assert m in xs[k..];
    var j :| 0 <= j < |xs[k..]| && xs[k..][j] == m;
    assert xs[k + j] == m;
  }
}
