/** The three JavaScript array built-ins the dashboard's summary cards are
    made of, over sequences of per-day counts: a `reduce` that adds, the
    spread call `Math.max(...xs)` and `indexOf`. */
module ArrayOps {

  /** `xs.reduce((a, b) => a + b, 0)`: a left fold of addition starting at 0.
      The total is zero exactly when every count is zero, and no single
      count exceeds it. */
  function Sum(xs: seq<nat>): (total: nat)
    ensures total == 0 <==> forall i :: 0 <= i < |xs| ==> xs[i] == 0
    ensures forall i :: 0 <= i < |xs| ==> xs[i] <= total
  {
    if xs == [] then 0 else Sum(xs[..|xs| - 1]) + xs[|xs| - 1]
  }

  /** Adding up a joined array is adding up each part. */
  lemma {:induction false} SumAppend(xs: seq<nat>, ys: seq<nat>)
    ensures Sum(xs + ys) == Sum(xs) + Sum(ys)
  {
    if ys == [] {
      assert xs + ys == xs;
    } else {
      var init := ys[..|ys| - 1];
      assert (xs + ys)[..|xs + ys| - 1] == xs + init;
      SumAppend(xs, init);
    }
  }

  /** `Math.max(...xs)`: the largest count. The only caller applies it to a
      non-empty array (an empty one would give `-Infinity`). */
  function Max(xs: seq<nat>): (m: nat)
    requires xs != []
    ensures m in xs
    ensures forall i :: 0 <= i < |xs| ==> xs[i] <= m
  {
    if |xs| == 1 then xs[0]
    else
      var rest := Max(xs[1..]);
      if xs[0] >= rest then xs[0] else rest
  }

  /** `xs.indexOf(x)`: the first position holding `x`, or -1 when there is none. */
  function IndexOf(xs: seq<nat>, x: nat): (k: int)
    ensures -1 <= k < |xs|
    ensures k == -1 <==> x !in xs
    ensures 0 <= k ==> xs[k] == x && forall j :: 0 <= j < k ==> xs[j] != x
  {
    if xs == [] then -1
    else if xs[0] == x then 0
    else
      var k := IndexOf(xs[1..], x);
      if k == -1 then -1 else k + 1
  }

  /** `k` is where the maximum of `xs` first occurs: nothing is larger than
      `xs[k]`, and everything before it is strictly smaller. */
  ghost predicate IsFirstPeak(xs: seq<nat>, k: nat)
  {
    && k < |xs|
    && (forall i :: 0 <= i < |xs| ==> xs[i] <= xs[k])
    && (forall i :: 0 <= i < k ==> xs[i] < xs[k])
  }

  /** There is at most one first peak. */
  lemma FirstPeakUnique(xs: seq<nat>, j: nat, k: nat)
    requires IsFirstPeak(xs, j) && IsFirstPeak(xs, k)
    ensures j == k
  {
    assert xs[j] == xs[k];
  }

  /** `xs.indexOf(Math.max(...xs))` on a non-empty array lands on its first peak. */
  function PeakIndex(xs: seq<nat>): (k: nat)
    requires xs != []
    ensures IsFirstPeak(xs, k)
  {
    IndexOf(xs, Max(xs))
  }
}
