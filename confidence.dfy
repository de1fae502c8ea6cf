/** Aggregation of the engine's per-token confidence column
    (`OCRThread.run`, the two lines after "Calculate average confidence"):
    entries equal to the sentinel -1 ("no text region") are dropped, the
    rest are averaged, and an empty remainder averages to 0. */
module Confidence {

  const Sentinel: int := -1

  /** The list comprehension: the entries that are not the sentinel, in order. */
  function Kept(confs: seq<int>): (kept: seq<int>)
    ensures |kept| <= |confs|
    ensures forall k :: 0 <= k < |kept| ==> kept[k] != Sentinel
  {
    if confs == [] then []
    else (if confs[0] != Sentinel then [confs[0]] else []) + Kept(confs[1..])
  }

  function Sum(xs: seq<int>): int {
    if xs == [] then 0 else xs[0] + Sum(xs[1..])
  }

  /** `sum(kept) / len(kept) if kept else 0`, in exact arithmetic. */
  function MeanConfidence(confs: seq<int>): (r: real)
    ensures Kept(confs) == [] ==> r == 0.0
    ensures Kept(confs) != [] ==> r * |Kept(confs)| as real == Sum(Kept(confs)) as real
  {
    var kept := Kept(confs);
    if kept == [] then 0.0 else Sum(kept) as real / |kept| as real
  }

  /** Exactly the sentinel entries are dropped: every other value, negative
      ones included, is kept as often as it occurs. */
  lemma {:induction false} KeptDropsOnlySentinel(confs: seq<int>)
    ensures multiset(Kept(confs)) == multiset(confs)[Sentinel := 0]
  {
    if confs != [] {
      KeptDropsOnlySentinel(confs[1..]);
      assert confs == [confs[0]] + confs[1..];
      assert multiset(confs) == multiset([confs[0]]) + multiset(confs[1..]);
    }
  }

  /** The sentinel survives nowhere, and a value survives iff it occurs and
      is not the sentinel. */
  lemma KeptMembership(confs: seq<int>, x: int)
    ensures x in Kept(confs) <==> x in confs && x != Sentinel
  {
  }

  lemma {:induction false} SumBounds(xs: seq<int>, lo: int, hi: int)
    requires forall k :: 0 <= k < |xs| ==> lo <= xs[k] <= hi
    ensures lo * |xs| <= Sum(xs) <= hi * |xs|
  {
    if xs != [] {
      SumBounds(xs[1..], lo, hi);
    }
  }

  /** Engine confidences lie in 0..100 or are the sentinel; then so does
      the aggregate. */
  lemma MeanInRange(confs: seq<int>)
    requires forall k :: 0 <= k < |confs| ==> confs[k] == Sentinel || 0 <= confs[k] <= 100
    ensures 0.0 <= MeanConfidence(confs) <= 100.0
  {
    var kept := Kept(confs);
    if kept != [] {
      forall k | 0 <= k < |kept| ensures 0 <= kept[k] <= 100 {
        KeptMembership(confs, kept[k]);
      }
      SumBounds(kept, 0, 100);
      assert 0 <= Sum(kept) <= 100 * |kept|;
      RatioBound(MeanConfidence(confs), |kept| as real, Sum(kept) as real);
    }
  }

  lemma RatioBound(r: real, n: real, s: real)
    requires n >= 1.0 && r * n == s && 0.0 <= s <= 100.0 * n
    ensures 0.0 <= r <= 100.0
  {
    assert (r - 100.0) * n == s - 100.0 * n;
  }

  /** An all-sentinel (or empty) column aggregates to 0, not an error. */
  lemma {:induction false} AllSentinelsMeanZero(confs: seq<int>)
    requires forall k :: 0 <= k < |confs| ==> confs[k] == Sentinel
    ensures Kept(confs) == [] && MeanConfidence(confs) == 0.0
  {
    if confs != [] {
      AllSentinelsMeanZero(confs[1..]);
    }
  }

  lemma MeanExamples()
    ensures MeanConfidence([90, -1, 70, -1]) == 80.0
    ensures MeanConfidence([-1, -1]) == 0.0
    ensures MeanConfidence([-5, -1, 15]) == 5.0
  {
  }
}
