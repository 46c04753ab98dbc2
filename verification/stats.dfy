/** The collection operations behind the dataset's aggregates: Kotlin's
    `minByOrNull`, `maxByOrNull` and `average`, stated over the sequence of
    selected values. */
module Stats {

  /** `k` is the first position holding the least value. */
  predicate IsFirstMin(keys: seq<real>, k: nat) {
    && k < |keys|
    && (forall j :: 0 <= j < |keys| ==> keys[k] <= keys[j])
    && (forall j :: 0 <= j < k ==> keys[j] > keys[k])
  }

  /** `k` is the first position holding the greatest value. */
  predicate IsFirstMax(keys: seq<real>, k: nat) {
    && k < |keys|
    && (forall j :: 0 <= j < |keys| ==> keys[k] >= keys[j])
    && (forall j :: 0 <= j < k ==> keys[j] < keys[k])
  }

  /** The scan in `minByOrNull`: keep the first element seen, and replace it
      only by a strictly smaller one. */
  function MinIndexFrom(keys: seq<real>, i: nat, best: nat): (k: nat)
    requires best < i <= |keys|
    requires forall j :: 0 <= j < i ==> keys[best] <= keys[j]
    requires forall j :: 0 <= j < best ==> keys[j] > keys[best]
    ensures IsFirstMin(keys, k)
    decreases |keys| - i
  {
    if i == |keys| then best
    else if keys[best] > keys[i] then MinIndexFrom(keys, i + 1, i)
    else MinIndexFrom(keys, i + 1, best)
  }

  /** The scan in `maxByOrNull`: keep the first element seen, and replace it
      only by a strictly greater one. */
  function MaxIndexFrom(keys: seq<real>, i: nat, best: nat): (k: nat)
    requires best < i <= |keys|
    requires forall j :: 0 <= j < i ==> keys[best] >= keys[j]
    requires forall j :: 0 <= j < best ==> keys[j] < keys[best]
    ensures IsFirstMax(keys, k)
    decreases |keys| - i
  {
    if i == |keys| then best
    else if keys[best] < keys[i] then MaxIndexFrom(keys, i + 1, i)
    else MaxIndexFrom(keys, i + 1, best)
  }

  function FirstMinIndex(keys: seq<real>): (k: nat)
    requires |keys| > 0
    ensures IsFirstMin(keys, k)
  {
    MinIndexFrom(keys, 1, 0)
  }

  function FirstMaxIndex(keys: seq<real>): (k: nat)
    requires |keys| > 0
    ensures IsFirstMax(keys, k)
  {
    MaxIndexFrom(keys, 1, 0)
  }

  /** Left-to-right sum, as `average` accumulates it. */
  function Sum(keys: seq<real>): real
  {
    if |keys| == 0 then 0.0 else Sum(keys[..|keys| - 1]) + keys[|keys| - 1]
  }

  /** A sum of values between `lo` and `hi` lies between |keys|·lo and |keys|·hi. */
  lemma {:induction false} SumBounds(keys: seq<real>, lo: real, hi: real)
    requires forall j :: 0 <= j < |keys| ==> lo <= keys[j] <= hi
    ensures (|keys| as real) * lo <= Sum(keys) <= (|keys| as real) * hi
    decreases |keys|
  {
    if |keys| > 0 {
      var init := keys[..|keys| - 1];
      assert forall j :: 0 <= j < |init| ==> init[j] == keys[j];
      SumBounds(init, lo, hi);
      assert (|keys| as real) * lo == (|init| as real) * lo + lo;
      assert (|keys| as real) * hi == (|init| as real) * hi + hi;
    }
  }

  /** `average()` of a non-empty sequence: the sum divided by the count,
      which lies between the least and the greatest value. */
  function Mean(keys: seq<real>): (m: real)
    requires |keys| > 0
    ensures m * (|keys| as real) == Sum(keys)
    ensures keys[FirstMinIndex(keys)] <= m <= keys[FirstMaxIndex(keys)]
  {
    var n := |keys| as real;
    var lo := keys[FirstMinIndex(keys)];
    var hi := keys[FirstMaxIndex(keys)];
    SumBounds(keys, lo, hi);
    MeanBetween(Sum(keys), n, lo, hi);
    Sum(keys) / n
  }

  /** Dividing n·lo <= s <= n·hi by a positive n. */
  lemma MeanBetween(s: real, n: real, lo: real, hi: real)
    requires n > 0.0
    requires n * lo <= s <= n * hi
    ensures lo <= s / n <= hi
    ensures (s / n) * n == s
  {
    assert s / n - lo == (s - n * lo) / n;
    assert hi - s / n == (n * hi - s) / n;
  }
}
