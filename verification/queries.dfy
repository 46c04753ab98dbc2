/** The read-only queries of `QuakeDataset` over its current contents:
    `size`, `isEmpty`, `get`, the four extremum properties and the two means. */
module Queries {
  import opened Wrappers
  import opened Quakes
  import opened Stats

  function Size(qs: seq<ValidQuake>): nat {
    |qs|
  }

  predicate IsEmpty(qs: seq<ValidQuake>) {
    |qs| == 0
  }

  /** The `IndexOutOfBoundsException` of `quakes[index]`. */
  datatype IndexError = IndexOutOfBounds(index: int, size: nat)

  /** `get(index)`: the quake at a position, or the exception for any
      position outside [0, size). */
  function Get(qs: seq<ValidQuake>, index: int): (r: Result<ValidQuake, IndexError>)
    ensures r.Success? <==> 0 <= index < Size(qs)
    ensures r.Success? ==> r.value == qs[index]
    ensures r.Failure? ==> r.error == IndexOutOfBounds(index, Size(qs))
  {
    if 0 <= index < |qs| then Success(qs[index]) else Failure(IndexOutOfBounds(index, |qs|))
  }

  function Depths(qs: seq<ValidQuake>): (keys: seq<real>)
    ensures |keys| == |qs|
    ensures forall i :: 0 <= i < |qs| ==> keys[i] == qs[i].depth
  {
    seq(|qs|, i requires 0 <= i < |qs| => qs[i].depth)
  }

  function Magnitudes(qs: seq<ValidQuake>): (keys: seq<real>)
    ensures |keys| == |qs|
    ensures forall i :: 0 <= i < |qs| ==> keys[i] == qs[i].magnitude
  {
    seq(|qs|, i requires 0 <= i < |qs| => qs[i].magnitude)
  }

  /** `shallowestQuake`, i.e. `minByOrNull { it.depth }`: null for an empty
      dataset, otherwise the first quake no deeper than any other. */
  function ShallowestQuake(qs: seq<ValidQuake>): (r: Option<ValidQuake>)
    ensures r.None? <==> IsEmpty(qs)
    ensures r.Some? ==> exists k: nat :: IsFirstMin(Depths(qs), k) && r.value == qs[k]
    ensures r.Some? ==> r.value in qs && forall q :: q in qs ==> r.value.depth <= q.depth
  {
    if |qs| == 0 then None
    else
      var k := FirstMinIndex(Depths(qs));
      Some(qs[k])
  }

  /** `deepestQuake`, i.e. `maxByOrNull { it.depth }`: null for an empty
      dataset, otherwise the first quake at least as deep as any other. */
  function DeepestQuake(qs: seq<ValidQuake>): (r: Option<ValidQuake>)
    ensures r.None? <==> IsEmpty(qs)
    ensures r.Some? ==> exists k: nat :: IsFirstMax(Depths(qs), k) && r.value == qs[k]
    ensures r.Some? ==> r.value in qs && forall q :: q in qs ==> r.value.depth >= q.depth
  {
    if |qs| == 0 then None
    else
      var k := FirstMaxIndex(Depths(qs));
      Some(qs[k])
  }

  /** `weakestQuake`, i.e. `minByOrNull { it.magnitude }`. */
  function WeakestQuake(qs: seq<ValidQuake>): (r: Option<ValidQuake>)
    ensures r.None? <==> IsEmpty(qs)
    ensures r.Some? ==> exists k: nat :: IsFirstMin(Magnitudes(qs), k) && r.value == qs[k]
    ensures r.Some? ==> r.value in qs && forall q :: q in qs ==> r.value.magnitude <= q.magnitude
  {
    if |qs| == 0 then None
    else
      var k := FirstMinIndex(Magnitudes(qs));
      Some(qs[k])
  }

  /** `strongestQuake`, i.e. `maxByOrNull { it.magnitude }`. */
  function StrongestQuake(qs: seq<ValidQuake>): (r: Option<ValidQuake>)
    ensures r.None? <==> IsEmpty(qs)
    ensures r.Some? ==> exists k: nat :: IsFirstMax(Magnitudes(qs), k) && r.value == qs[k]
    ensures r.Some? ==> r.value in qs && forall q :: q in qs ==> r.value.magnitude >= q.magnitude
  {
    if |qs| == 0 then None
    else
      var k := FirstMaxIndex(Magnitudes(qs));
      Some(qs[k])
  }

  /** `meanDepth`: null for an empty dataset, otherwise the average depth,
      which lies between the shallowest and the deepest quake's depth and so
      is never negative. */
  function MeanDepth(qs: seq<ValidQuake>): (r: Option<real>)
    ensures r.None? <==> IsEmpty(qs)
    ensures r.Some? ==> r.value * (|qs| as real) == Sum(Depths(qs))
    ensures r.Some? ==> ShallowestQuake(qs).value.depth <= r.value <= DeepestQuake(qs).value.depth
    ensures r.Some? ==> r.value >= 0.0
  {
    if |qs| > 0 then Some(Mean(Depths(qs))) else None
  }

  /** `meanMagnitude`: null for an empty dataset, otherwise the average
      magnitude, between the weakest and the strongest and always positive. */
  function MeanMagnitude(qs: seq<ValidQuake>): (r: Option<real>)
    ensures r.None? <==> IsEmpty(qs)
    ensures r.Some? ==> r.value * (|qs| as real) == Sum(Magnitudes(qs))
    ensures r.Some? ==> WeakestQuake(qs).value.magnitude <= r.value <= StrongestQuake(qs).value.magnitude
    ensures r.Some? ==> r.value > 0.0
  {
    if |qs| > 0 then Some(Mean(Magnitudes(qs))) else None
  }

  /** Every aggregate is null exactly when the dataset is empty, and `get`
      then fails for every index. */
  lemma AbsentExactlyWhenEmpty(qs: seq<ValidQuake>)
    ensures IsEmpty(qs) <==> Size(qs) == 0
    ensures IsEmpty(qs) <==> ShallowestQuake(qs).None?
    ensures IsEmpty(qs) <==> DeepestQuake(qs).None?
    ensures IsEmpty(qs) <==> WeakestQuake(qs).None?
    ensures IsEmpty(qs) <==> StrongestQuake(qs).None?
    ensures IsEmpty(qs) <==> MeanDepth(qs).None?
    ensures IsEmpty(qs) <==> MeanMagnitude(qs).None?
    ensures IsEmpty(qs) <==> forall i: int :: Get(qs, i).Failure?
  {
    if !IsEmpty(qs) {
      assert Get(qs, 0).Success?;
    }
  }
}
