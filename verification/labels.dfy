/** The driver's label encoding: each digit label becomes a one-hot row of
    width ten (the label ten, one past the digits, a row of width eleven).  The training labels and the test labels are encoded by the
    same lambda, so both are `EncodeLabels` here.  Decoding in the engine's
    scoring (a first-maximum argmax per row) inverts it.
 */
module LabelEncoding {
  import opened Outcome
  import opened Matrix
  import opened Numerics
  import opened Regression

  /** Width of an encoded row: one column per digit class. */
  const Digits: nat := 10

  /** A row of ten 0s in which index `target` is set to 1.  Setting index
      ten appends an eleventh entry, so the label ten gives a row of eleven
      numbers; a label above ten lengthens the array past it with unset slots
      in between, which is no numeric row (`None`); a negative label only sets
      a named property of the array and leaves ten 0s. */
  function OneHot(target: int): (r: Option<seq<real>>)
    ensures r.Some? <==> target <= Digits
    ensures r.Some? ==> |r.value| == if target == Digits then Digits + 1 else Digits
    ensures 0 <= target <= Digits ==> r.value[target] == 1.0
    ensures r.Some? ==> forall k :: 0 <= k < |r.value| && k != target ==> r.value[k] == 0.0
  {
    if target > Digits then None
    else
      var width := if target == Digits then Digits + 1 else Digits;
      Some(seq(width, k requires 0 <= k < width => if k == target then 1.0 else 0.0))
  }

  /** The row of a digit, or of the label ten, sums to exactly 1. */
  lemma OneHotSumsToOne(target: int)
    requires 0 <= target <= Digits
    ensures Sum(OneHot(target).value) == 1.0
  {
    SumOneHot(OneHot(target).value, target);
  }

  /** The first maximal entry of the row of a digit, or of the label ten, is
      that label. */
  lemma ArgMaxInvertsOneHot(target: int)
    requires 0 <= target <= Digits
    ensures ArgMax(OneHot(target).value) == target
  {
    var row := OneHot(target).value;
    var k := ArgMax(row);
    assert row[target] <= row[k];
  }

  /** The target list mapped through `OneHot`, one row per target in order;
      `None` when some target has no numeric row. */
  function EncodeLabels(labels: seq<int>): (r: Option<Mat>)
    ensures r.Some? <==> forall i :: 0 <= i < |labels| ==> labels[i] <= Digits
    ensures r.Some? ==> |r.value| == |labels|
    ensures r.Some? ==> forall i :: 0 <= i < |labels| ==> OneHot(labels[i]) == Some(r.value[i])
  {
    if forall i :: 0 <= i < |labels| ==> labels[i] <= Digits then
      Some(seq(|labels|, i requires 0 <= i < |labels| => OneHot(labels[i]).value))
    else None
  }

  /** Decoding the encoded labels gives the labels back, for every label
      from 0 to ten. */
  lemma DecodeInvertsEncode(labels: seq<int>)
    requires forall i :: 0 <= i < |labels| ==> 0 <= labels[i] <= Digits
    ensures EncodeLabels(labels).Some?
    ensures |Decode(EncodeLabels(labels).value)| == |labels|
    ensures forall i :: 0 <= i < |labels| ==> Decode(EncodeLabels(labels).value)[i] == labels[i]
  {
    var rows := EncodeLabels(labels).value;
    forall i | 0 <= i < |labels|
      ensures Decode(rows)[i] == labels[i]
    {
      ArgMaxInvertsOneHot(labels[i]);
    }
  }

  /** Scoring against encoded digits: accepted exactly when prediction
      succeeds and there is one digit per test row, and then the accuracy is
      measured against the digits themselves. */
  lemma TestAgainstDigits(t: Kernels, e: Engine, testFeatures: Mat, labels: seq<nat>)
    requires WellBehaved(t) && Valid(e)
    requires forall i :: 0 <= i < |labels| ==> labels[i] < Digits
    ensures Test(t, e, testFeatures, EncodeLabels(labels).value).Ok?
            <==> Predict(t, e, testFeatures).Ok? && |labels| == |testFeatures|
    ensures Test(t, e, testFeatures, EncodeLabels(labels).value).Ok? ==>
              Test(t, e, testFeatures, EncodeLabels(labels).value).value
              == Accuracy(Predict(t, e, testFeatures).value, labels)
  {
    var rows := EncodeLabels(labels).value;
    DecodeInvertsEncode(labels);
    assert Decode(rows) == labels;
  }
}
