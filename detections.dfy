/**
 * Detections as a detection model hands them back, and the choice of the
 * best one among them (the argmax over the confidence column).
 */
module Detections {

  /** One detected box: the class index the model assigned to it and its confidence score. */
  datatype Detection = Detection(classId: int, confidence: real)

  /**
   * What one call of a detection model yields: its detections in output
   * order, or the fault it raised. A result whose box list is missing and one
   * whose box list is empty are treated alike, so both are `Ran([])`.
   */
  datatype Run = Ran(detections: seq<Detection>) | Raised(detail: string)

  /** The confidence column of a detection set, in model output order. */
  function Confidences(dets: seq<Detection>): (confs: seq<real>)
    ensures |confs| == |dets|
    ensures forall i :: 0 <= i < |dets| ==> confs[i] == dets[i].confidence
  {
    seq(|dets|, i requires 0 <= i < |dets| => dets[i].confidence)
  }

  /**
   * `k` is the first position holding the largest confidence: nothing in the
   * set beats it, and everything before it is strictly smaller.
   */
  ghost predicate IsFirstMax(confs: seq<real>, k: int)
  {
    && 0 <= k < |confs|
    && (forall j :: 0 <= j < |confs| ==> confs[j] <= confs[k])
    && (forall j :: 0 <= j < k ==> confs[j] < confs[k])
  }

  /**
   * The index of the best detection, scanning left to right and replacing the
   * current best only on a strictly larger confidence, so that a tie goes to
   * the first occurrence.
   */
  function ArgMax(confs: seq<real>): (k: nat)
    requires |confs| > 0
    ensures IsFirstMax(confs, k)
  {
    if |confs| == 1 then 0
    else
      var last := |confs| - 1;
      var k := ArgMax(confs[..last]);
      if confs[last] > confs[k] then last else k
  }

  /** The first maximum is determined by the confidences alone: the selection is deterministic. */
  lemma ArgMaxIsUnique(confs: seq<real>, k: int)
    requires IsFirstMax(confs, k)
    ensures k == ArgMax(confs)
  {
  }
}
