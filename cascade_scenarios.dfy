/**
 * Worked requests through the `/detect` cascade: the main path, the fallback
 * path, an unknown class, the threshold boundary and a tie.
 */
module CascadeScenarios {

  import opened Detections
  import opened Cascade

  /** A gate that found one box; the filter's own detections are never read beyond being non-empty. */
  const Gate: Run := Ran([Detection(0, 0.90)])

  /** Two terminal detections: the more confident one wins and is reported under the main engine. */
  lemma MainModelPicksMostConfident()
    ensures Detect(Request(Decoded, Gate, Ran([Detection(1, 0.80), Detection(3, 0.42)]), Raised("unused"))).outcome
            == Success("namwa", 0.80, Main)
  {
  }

  /** The main model raises; the fallback's result is used and tagged "fallback". */
  lemma RaisingMainUsesFallback()
    ensures Detect(Request(Decoded, Gate, Raised("shape mismatch"), Ran([Detection(7, 0.55)])))
            == Handling(Success("lepchanggud", 0.55, Fallback), StageOrder)
  {
  }

  /** A confident detection of a class index the table does not hold. */
  lemma UnknownClassIsRejected()
    ensures Detect(Request(Decoded, Gate, Ran([Detection(99, 0.90)]), Raised("unused"))).outcome
            == Failure(UnknownClassId)
  {
  }

  /** Exactly 0.40 is accepted; anything below it is not, even for an unknown class index. */
  lemma ThresholdBoundary()
    ensures Detect(Request(Decoded, Gate, Ran([Detection(2, 0.40)]), Raised("unused"))).outcome
            == Success("namwadam", 0.40, Main)
    ensures Detect(Request(Decoded, Gate, Ran([Detection(2, 0.399)]), Raised("unused"))).outcome
            == Failure(LowConfidence)
    ensures Detect(Request(Decoded, Gate, Ran([Detection(99, 0.30)]), Raised("unused"))).outcome
            == Failure(LowConfidence)
  {
  }

  /** Two detections with the same confidence: the first in output order is chosen. */
  lemma TieGoesToFirst()
    ensures Detect(Request(Decoded, Gate, Ran([Detection(4, 0.70), Detection(5, 0.70)]), Raised("unused"))).outcome
            == Success("nak", 0.70, Main)
  {
  }
}
