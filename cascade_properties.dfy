/**
 * What the `/detect` cascade promises, stated over all requests: the order of
 * the checks, which model calls are made, when the fallback is used, how the
 * best detection is chosen, and exactly when a request succeeds.
 */
module CascadeProperties {

  import opened Wrappers
  import opened Detections
  import opened ClassKeyTable
  import opened Cascade

  /** An image that does not decode is rejected before any model is called. */
  lemma UndecodableImageConsultsNoModel(req: Request)
    requires req.decode == Undecodable
    ensures Detect(req) == Handling(Failure(InvalidImageFormat), [])
  {
  }

  /**
   * An empty gating result vetoes the request: the terminal and fallback
   * models are never called, so their results cannot matter.
   */
  lemma EmptyGateVetoes(req: Request)
    requires req.decode == Decoded && req.filter.Ran? && |req.filter.detections| == 0
    ensures Detect(req) == Handling(Failure(NoBananaDetected), [FilterStage])
  {
  }

  /** The main model is called exactly when decoding succeeded and the gate let the request through. */
  lemma MainConsultedIffGatePasses(req: Request)
    ensures MainStage in Detect(req).consulted <==>
              req.decode == Decoded && req.filter.Ran? && |req.filter.detections| > 0
  {
  }

  /** The fallback model is called exactly when the gate passed and the main model raised. */
  lemma FallbackConsultedIffMainRaised(req: Request)
    ensures FallbackStage in Detect(req).consulted <==>
              && req.decode == Decoded
              && req.filter.Ran? && |req.filter.detections| > 0
              && req.main.Raised?
  {
  }

  /** A success reports engine "fallback" exactly when the main model raised. */
  lemma SuccessEngineTellsFallback(req: Request)
    requires Detect(req).outcome.Success?
    ensures Detect(req).outcome.engine == Fallback <==> req.main.Raised?
  {
  }

  /**
   * An empty but non-raising main result is a `BananaLikeObject` failure and
   * does not bring in the fallback model.
   */
  lemma EmptyMainResultSkipsFallback(req: Request)
    requires req.decode == Decoded && req.filter.Ran? && |req.filter.detections| > 0
    requires req.main == Ran([])
    ensures Detect(req) == Handling(Failure(BananaLikeObject), [FilterStage, MainStage])
  {
  }

  /** A fault anywhere outside the main model is caught and reported as a server error with its detail. */
  lemma FaultsBecomeServerErrors(req: Request, e: string)
    ensures req.decode == DecodeFault(e) ==> Detect(req).outcome == Failure(ServerError(e))
    ensures req.decode == Decoded && req.filter == Raised(e) ==>
              Detect(req).outcome == Failure(ServerError(e))
    ensures && req.decode == Decoded
            && req.filter.Ran? && |req.filter.detections| > 0
            && req.main.Raised? && req.fallback == Raised(e)
            ==> Detect(req) == Handling(Failure(ServerError(e)), StageOrder)
  {
  }

  /**
   * Selection and the two checks after it, on a non-empty terminal result:
   * the detection at the first maximum decides, its confidence is tested
   * against the threshold before its class index is looked up, and a success
   * carries that same detection's confidence and species key.
   */
  lemma PostProcessUsesFirstMax(dets: seq<Detection>, engine: Engine, k: int)
    requires IsFirstMax(Confidences(dets), k)
    ensures PostProcess(dets, engine) ==
              if dets[k].confidence < AcceptanceThreshold then Failure(LowConfidence)
              else if 0 <= dets[k].classId < 10 then
                Success(ClassKeys[dets[k].classId], dets[k].confidence, engine)
              else Failure(UnknownClassId)
  {
    ArgMaxIsUnique(Confidences(dets), k);
  }

  /**
   * Exactly when a request succeeds, stated without the cascade: the image
   * decoded, the gate found something, the terminal result did not raise,
   * and its first maximum reaches the threshold with a class index that the
   * table knows.
   */
  ghost predicate Accepted(req: Request)
  {
    && req.decode == Decoded
    && req.filter.Ran? && |req.filter.detections| > 0
    && var r2 := TerminalRun(req.main, req.fallback);
    && r2.Ran?
    && exists k :: && IsFirstMax(Confidences(r2.detections), k)
                   && r2.detections[k].confidence >= AcceptanceThreshold
                   && 0 <= r2.detections[k].classId < 10
  }

  lemma SuccessIffAccepted(req: Request)
    ensures Detect(req).outcome.Success? <==> Accepted(req)
  {
    var r2 := TerminalRun(req.main, req.fallback);
    if && req.decode == Decoded && req.filter.Ran? && |req.filter.detections| > 0
       && r2.Ran? && |r2.detections| > 0 {
      var k := ArgMax(Confidences(r2.detections));
      PostProcessUsesFirstMax(r2.detections, TerminalEngine(req.main), k);
      if Accepted(req) {
        var j :| && IsFirstMax(Confidences(r2.detections), j)
                 && r2.detections[j].confidence >= AcceptanceThreshold
                 && 0 <= r2.detections[j].classId < 10;
        ArgMaxIsUnique(Confidences(r2.detections), j);
      }
    }
  }
}
