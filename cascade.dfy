/**
 * The request decision cascade of the `/detect` endpoint: decode, a gating
 * filter model, a terminal model with a fallback used only when the main
 * model raises, best-detection selection, the acceptance threshold and the
 * class-key lookup. Every exit path yields exactly one tagged outcome.
 */
module Cascade {

  import opened Wrappers
  import opened Detections
  import opened ClassKeyTable

  /** A best confidence strictly below this is rejected; exactly this value passes. */
  const AcceptanceThreshold: real := 0.40

  /** What reading and decoding the upload produced: an image, no image, or a fault. */
  datatype Decode = Decoded | Undecodable | DecodeFault(detail: string)

  /**
   * One request, with the detection models as opaque inputs: what the filter
   * model, the main model and the fallback model each yield on the decoded
   * image. `fallback` stands for reloading the fallback weights and running
   * them; a fault in either step is its `Raised` case.
   */
  datatype Request = Request(decode: Decode, filter: Run, main: Run, fallback: Run)

  /** Which terminal model produced a success. */
  datatype Engine = Main | Fallback

  datatype Reason =
    | InvalidImageFormat
    | NoBananaDetected
    | BananaLikeObject
    | LowConfidence
    | UnknownClassId
    | ServerError(detail: string)

  /** The response body: a species key with its confidence and engine, or one failure reason. */
  datatype Outcome =
    | Success(bananaKey: string, confidence: real, engine: Engine)
    | Failure(reason: Reason)

  /** The model calls a request can make, in the order the cascade makes them. */
  datatype Stage = FilterStage | MainStage | FallbackStage

  const StageOrder: seq<Stage> := [FilterStage, MainStage, FallbackStage]

  /** The outcome of a request together with the model calls it made. */
  datatype Handling = Handling(outcome: Outcome, consulted: seq<Stage>)

  /** The terminal result: the main model's, unless it raised, in which case the fallback's. */
  function TerminalRun(main: Run, fallback: Run): (r: Run)
  {
    if main.Raised? then fallback else main
  }

  /** The engine a terminal result is reported under. */
  function TerminalEngine(main: Run): (e: Engine)
  {
    if main.Raised? then Fallback else Main
  }

  /**
   * Post-processing of a non-raising terminal result: empty set, best
   * detection, acceptance threshold, then class-key lookup, in that order.
   */
  function PostProcess(dets: seq<Detection>, engine: Engine): (o: Outcome)
    ensures o == Failure(BananaLikeObject) <==> |dets| == 0
    ensures o == Failure(LowConfidence) <==>
              |dets| > 0 && forall i :: 0 <= i < |dets| ==> dets[i].confidence < AcceptanceThreshold
    ensures o.Success? ==>
              && o.engine == engine
              && o.confidence >= AcceptanceThreshold
              && o.bananaKey in ClassKeys.Values
              && (forall i :: 0 <= i < |dets| ==> dets[i].confidence <= o.confidence)
    ensures o.Success? ==>
              exists k :: && IsFirstMax(Confidences(dets), k)
                          && o.confidence == dets[k].confidence
                          && Lookup(dets[k].classId) == Some(o.bananaKey)
    ensures o == Failure(UnknownClassId) <==>
              exists k :: && IsFirstMax(Confidences(dets), k)
                          && dets[k].confidence >= AcceptanceThreshold
                          && Lookup(dets[k].classId).None?
    ensures o.Failure? ==> o.reason in {BananaLikeObject, LowConfidence, UnknownClassId}
  {
    if |dets| == 0 then Failure(BananaLikeObject)
    else
      var best := ArgMax(Confidences(dets));
      var classId := dets[best].classId;
      var conf := dets[best].confidence;
      if conf < AcceptanceThreshold then Failure(LowConfidence)
      else
        match Lookup(classId)
        case None => Failure(UnknownClassId)
        case Some(key) => Success(key, conf, engine)
  }

  /**
   * The whole endpoint. Faults while decoding, in the filter model, or in the
   * fallback model are caught and become `ServerError`; a fault in the main
   * model switches to the fallback.
   */
  function Detect(req: Request): (h: Handling)
    ensures |h.consulted| <= |StageOrder| && h.consulted == StageOrder[..|h.consulted|]
    ensures h.outcome.Success? ==>
              h.outcome.confidence >= AcceptanceThreshold && h.outcome.bananaKey in ClassKeys.Values
  {
    match req.decode
    case DecodeFault(e) => Handling(Failure(ServerError(e)), [])
    case Undecodable => Handling(Failure(InvalidImageFormat), [])
    case Decoded =>
      match req.filter
      case Raised(e) => Handling(Failure(ServerError(e)), [FilterStage])
      case Ran(r1) =>
        if |r1| == 0 then Handling(Failure(NoBananaDetected), [FilterStage])
        else
          var consulted := if req.main.Raised? then StageOrder else [FilterStage, MainStage];
          match TerminalRun(req.main, req.fallback)
          case Raised(e) => Handling(Failure(ServerError(e)), consulted)
          case Ran(r2) => Handling(PostProcess(r2, TerminalEngine(req.main)), consulted)
  }
}
