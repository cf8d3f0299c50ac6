/**
  The image classifier front end of
  MetaverseCompetition/ARView/ClassifyRealObject/ImagePredictor.swift and its later
  revision MetaverseCompetition/UI/ARView/ClassifyRealObject/ImagePredictor.swift
  (which takes a `UIImage` instead of a pixel buffer; the request bookkeeping is the
  same). Vision requests and completion handlers are opaque identifiers here.
*/
module ImagePrediction {
  import opened Wrappers
  import opened ImageOrientation

  /** `ImagePredictor.Prediction`. The confidence text is formatted by code outside this model. */
  datatype Prediction = Prediction(classification: string, confidencePercentage: string)

  /** A `VNClassificationObservation`. */
  datatype Observation = Observation(identifier: string, confidencePercentageString: string)

  /** What `request.results` held: classification observations or results of another type. */
  datatype Results = Classifications(observations: seq<Observation>) | OtherResults

  /** What Vision hands to the completion handler. */
  datatype VisionOutcome = VisionOutcome(error: bool, results: Option<Results>)

  type RequestId = nat
  type HandlerId = nat

  /** One call of a client's completion handler. */
  datatype Invocation = Invocation(handler: HandlerId, predictions: Option<seq<Prediction>>)

  /** One request passed to `VNImageRequestHandler.perform`. */
  datatype Performed = Performed(request: RequestId, orientation: CGImagePropertyOrientation)

  /** The predictions the client receives: nil on an error, on nil results and on results of the wrong type. */
  function PredictionsFor(outcome: VisionOutcome): (r: Option<seq<Prediction>>)
    ensures r.Some? <==> !outcome.error && outcome.results.Some? && outcome.results.value.Classifications?
    ensures r.Some? ==> |r.value| == |outcome.results.value.observations|
    ensures r.Some? ==> forall i :: 0 <= i < |r.value| ==>
      r.value[i].classification == outcome.results.value.observations[i].identifier &&
      r.value[i].confidencePercentage == outcome.results.value.observations[i].confidencePercentageString
  {
    if outcome.error then None
    else if outcome.results.None? then None
    else match outcome.results.value
      case OtherResults => None
      case Classifications(obs) =>
        Some(seq(|obs|, i requires 0 <= i < |obs| => Prediction(obs[i].identifier, obs[i].confidencePercentageString)))
  }

  class ImagePredictor {
    /** `predictionHandlers`: the pending requests and whom to call back. */
    var predictionHandlers: map<RequestId, HandlerId>
    /** The next request object `createImageClassificationRequest` makes. */
    var nextRequest: RequestId
    var invocations: seq<Invocation>
    var performed: seq<Performed>

    /** Every pending request has been created. */
    ghost predicate Valid()
      reads this
    {
      forall r :: r in predictionHandlers ==> r < nextRequest
    }

    constructor ()
      ensures Valid()
      ensures predictionHandlers == map[] && invocations == [] && performed == []
    {
      predictionHandlers := map[];
      nextRequest := 0;
      invocations := [];
      performed := [];
    }

    /**
      `makePredictions`: a fresh request is registered with its handler and performed
      with the image's orientation converted. `perform` is synchronous, so Vision's
      completion (`outcome`) runs `visionRequestHandler` before the call returns: the
      registration is undone again and the handler has been called exactly once.
    */
    method MakePredictions(imageOrientation: UIImageOrientation, completionHandler: HandlerId, outcome: VisionOutcome)
      returns (request: RequestId)
      requires Valid()
      modifies this
      ensures Valid()
      ensures request !in old(predictionHandlers)
      ensures predictionHandlers == old(predictionHandlers)
      ensures performed == old(performed) + [Performed(request, FromUIImageOrientation(imageOrientation))]
      ensures invocations == old(invocations) + [Invocation(completionHandler, PredictionsFor(outcome))]
    {
      var orientation := FromUIImageOrientation(imageOrientation);
      request := nextRequest;
      nextRequest := nextRequest + 1;
      predictionHandlers := predictionHandlers[request := completionHandler];
      performed := performed + [Performed(request, orientation)];
      VisionRequestHandler(request, outcome);
      assert predictionHandlers == old(predictionHandlers);
    }

    /**
      `visionRequestHandler`: a completed request must be pending (otherwise the app
      stops with a fatal error); its entry is removed and its handler is called once.
    */
    method VisionRequestHandler(request: RequestId, outcome: VisionOutcome)
      requires Valid() && request in predictionHandlers
      modifies this`predictionHandlers, this`invocations
      ensures Valid()
      ensures predictionHandlers == old(predictionHandlers) - {request}
      ensures invocations == old(invocations) + [Invocation(old(predictionHandlers)[request], PredictionsFor(outcome))]
    {
      var predictionHandler := predictionHandlers[request];
      predictionHandlers := predictionHandlers - {request};
      var predictions := PredictionsFor(outcome);
      invocations := invocations + [Invocation(predictionHandler, predictions)];
    }
  }
}
