/**
  Post-processing of classifier output, in
  MetaverseCompetition/UI/UIKitViews/ARView/HandleExistModel.swift (`RealClassification`)
  and the earlier MetaverseCompetition/ARView/ClassifyRealObject/HandleExistModel.swift.
  Both revisions format predictions the same way.
*/
module Classification {
  import opened Wrappers
  import opened Strings
  import opened Words
  import opened ImagePrediction
  import opened ARScene
  import opened ARViewModelState

  /** A label cut before its first comma ("tabby, tabby cat" becomes "tabby"). */
  function ShortLabel(classification: string): (name: string)
    ensures name <= classification && ',' !in name
    ensures |name| < |classification| ==> classification[|name|] == ','
    ensures ',' !in classification ==> name == classification
  {
    PrefixBefore(classification, ',')
  }

  /** `formatPredictions`: the short labels of the first two predictions, in order. */
  function FormatPredictions(predictions: seq<Prediction>): (labels: seq<string>)
    ensures |labels| == if |predictions| < 2 then |predictions| else 2
    ensures forall i :: 0 <= i < |labels| ==>
      labels[i] <= predictions[i].classification && ',' !in labels[i]
    ensures forall i :: 0 <= i < |labels| && ',' !in predictions[i].classification ==>
      labels[i] == predictions[i].classification
    ensures forall i :: 0 <= i < |labels| && |labels[i]| < |predictions[i].classification| ==>
      predictions[i].classification[|labels[i]|] == ','
  {
    var n := if |predictions| < 2 then |predictions| else 2;
    seq(n, i requires 0 <= i < n => ShortLabel(predictions[i].classification))
  }

  /** Only the first two predictions matter. */
  lemma FormatPredictionsKeepsTopTwo(predictions: seq<Prediction>, more: seq<Prediction>)
    requires |predictions| >= 2
    ensures FormatPredictions(predictions + more) == FormatPredictions(predictions)
  {
    var a := FormatPredictions(predictions + more);
    var b := FormatPredictions(predictions);
    assert a[0] == ShortLabel((predictions + more)[0].classification);
    assert a[1] == ShortLabel((predictions + more)[1].classification);
    assert b[0] == ShortLabel(predictions[0].classification);
    assert b[1] == ShortLabel(predictions[1].classification);
  }

  /** `RealClassification`: classifies the camera image and places the top label as a word. */
  class RealClassification {
    var latestPrediction: string
    const arView: ARSceneView
    const viewModel: ARViewModel

    constructor (arView: ARSceneView, viewModel: ARViewModel)
      ensures latestPrediction == "hello"
      ensures this.arView == arView && this.viewModel == viewModel
    {
      latestPrediction := "hello";
      this.arView := arView;
      this.viewModel := viewModel;
    }

    /**
      The prediction handler followed by its completion, given the raycast from the
      screen centre. Nil predictions end here. Otherwise there must be one (`first!`),
      its short label becomes `latestPrediction`, and unless the centre raycast misses,
      the word's anchor "<label>_anchor" is added and the word is recorded.
    */
    method ImagePredictorHandler(predictions: Option<seq<Prediction>>, centreRaycast: Option<RaycastResult>)
      requires predictions.Some? ==> |predictions.value| > 0
      modifies this`latestPrediction, arView`scene, viewModel`requests
      ensures predictions.None? ==>
        latestPrediction == old(latestPrediction) && arView.scene == old(arView.scene) &&
        viewModel.requests == old(viewModel.requests)
      ensures predictions.Some? ==> latestPrediction == FormatPredictions(predictions.value)[0]
      ensures predictions.Some? && centreRaycast.None? ==>
        arView.scene == old(arView.scene) && viewModel.requests == old(viewModel.requests)
      ensures predictions.Some? && centreRaycast.Some? ==>
        arView.scene == PlaceWord(old(arView.scene), latestPrediction) &&
        viewModel.requests == old(viewModel.requests) + [AddNewWordModel(latestPrediction, centreRaycast)]
    {
      if predictions.None? {
        return;
      }
      var formattedPrediction := FormatPredictions(predictions.value);
      latestPrediction := formattedPrediction[0];
      if centreRaycast.None? {
        return;
      }
      arView.scene := PlaceWord(arView.scene, latestPrediction);
      viewModel.Forward(AddNewWordModel(latestPrediction, centreRaycast));
    }
  }

  /**
    End to end: when Vision classifies without error, the label the handler takes is
    the first observation's identifier cut at its first comma; in every other case the
    handler receives nil.
  */
  lemma LabelFromVision(outcome: VisionOutcome)
    ensures PredictionsFor(outcome).None? <==>
      outcome.error || outcome.results.None? || outcome.results.value.OtherResults?
    ensures (!outcome.error && outcome.results.Some? && outcome.results.value.Classifications? &&
             |outcome.results.value.observations| > 0) ==>
      FormatPredictions(PredictionsFor(outcome).value)[0] == ShortLabel(outcome.results.value.observations[0].identifier)
  {
  }

  /**
    The earlier revision's handler, which belonged to the AR view controller: nil
    predictions show "Prediction Fail" instead of being ignored.
  */
  class PredictionLabel {
    var latestPrediction: string

    constructor (initial: string)
      ensures latestPrediction == initial
    {
      latestPrediction := initial;
    }

    method ImagePredictorHandler(predictions: Option<seq<Prediction>>)
      requires predictions.Some? ==> |predictions.value| > 0
      modifies this`latestPrediction
      ensures predictions.None? ==> latestPrediction == "Prediction Fail"
      ensures predictions.Some? ==> latestPrediction == FormatPredictions(predictions.value)[0]
    {
      if predictions.None? {
        latestPrediction := "Prediction Fail";
        return;
      }
      var formattedPrediction := FormatPredictions(predictions.value);
      latestPrediction := formattedPrediction[0];
    }
  }
}
