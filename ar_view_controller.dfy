/**
  MetaverseCompetition/UI/UIKitViews/ARView/ARViewController.swift: tap handling on the
  AR screen and the controller's reactions to the view model's published values.
  Each reaction is a method the corresponding Combine sink would call.
*/
module ARViewControl {
  import opened Wrappers
  import opened States
  import opened Words
  import opened ARScene
  import opened ARViewModelState

  /** What one tap does. */
  datatype TapEffect =
    | NoEffect
    | Classify(position: Position)
    | SelectForStudy(selected: SelectedWordModel)
    | SelectForTest(selected: SelectedWordModel)

  /**
    `handleTap`: nothing without a raycast hit; otherwise the screen state decides.
    On the add-model screen only the existing-model mode classifies what the camera
    sees; on the practice and test screens the tapped word is selected if it is in the scene.
  */
  function TapEffectOf(mainViewState: MainViewState, addModelState: AddModelState, scene: Scene,
                       raycast: Option<RaycastResult>, hitEntity: Option<string>): (e: TapEffect)
    ensures raycast.None? ==> e == NoEffect
    ensures e.Classify? <==>
      raycast.Some? && mainViewState == MainViewState.AddModelState && addModelState == AddModelState.HandleExistingModel
    ensures e.Classify? ==> e.position == raycast.value.worldPosition
    ensures e.SelectForStudy? <==>
      raycast.Some? && mainViewState == MainViewState.PracticeState && SelectedModelName(scene, hitEntity).Some?
    ensures e.SelectForTest? <==>
      raycast.Some? && mainViewState == MainViewState.TestState && SelectedModelName(scene, hitEntity).Some?
    ensures e.SelectForStudy? || e.SelectForTest? ==>
      e.selected == SelectedWordModel(SelectedModelName(scene, hitEntity).value, raycast.value)
  {
    match raycast
    case None => NoEffect
    case Some(result) =>
      match mainViewState
      case AddModelState =>
        if addModelState == AddModelState.HandleExistingModel then Classify(result.worldPosition) else NoEffect
      case PracticeState =>
        (match SelectedModelName(scene, hitEntity)
         case None => NoEffect
         case Some(name) => SelectForStudy(SelectedWordModel(name, result)))
      case TestState =>
        (match SelectedModelName(scene, hitEntity)
         case None => NoEffect
         case Some(name) => SelectForTest(SelectedWordModel(name, result)))
  }

  /** A tap outside the add-model screen never classifies, and on it never selects. */
  lemma TapEffectsAreExclusive(mainViewState: MainViewState, addModelState: AddModelState, scene: Scene,
                               raycast: Option<RaycastResult>, hitEntity: Option<string>)
    ensures var e := TapEffectOf(mainViewState, addModelState, scene, raycast, hitEntity);
      (mainViewState == MainViewState.AddModelState ==> !e.SelectForStudy? && !e.SelectForTest?) &&
      (mainViewState != MainViewState.AddModelState ==> !e.Classify?)
  {
  }

  /** Tapping a placed word on the practice screen selects that very word for study. */
  lemma TapOnPlacedWordSelectsItForStudy(scene: Scene, word: string, result: RaycastResult, addModelState: AddModelState)
    requires '_' !in word
    ensures TapEffectOf(MainViewState.PracticeState, addModelState, PlaceWord(scene, word), Some(result), Some(SphereName(word)))
      == SelectForStudy(SelectedWordModel(word, result))
  {
    PlacedWordIsSelectable(scene, word);
  }

  class ARViewController {
    const viewModel: ARViewModel
    const arView: ARSceneView
    /** The positions handed to `classificationModel.handleExistModel`, in order. */
    var classificationRuns: seq<Position>
    /** Whether the placement subscription is still alive; a load failure completes it. */
    var placementSubscribed: bool

    constructor (viewModel: ARViewModel, arView: ARSceneView)
      ensures this.viewModel == viewModel && this.arView == arView
      ensures classificationRuns == [] && placementSubscribed
    {
      this.viewModel := viewModel;
      this.arView := arView;
      classificationRuns := [];
      placementSubscribed := true;
    }

    /** `handleTap` with the raycast result and the entity under the tap as inputs. */
    method HandleTap(raycast: Option<RaycastResult>, hitEntity: Option<string>)
      modifies this`classificationRuns, viewModel`requests
      ensures var e := TapEffectOf(old(viewModel.mainViewState), old(viewModel.addModelState), arView.scene, raycast, hitEntity);
        (classificationRuns == old(classificationRuns) + (if e.Classify? then [e.position] else [])) &&
        (viewModel.requests == old(viewModel.requests) +
          (if e.SelectForStudy? then [SetSelectedModelForStudy(e.selected)]
           else if e.SelectForTest? then [SetSelectedModelForTest(e.selected)]
           else []))
    {
      if raycast.None? {
        return;
      }
      var result := raycast.value;
      match viewModel.mainViewState
      case AddModelState =>
        HandleAddModelState(result.worldPosition);
      case PracticeState =>
        var name := SelectedModelName(arView.scene, hitEntity);
        if name.Some? {
          viewModel.Forward(SetSelectedModelForStudy(SelectedWordModel(name.value, result)));
        }
      case TestState =>
        var name := SelectedModelName(arView.scene, hitEntity);
        if name.Some? {
          viewModel.Forward(SetSelectedModelForTest(SelectedWordModel(name.value, result)));
        }
    }

    /** `handleAddModelState`: only the existing-model mode starts a classification. */
    method HandleAddModelState(position: Position)
      modifies this`classificationRuns
      ensures classificationRuns == old(classificationRuns) +
        (if viewModel.addModelState == AddModelState.HandleExistingModel then [position] else [])
    {
      match viewModel.addModelState
      case Home =>
      case HandleExistingModel =>
        classificationRuns := classificationRuns + [position];
      case HandleImportedModel =>
    }

    /** The `addModelState` sink: the focus square is shown exactly in imported-model mode. */
    method OnAddModelStateChanged(addModelState: AddModelState)
      modifies arView`hasFocusSquare
      ensures arView.hasFocusSquare <==> addModelState == AddModelState.HandleImportedModel
    {
      if addModelState == AddModelState.HandleImportedModel {
        arView.SetFocusSquare(true);
      } else {
        arView.SetFocusSquare(false);
      }
    }

    /**
      The `selectedModelForStudy` sink: a new selection highlights the word's text.
      `videoBundled` says whether the app bundle holds the highlight video.
    */
    method OnSelectedModelForStudyChanged(selected: Option<SelectedWordModel>, videoBundled: bool)
      modifies arView`scene
      ensures arView.scene == (if selected.None? then old(arView.scene)
                               else ChangeModelTextTexture(old(arView.scene), selected.value.word, videoBundled))
    {
      if selected.None? {
        return;
      }
      arView.scene := ChangeModelTextTexture(arView.scene, selected.value.word, videoBundled);
    }

    /**
      The `selectedModelForStudyOldValue` sink: the previously selected word gets its
      plain text back, and then the old value is asked to be cleared.
    */
    method OnSelectedModelForStudyOldValueChanged(selected: Option<SelectedWordModel>)
      modifies arView`scene, viewModel`requests
      ensures selected.None? ==> arView.scene == old(arView.scene) && viewModel.requests == old(viewModel.requests)
      ensures selected.Some? ==>
        arView.scene == ReturnModelTextTexture(old(arView.scene), selected.value.word) &&
        viewModel.requests == old(viewModel.requests) + [SetSelectedModelForStudyOldValue]
    {
      if selected.None? {
        return;
      }
      arView.scene := ReturnModelTextTexture(arView.scene, selected.value.word);
      viewModel.Forward(SetSelectedModelForStudyOldValue);
    }

    /**
      The `modelConfirmedForPlacement` pipeline, given whether loading the named model
      succeeded. Nil values are dropped. A successful load adds the word's anchor, sphere
      and text and records the word; a failed load completes the subscription, whose
      completion handler clears the confirmed model, and no later value is placed.
    */
    method OnModelConfirmedForPlacement(modelName: Option<string>, loaded: bool)
      modifies arView`scene, viewModel`requests, viewModel`modelConfirmedForPlacement, this`placementSubscribed
      ensures !old(placementSubscribed) || modelName.None? ==>
        arView.scene == old(arView.scene) && viewModel.requests == old(viewModel.requests) &&
        viewModel.modelConfirmedForPlacement == old(viewModel.modelConfirmedForPlacement) &&
        placementSubscribed == old(placementSubscribed)
      ensures old(placementSubscribed) && modelName.Some? && loaded ==>
        arView.scene == PlaceWord(old(arView.scene), modelName.value) &&
        viewModel.requests == old(viewModel.requests) + [AddNewWordModel(modelName.value, None)] &&
        viewModel.modelConfirmedForPlacement == old(viewModel.modelConfirmedForPlacement) &&
        placementSubscribed
      ensures old(placementSubscribed) && modelName.Some? && !loaded ==>
        arView.scene == old(arView.scene) && viewModel.requests == old(viewModel.requests) &&
        viewModel.modelConfirmedForPlacement == None && !placementSubscribed
    {
      if !placementSubscribed || modelName.None? {
        return;
      }
      if loaded {
        arView.scene := PlaceWord(arView.scene, modelName.value);
        viewModel.Forward(AddNewWordModel(modelName.value, None));
      } else {
        placementSubscribed := false;
        viewModel.modelConfirmedForPlacement := None;
      }
    }
  }
}
