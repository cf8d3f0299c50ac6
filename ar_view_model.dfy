/**
  The objects the AR screen works on: the view model of
  MetaverseCompetition/UI/UIKitViews/ARView/ViewControllerRepresentable.swift and the
  AR view whose scene holds the placed words.
*/
module ARViewModelState {
  import opened Wrappers
  import opened States
  import opened Words
  import opened AppStateModel
  import opened StateStore
  import opened ARScene

  /**
    A call the AR view model forwards to a service method that is not part of this
    model (`setSelectedModelForStudy`, `setSelectedModelForTest`,
    `setSelectedModelForStudyOldValue`, `addNewWordModel`). The view model keeps the
    calls in order.
  */
  datatype Request =
    | SetSelectedModelForStudy(selected: SelectedWordModel)
    | SetSelectedModelForTest(selected: SelectedWordModel)
    | SetSelectedModelForStudyOldValue
    | AddNewWordModel(word: string, rayCastResult: Option<RaycastResult>)

  class ARViewModel {
    var modelConfirmedForPlacement: Option<string>
    var addModelState: AddModelState
    var mainViewState: MainViewState
    var selectedModelForStudy: Option<SelectedWordModel>
    var selectedModelForStudyOldValue: Option<SelectedWordModel>
    var selectedModelForTest: Option<SelectedWordModel>
    var wordModels: seq<WordModel>
    var requests: seq<Request>

    /**
      The published fields start from the store. The study selections live in a part of
      the app state that is not modelled and start empty.
    */
    constructor (appState: Store<AppState>)
      ensures modelConfirmedForPlacement == appState.value.addModelAppState.modelConfirmedForPlacement
      ensures addModelState == appState.value.addModelAppState.addModelState
      ensures mainViewState == appState.value.mainViewAppState.mainViewState
      ensures selectedModelForTest == appState.value.mainViewAppState.selectedModelForTest
      ensures wordModels == appState.value.mainViewAppState.wordModels
      ensures selectedModelForStudy == None && selectedModelForStudyOldValue == None
      ensures requests == []
    {
      modelConfirmedForPlacement := appState.value.addModelAppState.modelConfirmedForPlacement;
      addModelState := appState.value.addModelAppState.addModelState;
      mainViewState := appState.value.mainViewAppState.mainViewState;
      selectedModelForStudy := None;
      selectedModelForStudyOldValue := None;
      selectedModelForTest := appState.value.mainViewAppState.selectedModelForTest;
      wordModels := appState.value.mainViewAppState.wordModels;
      requests := [];
    }

    method Forward(request: Request)
      modifies this`requests
      ensures requests == old(requests) + [request]
    {
      requests := requests + [request];
    }
  }

  /** The `CustomARView`: its scene and whether the focus square is shown. */
  class ARSceneView {
    var scene: Scene
    var hasFocusSquare: bool

    constructor ()
      ensures scene == map[] && !hasFocusSquare
    {
      scene := map[];
      hasFocusSquare := false;
    }

    /** `setFocusSquare(isCreateNeeded:)`. */
    method SetFocusSquare(isCreateNeeded: bool)
      modifies this`hasFocusSquare
      ensures hasFocusSquare == isCreateNeeded
    {
      hasFocusSquare := isCreateNeeded;
    }
  }
}
