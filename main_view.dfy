/**
  The view model of the earlier revision MetaverseCompetition/MainView.swift and its
  button actions. Its screen state has five cases: the `switch` on it names
  `.addModelState`, `.practiceState` and `.testState`, and two home buttons name
  `.arView` and `.drawing`. It also keeps an `ARViewState`. Both enums are declared here.
*/
module MainView {
  import opened Wrappers

  datatype MainViewState = AddModelState | PracticeState | TestState | ArView | Drawing

  datatype ARViewState = HandleExistingModel | HandleImportedModel | SelectModels

  class ViewModel {
    var currentState: MainViewState
    var arViewState: ARViewState
    var modelConfirmedForPlacement: Option<string>
    var isPlacementEnabled: bool
    var selectedModel: Option<string>
    var transcript: string
    var isTrascriptButtonPressed: bool

    constructor ()
      ensures currentState == AddModelState && arViewState == HandleExistingModel
      ensures modelConfirmedForPlacement == None && !isPlacementEnabled && selectedModel == None
      ensures transcript == "" && !isTrascriptButtonPressed
    {
      currentState := AddModelState;
      arViewState := HandleExistingModel;
      modelConfirmedForPlacement := None;
      isPlacementEnabled := false;
      selectedModel := None;
      transcript := "";
      isTrascriptButtonPressed := false;
    }

    method ChangeMainViewState(state: MainViewState)
      modifies this`currentState
      ensures currentState == state
    {
      currentState := state;
    }

    method ChangeARViewState(state: ARViewState)
      modifies this`arViewState
      ensures arViewState == state
    {
      arViewState := state;
    }

    method ResetPlacementParameters()
      modifies this`isPlacementEnabled, this`selectedModel
      ensures !isPlacementEnabled && selectedModel == None
    {
      isPlacementEnabled := false;
      selectedModel := None;
    }

    /** The xmark button: nothing is confirmed and the selection is dropped. */
    method CancelButtonTapped()
      modifies this`modelConfirmedForPlacement, this`isPlacementEnabled, this`selectedModel
      ensures modelConfirmedForPlacement == None
      ensures !isPlacementEnabled && selectedModel == None
    {
      modelConfirmedForPlacement := None;
      ResetPlacementParameters();
    }

    /** The checkmark button: the selection is copied out before the reset clears it. */
    method ConfirmButtonTapped()
      modifies this`modelConfirmedForPlacement, this`isPlacementEnabled, this`selectedModel
      ensures modelConfirmedForPlacement == old(selectedModel)
      ensures !isPlacementEnabled && selectedModel == None
    {
      modelConfirmedForPlacement := selectedModel;
      ResetPlacementParameters();
    }

    /** Tapping a model in the picker. */
    method PickerTapped(name: string)
      modifies this`isPlacementEnabled, this`selectedModel
      ensures selectedModel == Some(name) && isPlacementEnabled
    {
      selectedModel := Some(name);
      isPlacementEnabled := true;
    }

    /** The "Transcript" button of the drawing screen. */
    method TranscriptButtonTapped()
      modifies this`isTrascriptButtonPressed
      ensures isTrascriptButtonPressed == !old(isTrascriptButtonPressed)
    {
      isTrascriptButtonPressed := !isTrascriptButtonPressed;
    }
  }
}
