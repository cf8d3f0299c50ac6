/** The view model of MetaverseCompetition/UI/MainView.swift. */
module UIMainView {
  import opened States

  class ViewModel {
    var currentState: MainViewState
    var addModelState: AddModelState
    var transcript: string
    var isTrascriptButtonPressed: bool

    constructor ()
      ensures currentState == MainViewState.AddModelState && addModelState == AddModelState.HandleExistingModel
      ensures transcript == "" && !isTrascriptButtonPressed
    {
      currentState := MainViewState.AddModelState;
      addModelState := AddModelState.HandleExistingModel;
      transcript := "";
      isTrascriptButtonPressed := false;
    }

    /** Sets the screen whatever it was, so a repeated call changes nothing more and the last call wins. */
    method ChangeMainViewState(state: MainViewState)
      modifies this`currentState
      ensures currentState == state
    {
      currentState := state;
    }

    method ChangeAddModelState(state: AddModelState)
      modifies this`addModelState
      ensures addModelState == state
    {
      addModelState := state;
    }
  }
}
