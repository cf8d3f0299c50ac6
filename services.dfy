/**
  The services of MetaverseCompetition/Services/: each operation assigns one field
  of the shared `appState.value`. The pure transitions below say what one assignment
  does to the snapshot; the service classes apply them to the store. Assigning
  `appState.value` goes through the subject's `value` setter, which always
  publishes, not through the diffing subscript.
*/
module Services {
  import opened Wrappers
  import opened States
  import opened AppStateModel
  import opened StateStore

  // Which slices an operation leaves alone.

  ghost predicate OutsideAddModelUnchanged(s: AppState, r: AppState) {
    r.mainViewAppState == s.mainViewAppState && r.drawingViewAppState == s.drawingViewAppState
    && r.studyAppState == s.studyAppState && r.testAppState == s.testAppState
  }

  ghost predicate OutsideMainViewUnchanged(s: AppState, r: AppState) {
    r.addModelAppState == s.addModelAppState && r.drawingViewAppState == s.drawingViewAppState
    && r.studyAppState == s.studyAppState && r.testAppState == s.testAppState
  }

  ghost predicate OutsideDrawingUnchanged(s: AppState, r: AppState) {
    r.addModelAppState == s.addModelAppState && r.mainViewAppState == s.mainViewAppState
    && r.studyAppState == s.studyAppState && r.testAppState == s.testAppState
  }

  ghost predicate OutsideStudyUnchanged(s: AppState, r: AppState) {
    r.addModelAppState == s.addModelAppState && r.mainViewAppState == s.mainViewAppState
    && r.drawingViewAppState == s.drawingViewAppState && r.testAppState == s.testAppState
  }

  ghost predicate OutsideTestUnchanged(s: AppState, r: AppState) {
    r.addModelAppState == s.addModelAppState && r.mainViewAppState == s.mainViewAppState
    && r.drawingViewAppState == s.drawingViewAppState && r.studyAppState == s.studyAppState
  }

  // AddModelService

  function WithAddModelState(s: AppState, state: AddModelState): (r: AppState)
    ensures r.addModelAppState.addModelState == state
    ensures r.addModelAppState.modelConfirmedForPlacement == s.addModelAppState.modelConfirmedForPlacement
    ensures OutsideAddModelUnchanged(s, r)
  {
    s.(addModelAppState := s.addModelAppState.(addModelState := state))
  }

  function WithoutConfirmedModel(s: AppState): (r: AppState)
    ensures r.addModelAppState.modelConfirmedForPlacement == None
    ensures r.addModelAppState.addModelState == s.addModelAppState.addModelState
    ensures OutsideAddModelUnchanged(s, r)
  {
    s.(addModelAppState := s.addModelAppState.(modelConfirmedForPlacement := None))
  }

  function WithConfirmedModel(s: AppState, selectedModel: string): (r: AppState)
    ensures r.addModelAppState.modelConfirmedForPlacement == Some(selectedModel)
    ensures r.addModelAppState.addModelState == s.addModelAppState.addModelState
    ensures OutsideAddModelUnchanged(s, r)
  {
    s.(addModelAppState := s.addModelAppState.(modelConfirmedForPlacement := Some(selectedModel)))
  }

  /** Each add-model operation is idempotent, and the last state change wins. */
  lemma AddModelOperationsIdempotent(s: AppState, a: AddModelState, b: AddModelState, m: string)
    ensures WithAddModelState(WithAddModelState(s, a), a) == WithAddModelState(s, a)
    ensures WithAddModelState(WithAddModelState(s, a), b) == WithAddModelState(s, b)
    ensures WithoutConfirmedModel(WithoutConfirmedModel(s)) == WithoutConfirmedModel(s)
    ensures WithConfirmedModel(WithConfirmedModel(s, m), m) == WithConfirmedModel(s, m)
  {
  }

  /** Confirming and then cancelling leaves no model confirmed, as if only cancel had run. */
  lemma ConfirmThenCancel(s: AppState, m: string)
    ensures WithoutConfirmedModel(WithConfirmedModel(s, m)) == WithoutConfirmedModel(s)
    ensures WithoutConfirmedModel(WithConfirmedModel(s, m)).addModelAppState.modelConfirmedForPlacement == None
  {
  }

  // MainViewService

  function WithMainViewState(s: AppState, state: MainViewState): (r: AppState)
    ensures r.mainViewAppState.mainViewState == state
    ensures r.mainViewAppState.wordModels == s.mainViewAppState.wordModels
    ensures r.mainViewAppState.selectedModelForTest == s.mainViewAppState.selectedModelForTest
    ensures OutsideMainViewUnchanged(s, r)
  {
    s.(mainViewAppState := s.mainViewAppState.(mainViewState := state))
  }

  lemma MainViewStateLastWriteWins(s: AppState, a: MainViewState, b: MainViewState)
    ensures WithMainViewState(WithMainViewState(s, a), a) == WithMainViewState(s, a)
    ensures WithMainViewState(WithMainViewState(s, a), b) == WithMainViewState(s, b)
  {
  }

  // StudyService

  function WithStudyState(s: AppState, state: StudyState): (r: AppState)
    ensures r.studyAppState.studyState == state
    ensures OutsideStudyUnchanged(s, r)
  {
    s.(studyAppState := s.studyAppState.(studyState := state))
  }

  lemma StudyStateLastWriteWins(s: AppState, a: StudyState, b: StudyState)
    ensures WithStudyState(WithStudyState(s, a), a) == WithStudyState(s, a)
    ensures WithStudyState(WithStudyState(s, a), b) == WithStudyState(s, b)
  {
  }

  // TestService

  function WithTestState(s: AppState, state: TestState): (r: AppState)
    ensures r.testAppState.testState == state
    ensures r.testAppState.anchorEntities == s.testAppState.anchorEntities
    ensures OutsideTestUnchanged(s, r)
  {
    s.(testAppState := s.testAppState.(testState := state))
  }

  function WithAnchorEntities(s: AppState, anchorEntities: seq<AnchorRef>): (r: AppState)
    ensures r.testAppState.anchorEntities == anchorEntities
    ensures r.testAppState.testState == s.testAppState.testState
    ensures OutsideTestUnchanged(s, r)
  {
    s.(testAppState := s.testAppState.(anchorEntities := anchorEntities))
  }

  lemma TestOperationsIdempotent(s: AppState, a: TestState, xs: seq<AnchorRef>)
    ensures WithTestState(WithTestState(s, a), a) == WithTestState(s, a)
    ensures WithAnchorEntities(WithAnchorEntities(s, xs), xs) == WithAnchorEntities(s, xs)
  {
  }

  // DrawingViewService

  /** One `transcriptionResult += text`. */
  function AppendedTranscription(s: AppState, text: string): (r: AppState)
    ensures r.drawingViewAppState.transcriptionResult == s.drawingViewAppState.transcriptionResult + text
    ensures r.drawingViewAppState.transcript == s.drawingViewAppState.transcript
    ensures r.drawingViewAppState.isTrascriptButtonPressed == s.drawingViewAppState.isTrascriptButtonPressed
    ensures OutsideDrawingUnchanged(s, r)
  {
    s.(drawingViewAppState := s.drawingViewAppState.(
         transcriptionResult := s.drawingViewAppState.transcriptionResult + text))
  }

  /** `isTrascriptButtonPressed.toggle()`. */
  function ToggledTranscriptButton(s: AppState): (r: AppState)
    ensures r.drawingViewAppState.isTrascriptButtonPressed == !s.drawingViewAppState.isTrascriptButtonPressed
    ensures r.drawingViewAppState.transcript == s.drawingViewAppState.transcript
    ensures r.drawingViewAppState.transcriptionResult == s.drawingViewAppState.transcriptionResult
    ensures OutsideDrawingUnchanged(s, r)
  {
    s.(drawingViewAppState := s.drawingViewAppState.(
         isTrascriptButtonPressed := !s.drawingViewAppState.isTrascriptButtonPressed))
  }

  /**
    The two appends of `addTranscirptString` end with the old text, the result and
    a newline: the old text is a prefix and the length grows by |result| + 1.
  */
  lemma AddTranscriptStringAppendsLine(s: AppState, result: string)
    ensures var r := AppendedTranscription(AppendedTranscription(s, result), "\n");
      && r.drawingViewAppState.transcriptionResult == s.drawingViewAppState.transcriptionResult + result + "\n"
      && s.drawingViewAppState.transcriptionResult <= r.drawingViewAppState.transcriptionResult
      && |r.drawingViewAppState.transcriptionResult| == |s.drawingViewAppState.transcriptionResult| + |result| + 1
      && OutsideDrawingUnchanged(s, r)
  {
  }

  /** Pressing the transcription button twice restores the flag. */
  lemma ToggleTwiceRestores(s: AppState)
    ensures ToggledTranscriptButton(ToggledTranscriptButton(s)) == s
  {
  }

  // The service objects. Each holds the shared store.

  class AddModelService {
    const appState: Store<AppState>

    constructor (appState: Store<AppState>)
      ensures this.appState == appState
    {
      this.appState := appState;
    }

    method ChangeAddModelState(state: AddModelState)
      requires appState.Valid()
      modifies appState
      ensures appState.Valid()
      ensures appState.value == WithAddModelState(old(appState.value), state)
      ensures appState.log == old(appState.log) + [appState.value]
    {
      appState.Send(WithAddModelState(appState.value, state));
    }

    method ModelPlacementCancelButton()
      requires appState.Valid()
      modifies appState
      ensures appState.Valid()
      ensures appState.value == WithoutConfirmedModel(old(appState.value))
      ensures appState.log == old(appState.log) + [appState.value]
    {
      appState.Send(WithoutConfirmedModel(appState.value));
    }

    method ModelPlacementConfirmButton(selectedModel: string)
      requires appState.Valid()
      modifies appState
      ensures appState.Valid()
      ensures appState.value == WithConfirmedModel(old(appState.value), selectedModel)
      ensures appState.log == old(appState.log) + [appState.value]
    {
      appState.Send(WithConfirmedModel(appState.value, selectedModel));
    }
  }

  class MainViewService {
    const appState: Store<AppState>

    constructor (appState: Store<AppState>)
      ensures this.appState == appState
    {
      this.appState := appState;
    }

    method ChangeMainViewState(state: MainViewState)
      requires appState.Valid()
      modifies appState
      ensures appState.Valid()
      ensures appState.value == WithMainViewState(old(appState.value), state)
      ensures appState.log == old(appState.log) + [appState.value]
    {
      appState.Send(WithMainViewState(appState.value, state));
    }
  }

  class StudyService {
    const appState: Store<AppState>

    constructor (appState: Store<AppState>)
      ensures this.appState == appState
    {
      this.appState := appState;
    }

    method ChangeStudyState(state: StudyState)
      requires appState.Valid()
      modifies appState
      ensures appState.Valid()
      ensures appState.value == WithStudyState(old(appState.value), state)
      ensures appState.log == old(appState.log) + [appState.value]
    {
      appState.Send(WithStudyState(appState.value, state));
    }
  }

  class TestService {
    const appState: Store<AppState>

    constructor (appState: Store<AppState>)
      ensures this.appState == appState
    {
      this.appState := appState;
    }

    method ChangeTestState(state: TestState)
      requires appState.Valid()
      modifies appState
      ensures appState.Valid()
      ensures appState.value == WithTestState(old(appState.value), state)
      ensures appState.log == old(appState.log) + [appState.value]
    {
      appState.Send(WithTestState(appState.value, state));
    }

    method SetAnchorEntities(anchorEntities: seq<AnchorRef>)
      requires appState.Valid()
      modifies appState
      ensures appState.Valid()
      ensures appState.value == WithAnchorEntities(old(appState.value), anchorEntities)
      ensures appState.log == old(appState.log) + [appState.value]
    {
      appState.Send(WithAnchorEntities(appState.value, anchorEntities));
    }
  }

  class DrawingViewService {
    const appState: Store<AppState>

    constructor (appState: Store<AppState>)
      ensures this.appState == appState
    {
      this.appState := appState;
    }

    /** Two compound assignments, so two publications: first with the result, then with the newline. */
    method AddTranscirptString(result: string)
      requires appState.Valid()
      modifies appState
      ensures appState.Valid()
      ensures appState.value == AppendedTranscription(AppendedTranscription(old(appState.value), result), "\n")
      ensures appState.log == old(appState.log) + [AppendedTranscription(old(appState.value), result), appState.value]
    {
      appState.Send(AppendedTranscription(appState.value, result));
      appState.Send(AppendedTranscription(appState.value, "\n"));
    }

    method PressTrascriptionButton()
      requires appState.Valid()
      modifies appState
      ensures appState.Valid()
      ensures appState.value == ToggledTranscriptButton(old(appState.value))
      ensures appState.log == old(appState.log) + [appState.value]
    {
      appState.Send(ToggledTranscriptButton(appState.value));
    }
  }
}
