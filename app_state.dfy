/**
  MetaverseCompetition/Injected/AppState.swift: the snapshot of all screen states
  that the store holds, one slice per screen, with the defaults a fresh app starts
  from. Fields that the services and view models use but that AppState.swift does
  not declare (`studyAppState`, `testAppState`, `transcriptionResult`,
  `wordModels`, `selectedModelForTest`) are declared here.
*/
module AppStateModel {
  import opened Wrappers
  import opened States
  import opened Words
  import opened StateStore

  /** An `AnchorEntity` of the AR scene, by reference. */
  type AnchorRef = nat

  datatype AddModelAppState = AddModelAppState(
    modelConfirmedForPlacement: Option<string>,
    addModelState: AddModelState)

  datatype MainViewAppState = MainViewAppState(
    mainViewState: MainViewState,
    wordModels: seq<WordModel>,
    selectedModelForTest: Option<SelectedWordModel>)

  datatype DrawingViewAppState = DrawingViewAppState(
    transcript: string,
    isTrascriptButtonPressed: bool,
    transcriptionResult: string)

  datatype StudyAppState = StudyAppState(studyState: StudyState)

  datatype TestAppState = TestAppState(testState: TestState, anchorEntities: seq<AnchorRef>)

  datatype AppState = AppState(
    addModelAppState: AddModelAppState,
    mainViewAppState: MainViewAppState,
    drawingViewAppState: DrawingViewAppState,
    studyAppState: StudyAppState,
    testAppState: TestAppState)

  /** `AppState()`: every slice with its declared default. */
  function InitialAppState(): (s: AppState)
    ensures s.addModelAppState.modelConfirmedForPlacement == None
    ensures s.addModelAppState.addModelState == AddModelState.HandleExistingModel
    ensures s.mainViewAppState.mainViewState == MainViewState.AddModelState
    ensures s.mainViewAppState.wordModels == [] && s.mainViewAppState.selectedModelForTest == None
    ensures s.drawingViewAppState.transcript == "" && !s.drawingViewAppState.isTrascriptButtonPressed
    ensures s.drawingViewAppState.transcriptionResult == ""
    ensures s.studyAppState.studyState == StudyState.Home
    ensures s.testAppState.testState == TestState.Home && s.testAppState.anchorEntities == []
  {
    AppState(
      AddModelAppState(None, AddModelState.HandleExistingModel),
      MainViewAppState(MainViewState.AddModelState, [], None),
      DrawingViewAppState("", false, ""),
      StudyAppState(StudyState.Home),
      TestAppState(TestState.Home, []))
  }

  /** The slices are `Equatable` field by field. */
  lemma SliceEqualityIsFieldwise(a: AddModelAppState, b: AddModelAppState, c: DrawingViewAppState, d: DrawingViewAppState)
    ensures a == b <==> a.modelConfirmedForPlacement == b.modelConfirmedForPlacement && a.addModelState == b.addModelState
    ensures c == d <==> c.transcript == d.transcript && c.isTrascriptButtonPressed == d.isTrascriptButtonPressed
                        && c.transcriptionResult == d.transcriptionResult
  {
  }

  // The key paths the view models bind through the store's diffing subscript.

  function ModelConfirmedForPlacementPath(): KeyPath<AppState, Option<string>> {
    KeyPath((s: AppState) => s.addModelAppState.modelConfirmedForPlacement,
            (s: AppState, v) => s.(addModelAppState := s.addModelAppState.(modelConfirmedForPlacement := v)))
  }

  function AddModelStatePath(): KeyPath<AppState, AddModelState> {
    KeyPath((s: AppState) => s.addModelAppState.addModelState,
            (s: AppState, v) => s.(addModelAppState := s.addModelAppState.(addModelState := v)))
  }

  function TestStatePath(): KeyPath<AppState, TestState> {
    KeyPath((s: AppState) => s.testAppState.testState,
            (s: AppState, v) => s.(testAppState := s.testAppState.(testState := v)))
  }

  /** Each key path reads back what it wrote and leaves the other two fields alone. */
  lemma KeyPathsAreLawfulAndIndependent()
    ensures Lawful(ModelConfirmedForPlacementPath()) && Lawful(AddModelStatePath()) && Lawful(TestStatePath())
    ensures Independent(AddModelStatePath(), ModelConfirmedForPlacementPath())
    ensures Independent(ModelConfirmedForPlacementPath(), AddModelStatePath())
    ensures Independent(TestStatePath(), AddModelStatePath())
    ensures Independent(AddModelStatePath(), TestStatePath())
  {
  }
}
