/**
  The screen-state enumerations of MetaverseCompetition/State.swift.
  Swift's lower-case case names are written in PascalCase.
*/
module States {

  /** The three macro screens of the app. */
  datatype MainViewState = AddModelState | PracticeState | TestState

  /** What a tap does while the app is on the add-model screen. */
  datatype AddModelState = Home | HandleExistingModel | HandleImportedModel

  datatype StudyState = Home | PreviousState

  datatype TestState = Home | PreviousState | Finish

  /** The look of a floating word label. */
  datatype TextModelState = Add | QuestionMark | Finished | Selected | JustReturn
}
