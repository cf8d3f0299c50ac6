/**
  MetaverseCompetition/WordModel.swift: the record of one learned word, and the
  focus pointer the Study and Test screens keep to a word in the AR scene.
*/
module Words {

  /** A world position returned by an AR raycast; the coordinates are opaque here. */
  type Position = int

  /** The part of an `ARRaycastResult` that the app passes around. */
  datatype RaycastResult = RaycastResult(worldPosition: Position)

  /**
    A learned word. `id` stands for the random `UUID().uuidString` and is taken as a
    parameter. `isMemorizedFinished` is the flag that the Test screen counts; the
    record declares it beside `isMemorized`.
  */
  datatype WordModel = WordModel(
    word: string,
    id: string,
    isStudyFinished: bool,
    isMemorized: bool,
    isMemorizedFinished: bool,
    count: int)

  /** `SelectedWordModel`: the word under focus and where it was tapped. */
  datatype SelectedWordModel = SelectedWordModel(word: string, rayCastResult: RaycastResult)

  /** `WordModel(word:)`: the word as given, no progress yet. */
  function NewWordModel(word: string, id: string): (w: WordModel)
    ensures w.word == word && w.id == id
    ensures !w.isStudyFinished && !w.isMemorized && !w.isMemorizedFinished
    ensures w.count == 0
  {
    WordModel(word, id, false, false, false, 0)
  }
}
