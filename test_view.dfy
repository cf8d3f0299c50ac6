/**
  MetaverseCompetition/UI/TestView/TestStateView.swift: the Test screen's view
  model and its count of words already memorized.
*/
module TestView {
  import opened Wrappers
  import opened States
  import opened Words
  import opened AppStateModel
  import opened StateStore
  import opened Services

  /** `wordModels.filter { $0.isMemorizedFinished == true }`. */
  function MemorizedWords(ws: seq<WordModel>): (r: seq<WordModel>)
    ensures |r| <= |ws|
    ensures forall w :: w in r ==> w in ws && w.isMemorizedFinished
  {
    if |ws| == 0 then []
    else (if ws[0].isMemorizedFinished then [ws[0]] else []) + MemorizedWords(ws[1..])
  }

  /** `isMemorizedFinishedCount`. */
  function CountMemorizedFinished(ws: seq<WordModel>): (n: nat)
    ensures n <= |ws|
    ensures |ws| == 0 ==> n == 0
  {
    |MemorizedWords(ws)|
  }

  /** The count reaches the number of words exactly when every word is memorized. */
  lemma {:induction false} AllMemorizedIff(ws: seq<WordModel>)
    ensures CountMemorizedFinished(ws) == |ws| <==> forall i :: 0 <= i < |ws| ==> ws[i].isMemorizedFinished
  {
    if |ws| > 0 {
      AllMemorizedIff(ws[1..]);
      assert forall i :: 1 <= i < |ws| ==> ws[i] == ws[1..][i - 1];
    }
  }

  /** The count is zero exactly when no word is memorized. */
  lemma {:induction false} NoneMemorizedIff(ws: seq<WordModel>)
    ensures CountMemorizedFinished(ws) == 0 <==> forall i :: 0 <= i < |ws| ==> !ws[i].isMemorizedFinished
  {
    if |ws| > 0 {
      NoneMemorizedIff(ws[1..]);
      assert forall i :: 1 <= i < |ws| ==> ws[i] == ws[1..][i - 1];
    }
  }

  /** Marking one not-yet-memorized word as memorized raises the count by exactly one. */
  lemma {:induction false} MarkingOneWordRaisesCount(ws: seq<WordModel>, k: nat)
    requires k < |ws| && !ws[k].isMemorizedFinished
    ensures CountMemorizedFinished(ws[k := ws[k].(isMemorizedFinished := true)]) == CountMemorizedFinished(ws) + 1
  {
    var ws' := ws[k := ws[k].(isMemorizedFinished := true)];
    if k == 0 {
      assert ws'[1..] == ws[1..];
    } else {
      assert ws'[1..] == ws[1..][k - 1 := ws[k].(isMemorizedFinished := true)];
      MarkingOneWordRaisesCount(ws[1..], k - 1);
    }
  }

  class ViewModel {
    var testState: TestState
    var selectedModelForTest: Option<SelectedWordModel>
    var wordModels: seq<WordModel>
    var isPopupView: bool
    const testService: TestService

    constructor (testService: TestService)
      requires testService.appState.Valid()
      ensures this.testService == testService
      ensures testState == testService.appState.value.testAppState.testState
      ensures selectedModelForTest == testService.appState.value.mainViewAppState.selectedModelForTest
      ensures wordModels == testService.appState.value.mainViewAppState.wordModels
      ensures !isPopupView
    {
      this.testService := testService;
      testState := testService.appState.value.testAppState.testState;
      selectedModelForTest := testService.appState.value.mainViewAppState.selectedModelForTest;
      wordModels := testService.appState.value.mainViewAppState.wordModels;
      isPopupView := false;
    }

    function IsMemorizedFinishedCount(): (n: nat)
      reads this
      ensures n <= |wordModels|
    {
      CountMemorizedFinished(wordModels)
    }

    method ChangeTestState(state: TestState)
      requires testService.appState.Valid()
      modifies testService.appState
      ensures testService.appState.Valid()
      ensures testService.appState.value == WithTestState(old(testService.appState.value), state)
      ensures testService.appState.value.testAppState.testState == state
    {
      testService.ChangeTestState(state);
    }
  }
}
