/**
  MetaverseCompetition/StudyView/Drawing/DrawingView.swift: handwriting recognition on
  the drawing canvas, appending what was read to the main view model's transcript.
  The canvas capture and the Vision text request are outside this model; a
  recognition run is counted instead.
*/
module Drawing {
  import opened Wrappers
  import MainView

  /** A `VNRecognizedTextObservation`, reduced to its best candidate string if it has one. */
  datatype TextObservation = TextObservation(topCandidate: Option<string>)

  /** The text `addRecognizedText` appends: each top candidate followed by a newline. */
  function Transcript(observations: seq<TextObservation>): (t: string)
    ensures |observations| == 0 ==> t == ""
  {
    if |observations| == 0 then ""
    else
      var last := observations[|observations| - 1];
      Transcript(observations[..|observations| - 1]) +
        (if last.topCandidate.Some? then last.topCandidate.value + "\n" else "")
  }

  /** Recognising two batches appends their texts one after the other. */
  lemma {:induction false} TranscriptOfConcatenation(a: seq<TextObservation>, b: seq<TextObservation>)
    ensures Transcript(a + b) == Transcript(a) + Transcript(b)
  {
    if |b| == 0 {
      assert a + b == a;
    } else {
      var n := |b| - 1;
      assert (a + b)[..|a + b| - 1] == a + b[..n];
      TranscriptOfConcatenation(a, b[..n]);
    }
  }

  /** Observations without a candidate add nothing. */
  lemma {:induction false} EmptyObservationsAddNothing(observations: seq<TextObservation>)
    requires forall i :: 0 <= i < |observations| ==> observations[i].topCandidate.None?
    ensures Transcript(observations) == ""
  {
    if |observations| > 0 {
      EmptyObservationsAddNothing(observations[..|observations| - 1]);
    }
  }

  /** A single recognised line is appended with its newline. */
  lemma OneCandidate(text: string)
    ensures Transcript([TextObservation(Some(text))]) == text + "\n"
  {
    assert [TextObservation(Some(text))][..0] == [];
  }

  class DrawingViewController {
    const mainViewVM: MainView.ViewModel
    /** How many times recognition was started (capture plus `processImage`). */
    var recognitionRuns: nat

    constructor (mainViewVM: MainView.ViewModel)
      ensures this.mainViewVM == mainViewVM && recognitionRuns == 0
    {
      this.mainViewVM := mainViewVM;
      recognitionRuns := 0;
    }

    /** The `isTrascriptButtonPressed` sink: only a true value starts recognition. */
    method OnTranscriptButtonPressedChanged(isTranscriptButtonPressed: bool)
      modifies this`recognitionRuns
      ensures recognitionRuns == old(recognitionRuns) + (if isTranscriptButtonPressed then 1 else 0)
    {
      if isTranscriptButtonPressed {
        recognitionRuns := recognitionRuns + 1;
      }
    }

    /** `addRecognizedText`: the old transcript stays as a prefix, followed by the new lines. */
    method AddRecognizedText(recognizedText: seq<TextObservation>)
      modifies mainViewVM`transcript
      ensures mainViewVM.transcript == old(mainViewVM.transcript) + Transcript(recognizedText)
      ensures old(mainViewVM.transcript) <= mainViewVM.transcript
    {
      ghost var before := mainViewVM.transcript;
      var i := 0;
      while i < |recognizedText|
        invariant 0 <= i <= |recognizedText|
        invariant mainViewVM.transcript == before + Transcript(recognizedText[..i])
      {
        assert recognizedText[..i + 1][..i] == recognizedText[..i];
        var observation := recognizedText[i];
        if observation.topCandidate.None? {
          i := i + 1;
          continue;
        }
        mainViewVM.transcript := mainViewVM.transcript + observation.topCandidate.value;
        mainViewVM.transcript := mainViewVM.transcript + "\n";
        i := i + 1;
      }
      assert recognizedText[..i] == recognizedText;
    }

    /** The text request's completion: a non-empty list of text observations is added. */
    method OnTextRecognized(results: Option<seq<TextObservation>>)
      modifies mainViewVM`transcript
      ensures results.None? || |results.value| == 0 ==> mainViewVM.transcript == old(mainViewVM.transcript)
      ensures results.Some? ==> mainViewVM.transcript == old(mainViewVM.transcript) + Transcript(results.value)
    {
      if results.Some? && |results.value| > 0 {
        AddRecognizedText(results.value);
      }
    }
  }
}
