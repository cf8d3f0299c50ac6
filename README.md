# MetaverseCompetition in Dafny

MetaverseCompetition is an iPad app for learning English words in augmented reality.
One way to add a word is to point the camera at an object, so an image classifier
names it. The other is to place a bundled `.usdz` model. Either way the word becomes
an anchor in the AR scene, carrying a sphere and a text label. The Study, Test and handwriting screens then
work on the placed words. This project models the parts of the app that its own code
decides, rather than Apple's frameworks:

- **The state store** (`Store<AppState>`, a `CurrentValueSubject`). It is a class with a
  current `value` and a ghost `log` of every value it published.
  - The key-path subscript publishes only when the field really changes.
  - `bulkUpdate` and plain assignment always publish.
  - `updates(for:)` is the projected log with consecutive duplicates removed.
- **The app state and the word record.** These are datatypes with their default values.
- **The five services.** Each one rewrites one field of the shared app state. A pure
  function says what happens to the snapshot, and lemmas state the laws:
  idempotence, last write wins, and confirm-then-cancel.
- **The screen view models.** These are the placement bar (pick, then confirm or
  cancel, then reset), the model catalog built from the bundle listing, the two main
  view models, and the Test screen's memorised-word count.
- **The AR scene bookkeeping.** The scene is a map from entity name to parent and kind.
  Words are found by the names `"<word>_anchor"`, `"<word>_text"` and
  `"<word>_sphere"`. The model covers:
  - tap dispatch on the screen state;
  - decoding the tapped name back into a word;
  - the text-texture swap when a word is selected or released;
  - the model-placement and classification pipelines.
- **Classifier post-processing.** Only the top two labels are kept, each cut before its
  first comma. The classifier's pending-request registry is a map from request to handler.
- **Smaller utilities.** These are:
  - the string helpers `replace` and `removeWhitespace`;
  - the handwriting transcript append;
  - the 30-slot timing ring of `Measurement`;
  - the label-colour cache of the bounding-box view;
  - the UIKit-to-Core-Graphics orientation conversion.

Several source revisions sit side by side and disagree with each other. Each file is
modelled against the fields it names:

- **Undeclared fields.** `AppState.swift` does not declare `transcriptionResult`,
  `studyAppState` or `testAppState`, and `WordModel.swift` does not declare
  `isMemorizedFinished`. The services and screens use them anyway, so the model declares
  them, with defaults `""`, `.home`, `.home` with no anchors, and `false`.
- **The earlier root view model.** `MetaverseCompetition/MainView.swift` uses five
  screen cases. Its `switch` (lines 80-87) names `.addModelState`, `.practiceState`
  and `.testState`, and its buttons (lines 258 and 263) name `.arView` and `.drawing`.
  It also uses an `ARViewState`. `State.swift` has neither enum in that form, so
  module `MainView` declares both, with all five screen cases.
- **State enums.** The enums in `State.swift` supply every other state datatype
  (module `States`).
- **Image predictor revisions.** The two revisions of `ImagePredictor.swift` do the same
  bookkeeping; they differ only in the image type. One class `ImagePrediction.ImagePredictor`
  models both.
- **Catalog copies.** The model catalog is computed by the same code in
  `AddModelStateView.swift` and in the root `MainView.swift`. One method,
  `Catalog.PossibleImportedModel`, models both.

Outside inputs become parameters:

- the directory listing, which is absent when the bundle cannot be read;
- whether the bundle holds the highlight video "glowing1.mp4";
- raycast results, and the entity under a tap;
- whether loading a model succeeded;
- Vision's outcome;
- clock readings;
- the random colour for a new label;
- the word's UUID.

A call to a service method whose source is not shown is recorded as a `Request` in the
AR view model's `requests` log. Examples are `setSelectedModelForStudy` and
`addNewWordModel`.

## Model

| member | source | states |
|---|---|---|
| StateStore.Store.constructor | MetaverseCompetition/Utilities/Store.swift:12 | A store starts holding its initial value, which is the only value published so far. |
| StateStore.Store.Set | MetaverseCompetition/Utilities/Store.swift:16-25 | Setting a field to its current value changes nothing and publishes nothing. Setting it to a different value writes that field through the key path and publishes exactly the new state once. Afterwards a lawful key path reads back the value just set. |
| StateStore.Store.Send | MetaverseCompetition/Utilities/Store.swift:12 | Assigning `value` directly always publishes the new value, even when it is equal to the old one. |
| StateStore.Store.BulkUpdate | MetaverseCompetition/Utilities/Store.swift:28-32 | The update is applied once to the current value, and the result is always published. |
| StateStore.Store.Updates | MetaverseCompetition/Utilities/Store.swift:35-39 | The stream of a field's updates ends with the field's current value. It has no two equal neighbours, and it is a subsequence of that field's values over the whole publication log. |
| StateStore.Project | MetaverseCompetition/Utilities/Store.swift:38 | `map(keyPath)` gives one projected value per published state, in order. |
| StateStore.RemoveDuplicates | MetaverseCompetition/Utilities/Store.swift:38 | `removeDuplicates` never lengthens a stream. It keeps the stream's first and last values. |
| StateStore.RemoveDuplicatesHasNoAdjacentDuplicates | MetaverseCompetition/Utilities/Store.swift:38 | `removeDuplicates` output has no two equal adjacent values. |
| StateStore.RemoveDuplicatesIsSubsequence | MetaverseCompetition/Utilities/Store.swift:38 | `removeDuplicates` output is a subsequence of its input. |
| StateStore.SubsequenceOfTail | MetaverseCompetition/Utilities/Store.swift:38 | A subsequence of a stream's tail is a subsequence of the stream. |
| StateStore.SubsequenceWithoutHead | MetaverseCompetition/Utilities/Store.swift:38 | Dropping the first element of a subsequence leaves a subsequence. |
| StateStore.RemoveDuplicatesKeepsValues | MetaverseCompetition/Utilities/Store.swift:38 | A value occurs in the deduplicated stream exactly when it occurs in the input. |
| StateStore.RemoveDuplicatesOfDistinctNeighbours | MetaverseCompetition/Utilities/Store.swift:38 | A stream without equal neighbours passes through `removeDuplicates` unchanged. |
| StateStore.Binding.constructor | MetaverseCompetition/Utilities/Store.swift:43-49 | A binding starts with its wrapped value, no writes and no callbacks. |
| StateStore.Binding.OnSet | MetaverseCompetition/Utilities/Store.swift:47-55 | Every set leaves the wrapped value equal to the new value. The underlying write happens only when the value differs. `perform` is called with the value on every set. |
| AppStateModel.InitialAppState | MetaverseCompetition/Injected/AppState.swift:12-31 | A fresh app state has: no model confirmed for placement; add-model mode `.handleExistingModel`; screen `.addModelState`; no words and no test selection; an empty transcript; the transcript button unpressed; an empty transcription result; study and test state `.home` with no anchors. |
| AppStateModel.SliceEqualityIsFieldwise | MetaverseCompetition/Injected/AppState.swift:17-30 | Two slices are equal exactly when all their fields are equal. This is the synthesised `Equatable` conformance. |
| AppStateModel.KeyPathsAreLawfulAndIndependent | MetaverseCompetition/UI/AddModelView/AddModelStateView.swift:34-45 | The key paths the view models write through read back what they put, and writing one field leaves the others unchanged. |
| Words.NewWordModel | MetaverseCompetition/WordModel.swift:11-27 | `init(word:)` keeps the word unchanged and uses the given id. The new word is not study-finished, not memorised, not memorise-finished, and has count 0. |
| Services.WithAddModelState | MetaverseCompetition/Services/AddModelService.swift:27-29 | Sets `addModelState`. The confirmed model and every other slice are unchanged. |
| Services.WithoutConfirmedModel | MetaverseCompetition/Services/AddModelService.swift:31-33 | Clears `modelConfirmedForPlacement`. Everything else is unchanged. |
| Services.WithConfirmedModel | MetaverseCompetition/Services/AddModelService.swift:35-37 | Sets `modelConfirmedForPlacement` to the chosen model. Everything else is unchanged. |
| Services.AddModelOperationsIdempotent | MetaverseCompetition/Services/AddModelService.swift:27-37 | Each add-model operation applied twice equals applying it once. Of two mode changes, the last wins. |
| Services.ConfirmThenCancel | MetaverseCompetition/Services/AddModelService.swift:31-37 | Confirm followed by cancel is the same as cancel alone, and it ends with no model confirmed. |
| Services.WithMainViewState | MetaverseCompetition/Services/MainViewService.swift:23-25 | Sets only `mainViewAppState.mainViewState`. |
| Services.MainViewStateLastWriteWins | MetaverseCompetition/Services/MainViewService.swift:23-25 | Changing the screen is idempotent, and of two changes the last wins. |
| Services.WithStudyState | MetaverseCompetition/Services/StudyService.swift:23-25 | Sets only `studyAppState.studyState`. |
| Services.StudyStateLastWriteWins | MetaverseCompetition/Services/StudyService.swift:23-25 | Changing the study state is idempotent, and of two changes the last wins. |
| Services.WithTestState | MetaverseCompetition/Services/TestService.swift:26-28 | Sets only `testState`. The anchors and the other slices are unchanged. |
| Services.WithAnchorEntities | MetaverseCompetition/Services/TestService.swift:30-32 | Replaces the anchor list with exactly the given list. Nothing else changes. |
| Services.TestOperationsIdempotent | MetaverseCompetition/Services/TestService.swift:26-32 | Both test-state operations are idempotent. |
| Services.AppendedTranscription | MetaverseCompetition/Services/DrawingViewService.swift:25-28 | `transcriptionResult += text` appends to the transcription result and touches no other field. |
| Services.ToggledTranscriptButton | MetaverseCompetition/Services/DrawingViewService.swift:31-33 | Negates `isTrascriptButtonPressed` and touches no other field. |
| Services.AddTranscriptStringAppendsLine | MetaverseCompetition/Services/DrawingViewService.swift:25-28 | The new transcription result is the old one, then the text, then `"\n"`. The old one is a prefix of it, and the length grows by the text's length plus one. |
| Services.ToggleTwiceRestores | MetaverseCompetition/Services/DrawingViewService.swift:31-33 | Pressing the transcript button twice restores the state. |
| Services.AddModelService.ChangeAddModelState | MetaverseCompetition/Services/AddModelService.swift:27-29 | The store's value becomes the mode change of the old value, and one state is published. |
| Services.AddModelService.ModelPlacementCancelButton | MetaverseCompetition/Services/AddModelService.swift:31-33 | The store's value loses its confirmed model, and one state is published. |
| Services.AddModelService.ModelPlacementConfirmButton | MetaverseCompetition/Services/AddModelService.swift:35-37 | The store's value gets the confirmed model, and one state is published. |
| Services.MainViewService.ChangeMainViewState | MetaverseCompetition/Services/MainViewService.swift:23-25 | The store's value gets the new screen, and one state is published. |
| Services.StudyService.ChangeStudyState | MetaverseCompetition/Services/StudyService.swift:23-25 | The store's value gets the new study state, and one state is published. |
| Services.TestService.ChangeTestState | MetaverseCompetition/Services/TestService.swift:26-28 | The store's value gets the new test state, and one state is published. |
| Services.TestService.SetAnchorEntities | MetaverseCompetition/Services/TestService.swift:30-32 | The store's value gets the new anchor list, and one state is published. |
| Services.DrawingViewService.AddTranscirptString | MetaverseCompetition/Services/DrawingViewService.swift:25-28 | The two `+=` statements publish twice: first with the text appended, then with the newline appended. |
| Services.DrawingViewService.PressTrascriptionButton | MetaverseCompetition/Services/DrawingViewService.swift:31-33 | The store's value gets the flag toggled, and one state is published. |
| AddModelView.ViewModel.constructor | MetaverseCompetition/UI/AddModelView/AddModelStateView.swift:24-30 | The view model starts from the store's add-model slice, with placement disabled and nothing selected. |
| AddModelView.ViewModel.ChangeAddModelState | MetaverseCompetition/UI/AddModelView/AddModelStateView.swift:69-71 | Afterwards the app state's `addModelState` is the requested mode. |
| AddModelView.ViewModel.ResetPlacementParameters | MetaverseCompetition/UI/AddModelView/AddModelStateView.swift:84-87 | Placement is disabled and the selection is cleared. |
| AddModelView.ViewModel.ModelPlacementCancelButton | MetaverseCompetition/UI/AddModelView/AddModelStateView.swift:74-77 | The confirmed model is cleared in the store, then the placement parameters are reset. |
| AddModelView.ViewModel.ModelPlacementConfirmButton | MetaverseCompetition/UI/AddModelView/AddModelStateView.swift:79-82 | This needs a selected model, because of the force unwrap. The selection is published as the confirmed model, then the placement parameters are reset. |
| AddModelView.ViewModel.SelectModel | MetaverseCompetition/UI/AddModelView/AddModelStateView.swift:162-164 | A picker tap selects that model and enables placement. This keeps the invariant that enabled placement implies a selection. |
| AddModelView.ViewModel.ConfirmBarButton | MetaverseCompetition/UI/AddModelView/AddModelStateView.swift:202-205 | The checkmark is shown only while placement is enabled, so the force unwrap is safe. It confirms the selected model. |
| AddModelView.ViewModel.CancelBarButtonAsWritten | MetaverseCompetition/UI/AddModelView/AddModelStateView.swift:189-192 | The xmark button as written confirms the selected model, leaving a model confirmed for placement. |
| AddModelView.ViewModel.CancelBarButton | MetaverseCompetition/UI/AddModelView/AddModelStateView.swift:189-192 | The xmark button as intended cancels, leaving no model confirmed. |
| AddModelView.CancelBarButtonPlacesModel | MetaverseCompetition/UI/AddModelView/AddModelStateView.swift:189-192 | From every state, the written xmark action and a real cancel end in different states: one has the model confirmed, the other has none. |
| Catalog.PossibleImportedModel | MetaverseCompetition/UI/AddModelView/AddModelStateView.swift:51-67 | This is also the catalog of `MetaverseCompetition/MainView.swift:30-46`. An unreadable bundle gives an empty catalog. Otherwise the loop's result is the catalog of the listing. |
| Catalog.CatalogIsRenamedModelFiles | MetaverseCompetition/UI/AddModelView/AddModelStateView.swift:60-64 | The catalog holds one entry per file ending in "usdz", in listing order, and each entry is that file with ".usdz" removed. |
| Catalog.ModelFileIffStem | MetaverseCompetition/UI/AddModelView/AddModelStateView.swift:61 | `IsModelFile`, the `hasSuffix("usdz")` test, holds exactly when the file name is some string followed by "usdz". |
| Catalog.ModelName | MetaverseCompetition/UI/AddModelView/AddModelStateView.swift:62 | Removing ".usdz" never lengthens the name. |
| Catalog.ModelNameWithoutExtension | MetaverseCompetition/UI/AddModelView/AddModelStateView.swift:62 | A name in which ".usdz" does not occur is its own model name. |
| Catalog.CatalogOf | MetaverseCompetition/UI/AddModelView/AddModelStateView.swift:60-64 | The catalog is never longer than the listing. |
| Catalog.CatalogOfComplete | MetaverseCompetition/UI/AddModelView/AddModelStateView.swift:60-64 | Every model file of the listing has its model name in the catalog, and a listing without model files gives an empty catalog. |
| Catalog.ModelFiles | MetaverseCompetition/UI/AddModelView/AddModelStateView.swift:61 | The `where file.hasSuffix("usdz")` filter keeps exactly the model files of the listing: every kept file is a model file of the listing, and every model file of the listing is kept. It never keeps more files than the listing has. |
| Catalog.ModelFilesOfAppend | MetaverseCompetition/UI/AddModelView/AddModelStateView.swift:61 | Filtering two listings gives the filtered first followed by the filtered second, so listing order is kept. |
| Catalog.ModelFilesKeepsMultiplicity | MetaverseCompetition/UI/AddModelView/AddModelStateView.swift:61 | A model file occurs in the filtered listing as often as in the listing. |
| Catalog.CatalogOfAppend | MetaverseCompetition/UI/AddModelView/AddModelStateView.swift:60-64 | The catalog of two listings is the catalog of the first followed by the catalog of the second. |
| Catalog.ModelNameOfPlainName | MetaverseCompetition/UI/AddModelView/AddModelStateView.swift:62 | Take a plain name with no '.'. Stripping ".usdz" from that name followed by ".usdz" gives the name back. |
| Strings.Replace | MetaverseCompetition/Extension/String.swift:13-15 | `replace` with an empty target, or with a target equal to its replacement, returns the input. A replacement as long as the target keeps the length, and a shorter one never lengthens the string. |
| Strings.ReplaceAbsentPattern | MetaverseCompetition/Extension/String.swift:13-15 | `replace` with a pattern that does not occur returns the input. |
| Strings.RemoveWhitespace | MetaverseCompetition/Extension/String.swift:17-19 | `removeWhitespace`, defined through `replace(" ", "")`, equals dropping every ' ' and keeping every other character in order. |
| Strings.RemoveWhitespaceDropsSpaces | MetaverseCompetition/Extension/String.swift:13-19 | Literal replacement of " " by "" is the space filter. |
| Strings.NoSpaceLeft | MetaverseCompetition/Extension/String.swift:17-19 | The output contains no ' '. |
| Strings.OtherCharactersKept | MetaverseCompetition/Extension/String.swift:17-19 | Every character other than ' ' occurs in the output as often as in the input. This includes tabs and newlines. |
| Strings.RemoveWhitespaceLength | MetaverseCompetition/Extension/String.swift:17-19 | The output length is the input length minus the number of spaces. |
| Strings.RemoveWhitespaceKeepsSpaceFree | MetaverseCompetition/Extension/String.swift:17-19 | A string without spaces is returned unchanged. |
| Strings.RemoveWhitespaceIdempotent | MetaverseCompetition/Extension/String.swift:17-19 | Removing whitespace twice is the same as removing it once. |
| Strings.PrefixBefore | MetaverseCompetition/UI/UIKitViews/ARView/ARViewController.swift:271 | `prefix(while: { $0 != c })` is a prefix free of `c`. It stops only at a `c`, and it is the whole string when `c` does not occur. |
| Strings.PrefixBeforeOfJoin | MetaverseCompetition/UI/UIKitViews/ARView/ARViewController.swift:72 | Decoding `word + c + tail` gives back the word when the word is free of `c`. |
| MainView.ViewModel.constructor | MetaverseCompetition/MainView.swift:13-22 | The earlier root view model starts on `.addModelState` and `.handleExistingModel`, with no confirmed model, placement disabled, no selection, an empty transcript and the button unpressed. |
| MainView.ViewModel.ChangeMainViewState | MetaverseCompetition/MainView.swift:48-50 | Sets exactly `currentState`. |
| MainView.ViewModel.ChangeARViewState | MetaverseCompetition/MainView.swift:52-54 | Sets exactly `arViewState`. |
| MainView.ViewModel.ResetPlacementParameters | MetaverseCompetition/MainView.swift:56-59 | Placement is disabled and the selection is cleared. |
| MainView.ViewModel.CancelButtonTapped | MetaverseCompetition/MainView.swift:198-201 | The confirmed model becomes nil, then the placement parameters are reset. |
| MainView.ViewModel.ConfirmButtonTapped | MetaverseCompetition/MainView.swift:212-215 | The selected model, nil included, is copied into the confirmed model before the reset clears the selection. |
| MainView.ViewModel.PickerTapped | MetaverseCompetition/MainView.swift:234-236 | A picker tap selects that name and enables placement. |
| MainView.ViewModel.TranscriptButtonTapped | MetaverseCompetition/MainView.swift:112-114 | The "Transcript" button negates the pressed flag. |
| UIMainView.ViewModel.constructor | MetaverseCompetition/UI/MainView.swift:13-16 | The view model starts on `.addModelState` and `.handleExistingModel`, with an empty transcript and the button unpressed. |
| UIMainView.ViewModel.ChangeMainViewState | MetaverseCompetition/UI/MainView.swift:18-20 | Sets only `currentState`. The new value is the argument, whatever it was before, so the last write wins. |
| UIMainView.ViewModel.ChangeAddModelState | MetaverseCompetition/UI/MainView.swift:22-24 | Sets only `addModelState`. |
| TestView.MemorizedWords | MetaverseCompetition/UI/TestView/TestStateView.swift:19 | The filter keeps only words that are memorise-finished and that come from the list. It never keeps more words than the list has. |
| TestView.CountMemorizedFinished | MetaverseCompetition/UI/TestView/TestStateView.swift:18-20 | The count never exceeds the number of words, and an empty list gives 0. |
| TestView.AllMemorizedIff | MetaverseCompetition/UI/TestView/TestStateView.swift:18-20 | The count equals the number of words exactly when every word is memorise-finished. |
| TestView.NoneMemorizedIff | MetaverseCompetition/UI/TestView/TestStateView.swift:18-20 | The count is 0 exactly when no word is memorise-finished. |
| TestView.MarkingOneWordRaisesCount | MetaverseCompetition/UI/TestView/TestStateView.swift:18-20 | Flipping one word's flag from false to true raises the count by exactly one. |
| TestView.ViewModel.constructor | MetaverseCompetition/UI/TestView/TestStateView.swift:13-33 | The view model starts from the store's test state, test selection and words, with the popup hidden. |
| TestView.ViewModel.IsMemorizedFinishedCount | MetaverseCompetition/UI/TestView/TestStateView.swift:18-20 | The view model's count never exceeds its word list. |
| TestView.ViewModel.ChangeTestState | MetaverseCompetition/UI/TestView/TestStateView.swift:56-58 | Afterwards the app state's `testState` is the requested state. |
| ARScene.AnchorName | MetaverseCompetition/UI/UIKitViews/ARView/ARViewController.swift:72 | An anchor's name starts with its word, followed by '_'. |
| ARScene.TextName | MetaverseCompetition/UI/UIKitViews/ARView/GenerateTextSphereEntity.swift:85 | A text entity's name starts with its word, followed by '_'. The same name is given at lines 123 and 153. |
| ARScene.SphereName | MetaverseCompetition/UI/UIKitViews/ARView/GenerateTextSphereEntity.swift:64 | A sphere's name starts with its word, followed by '_'. |
| ARScene.NamesDistinct | MetaverseCompetition/UI/UIKitViews/ARView/GenerateTextSphereEntity.swift:64-153 | A word's anchor, text and sphere names are pairwise distinct. |
| ARScene.WordOf | MetaverseCompetition/UI/UIKitViews/ARView/ARViewController.swift:271 | The decoded word is a prefix of the entity name and contains no '_'. |
| ARScene.WordOfNames | MetaverseCompetition/UI/UIKitViews/ARView/ARViewController.swift:72 | For a word without '_', decoding its anchor, text or sphere name gives the word back. |
| ARScene.SelectedModelName | MetaverseCompetition/UI/UIKitViews/ARView/ARViewController.swift:265-282 | This is nil when no entity is under the tap. Otherwise it is the hit name's prefix before the first '_', and only if "<prefix>_text" exists in the scene. |
| ARScene.TapOnWordSelectsIt | MetaverseCompetition/UI/UIKitViews/ARView/ARViewController.swift:265-282 | Tapping any entity of a word without '_' selects that word exactly when its text entity exists. |
| ARScene.SwapText | MetaverseCompetition/UI/UIKitViews/ARView/ARViewController.swift:285-328 | Without "<m>_text" the scene is unchanged. Otherwise that entity is removed, and a replacement in the requested texture is attached under "<m>_anchor" if and only if the anchor exists. No other entity changes. |
| ARScene.ChangeModelTextTexture | MetaverseCompetition/UI/UIKitViews/ARView/ARViewController.swift:285-305 | Without "<m>_text" the scene is unchanged. With the video bundled, the text is swapped for a highlighted one. Without the video, "<m>_text" is gone afterwards, because the generator returns an unnamed entity (GenerateTextSphereEntity.swift:98-99). No other named entity changes. |
| ARScene.ReturnModelTextTexture | MetaverseCompetition/UI/UIKitViews/ARView/ARViewController.swift:308-328 | Without "<m>_text" the scene is unchanged. Otherwise the text comes back in the plain texture under "<m>_anchor", if and only if that anchor exists. No other entity changes. |
| ARScene.MissingVideoLosesWord | MetaverseCompetition/UI/UIKitViews/ARView/GenerateTextSphereEntity.swift:98-99 | Without the bundled video, highlighting a word removes its text entity. Afterwards no tap on the word's entities selects it, and releasing it changes nothing. |
| ARScene.SwapTextLastWins | MetaverseCompetition/UI/UIKitViews/ARView/ARViewController.swift:285-328 | Of two texture swaps of the same word, the second alone decides the scene. |
| ARScene.SwapTextCommutes | MetaverseCompetition/UI/UIKitViews/ARView/ARViewController.swift:285-328 | Swaps of words with unrelated names commute. |
| ARScene.ChangeThenReturn | MetaverseCompetition/UI/UIKitViews/ARView/ARViewController.swift:106-138 | Take a placed word, with the video bundled: highlight it, then release it. The scene is the original one with the word's text in the plain texture. Highlighting it again restores the highlighted scene. |
| ARScene.PlaceWord | MetaverseCompetition/UI/UIKitViews/ARView/ARViewController.swift:63-72 | Placing a word adds "<m>_anchor" at the scene root, with "<m>_sphere" and a fresh "<m>_text" under it. Every other entity is unchanged. |
| ARScene.PlacedWordIsSelectable | MetaverseCompetition/UI/UIKitViews/ARView/ARViewController.swift:63-72 | Once a word without '_' is placed, a tap on any of its entities selects that word. |
| ARViewControl.TapEffectOf | MetaverseCompetition/UI/UIKitViews/ARView/ARViewController.swift:206-262 | A tap with no raycast hit does nothing. A tap classifies exactly on the add-model screen in existing-model mode; `home` and `handleImportedModel` do nothing. It selects for study exactly on the practice screen, and for test exactly on the test screen, when a word is under the tap. |
| ARViewControl.TapEffectsAreExclusive | MetaverseCompetition/UI/UIKitViews/ARView/ARViewController.swift:219-226 | The add-model screen never selects, and the other screens never classify. |
| ARViewControl.TapOnPlacedWordSelectsItForStudy | MetaverseCompetition/UI/UIKitViews/ARView/ARViewController.swift:231-240 | On the practice screen, tapping a placed word's sphere selects that word, together with the raycast result. |
| ARViewControl.ARViewController.HandleTap | MetaverseCompetition/UI/UIKitViews/ARView/ARViewController.swift:206-228 | The tap's effect is carried out: a classification run is started, or a study or test selection is forwarded. |
| ARViewControl.ARViewController.HandleAddModelState | MetaverseCompetition/UI/UIKitViews/ARView/ARViewController.swift:253-262 | Only `.handleExistingModel` starts a classification run. |
| ARViewControl.ARViewController.OnAddModelStateChanged | MetaverseCompetition/UI/UIKitViews/ARView/ARViewController.swift:93-104 | The focus square exists exactly when the mode is `.handleImportedModel`. |
| ARViewControl.ARViewController.OnSelectedModelForStudyChanged | MetaverseCompetition/UI/UIKitViews/ARView/ARViewController.swift:106-118 | Nil does nothing. A selection highlights that word's text, or loses it when the video is not bundled. |
| ARViewControl.ARViewController.OnSelectedModelForStudyOldValueChanged | MetaverseCompetition/UI/UIKitViews/ARView/ARViewController.swift:120-138 | Nil does nothing. A previous selection gets its plain text back, and then the old value is asked to be cleared. |
| ARViewControl.ARViewController.OnModelConfirmedForPlacement | MetaverseCompetition/UI/UIKitViews/ARView/ARViewController.swift:46-90 | Nil is dropped. A loaded model is placed and recorded as a word. A failed load clears the confirmed model and ends the subscription, so nothing later is placed. |
| ARViewModelState.ARViewModel.constructor | MetaverseCompetition/UI/UIKitViews/ARView/ViewControllerRepresentable.swift:45-73 | The view model starts from the store's confirmed model, mode, screen, test selection and words. |
| ARViewModelState.ARViewModel.Forward | MetaverseCompetition/UI/UIKitViews/ARView/ViewControllerRepresentable.swift:127-152 | A forwarded service call is appended to the request log. |
| ARViewModelState.ARSceneView.SetFocusSquare | MetaverseCompetition/ARView/CustomARView.swift:36-42 | The focus square exists exactly when it was asked for. |
| Classification.ShortLabel | MetaverseCompetition/UI/UIKitViews/ARView/HandleExistModel.swift:107-113 | The classification is cut before its first comma. The result is a prefix with no ',', and a comma-free label passes through unchanged. |
| Classification.FormatPredictions | MetaverseCompetition/UI/UIKitViews/ARView/HandleExistModel.swift:105-116 | The result has min(2, n) labels in input order. Each is a prefix of its classification, cut exactly at the first comma, and contains no ','. A comma-free label is unchanged. The earlier copy at MetaverseCompetition/ARView/ClassifyRealObject/HandleExistModel.swift:96-107 is identical. |
| Classification.FormatPredictionsKeepsTopTwo | MetaverseCompetition/UI/UIKitViews/ARView/HandleExistModel.swift:106 | Predictions after the first two never affect the result. |
| Classification.RealClassification.constructor | MetaverseCompetition/UI/UIKitViews/ARView/HandleExistModel.swift:20-32 | `latestPrediction` starts as "hello". |
| Classification.RealClassification.ImagePredictorHandler | MetaverseCompetition/UI/UIKitViews/ARView/HandleExistModel.swift:45-102 | Nil predictions change nothing. Otherwise there must be at least one, and `latestPrediction` becomes the first formatted label. If the centre raycast fails, no anchor is added and no word is recorded. Otherwise "<label>_anchor" is placed and the word is recorded with the raycast. |
| Classification.LabelFromVision | MetaverseCompetition/UI/UIKitViews/ARView/HandleExistModel.swift:89-94 | The handler receives nil exactly on an error, on nil results or on results of the wrong type. A successful classification's label is the first identifier cut at its first comma. |
| Classification.PredictionLabel.ImagePredictorHandler | MetaverseCompetition/ARView/ClassifyRealObject/HandleExistModel.swift:73-92 | In the earlier revision, nil predictions show "Prediction Fail". Otherwise, with at least one prediction, the label is the first formatted one. |
| ImagePrediction.PredictionsFor | MetaverseCompetition/ARView/ClassifyRealObject/ImagePredictor.swift:106-123 | An error, nil results or a wrong result type each give nil. Otherwise there is one prediction per observation, in order, whose `classification` is the observation's identifier. The same code is at MetaverseCompetition/UI/ARView/ClassifyRealObject/ImagePredictor.swift:90-107. |
| ImagePrediction.ImagePredictor.constructor | MetaverseCompetition/ARView/ClassifyRealObject/ImagePredictor.swift:47 | A new predictor has no pending requests. |
| ImagePrediction.ImagePredictor.MakePredictions | MetaverseCompetition/ARView/ClassifyRealObject/ImagePredictor.swift:58-80 | A fresh request is registered with the handler and performed with the converted orientation. `perform` is synchronous, so Vision's completion runs `visionRequestHandler` before the call returns. Afterwards the registry is as before, and the handler has been called exactly once, with the predictions of Vision's outcome. The same code is at MetaverseCompetition/UI/ARView/ClassifyRealObject/ImagePredictor.swift:57-72. |
| ImagePrediction.ImagePredictor.VisionRequestHandler | MetaverseCompetition/ARView/ClassifyRealObject/ImagePredictor.swift:93-124 | Completing an unregistered request is fatal, so it is a precondition. The entry is removed and the other entries are left unchanged. That request's handler is called exactly once, with the mapped predictions. |
| ImageOrientation.FromUIImageOrientation | MetaverseCompetition/ARView/ClassifyRealObject/CGImagePropertyOrientation.swift:14-26 | Each of the eight known orientations maps to the same-named one, and mirrored stays mirrored. Any other case maps to `.up`. |
| ImageOrientation.ToUIImageOrientation | MetaverseCompetition/ARView/ClassifyRealObject/CGImagePropertyOrientation.swift:15-23 | This is the independent inverse: the known UIKit case of the same name. |
| ImageOrientation.RoundTrip | MetaverseCompetition/ARView/ClassifyRealObject/CGImagePropertyOrientation.swift:15-23 | Known cases survive the round trip in both directions. |
| ImageOrientation.KnownCasesMapInjectively | MetaverseCompetition/ARView/ClassifyRealObject/CGImagePropertyOrientation.swift:15-23 | No two known cases map to the same orientation. |
| ImageOrientation.EveryOrientationReached | MetaverseCompetition/ARView/ClassifyRealObject/CGImagePropertyOrientation.swift:15-23 | Every Core Graphics orientation is the image of some known case. |
| Measure.NextIndex | MetaverseCompetition/ARView/ClassifyRealObject/Measure.swift:32-33 | `index += 1; index %= 30` lands in 0..29 and wraps 29 to 0. |
| Measure.PreviousSlot | MetaverseCompetition/ARView/ClassifyRealObject/Measure.swift:67-69 | The previous slot is in 0..29. Slot 0's predecessor is slot 29. |
| Measure.PreviousUndoesNext | MetaverseCompetition/ARView/ClassifyRealObject/Measure.swift:32-69 | The previous slot of the next slot is the slot itself. |
| Measure.IndexAfterStarts | MetaverseCompetition/ARView/ClassifyRealObject/Measure.swift:19-33 | The index stays within -1..29 across any number of starts. |
| Measure.IndexAfterStartsWraps | MetaverseCompetition/ARView/ClassifyRealObject/Measure.swift:19-33 | After n > 0 starts from the initial -1, the index is (n - 1) mod 30. |
| Measure.Report | MetaverseCompetition/ARView/ClassifyRealObject/Measure.swift:45-51 | A report exists exactly when the current slot has "start", "endInference" and "end" and the previous slot has "start". It carries the inference and execution times measured from "start". |
| Measure.NoReportWithoutInference | MetaverseCompetition/ARView/ClassifyRealObject/Measure.swift:45-48 | A frame without an "endInference" label is never reported. |
| Measure.Measurement.constructor | MetaverseCompetition/ARView/ClassifyRealObject/Measure.swift:19-28 | The index starts at -1, and there are exactly 30 slots, each holding "start" and "end". |
| Measure.Measurement.StartMeasure | MetaverseCompetition/ARView/ClassifyRealObject/Measure.swift:31-37 | Moves to the next slot, and the current slot then holds only "start". Other slots are unchanged, and there are still 30 slots. |
| Measure.Measurement.LabelSlot | MetaverseCompetition/ARView/ClassifyRealObject/Measure.swift:61-65 | Nil writes nothing. A message writes only that key of that slot. |
| Measure.Measurement.Label | MetaverseCompetition/ARView/ClassifyRealObject/Measure.swift:57-59 | This needs a prior start, because index -1 is out of range. Nil writes nothing. A message writes only that key of the current slot. |
| Measure.Measurement.StopMeasure | MetaverseCompetition/ARView/ClassifyRealObject/Measure.swift:40-54 | This needs a prior start. It labels "end". The delegate is notified, once, only when there is a delegate, the current slot has start, endInference and end, and the previous slot has start. |
| BoundingBox.LabelKey | MetaverseCompetition/ARView/ClassifyRealObject/DrawingBoundingBox.swift:44-45 | A detection without a label uses "N/A" as key and text. |
| BoundingBox.Remember | MetaverseCompetition/ARView/ClassifyRealObject/DrawingBoundingBox.swift:15-26 | After a lookup the label is cached. A cached label leaves the map unchanged, a new label adds exactly one entry, and existing entries never change. |
| BoundingBox.RepeatedLookupAgrees | MetaverseCompetition/ARView/ClassifyRealObject/DrawingBoundingBox.swift:15-26 | Two successive lookups of the same label give the same colour. |
| BoundingBox.Boxes | MetaverseCompetition/ARView/ClassifyRealObject/DrawingBoundingBox.swift:35-66 | Drawing adds exactly two subviews per detection. |
| BoundingBox.BoxesUseCachedColors | MetaverseCompetition/ARView/ClassifyRealObject/DrawingBoundingBox.swift:35-66 | Drawing keeps every cached colour and caches every drawn label. Each detection's box and label, in that order, carry its label's final cached colour, so equal labels share a colour. |
| BoundingBox.DrawingBoundingBoxView.LabelColor | MetaverseCompetition/ARView/ClassifyRealObject/DrawingBoundingBox.swift:15-26 | A cached label returns its stored colour and leaves the map unchanged. A new label returns the fresh colour and inserts exactly that entry. |
| BoundingBox.DrawingBoundingBoxView.CreateLabelAndBox | MetaverseCompetition/ARView/ClassifyRealObject/DrawingBoundingBox.swift:43-66 | Appends the box, then the label, both in the label's colour. |
| BoundingBox.DrawingBoundingBoxView.DrawBoxs | MetaverseCompetition/ARView/ClassifyRealObject/DrawingBoundingBox.swift:35-41 | All old subviews are removed. Then two per detection are added in order, as `Boxes` says. |
| Drawing.Transcript | MetaverseCompetition/StudyView/Drawing/DrawingView.swift:87-95 | An empty observation list contributes nothing. |
| Drawing.TranscriptOfConcatenation | MetaverseCompetition/StudyView/Drawing/DrawingView.swift:89-94 | Two batches append their texts in order. |
| Drawing.EmptyObservationsAddNothing | MetaverseCompetition/StudyView/Drawing/DrawingView.swift:90 | Observations without a candidate are skipped. |
| Drawing.OneCandidate | MetaverseCompetition/StudyView/Drawing/DrawingView.swift:92-93 | One candidate appends its text, then "\n". |
| Drawing.DrawingViewController.OnTranscriptButtonPressedChanged | MetaverseCompetition/StudyView/Drawing/DrawingView.swift:31-40 | Recognition starts only when the pressed flag is true. A false value does nothing. |
| Drawing.DrawingViewController.AddRecognizedText | MetaverseCompetition/StudyView/Drawing/DrawingView.swift:87-95 | The loop's result is the old transcript followed by each candidate plus "\n", in order. The old transcript is a prefix of the new one. |
| Drawing.DrawingViewController.OnTextRecognized | MetaverseCompetition/StudyView/Drawing/DrawingView.swift:67-77 | Missing or empty results leave the transcript unchanged. Otherwise the results are appended. |

## Left out

- **Combine wiring.** This covers `sink`, `weakAssign`, `receive(on:)`, `DispatchQueue.main.async`, `CancelBag`, and the two-way mirrors between view models and the store. Publication appears only as the store's log. Reactions appear as methods the sinks would call.
- **Placement pipeline derivatives.** `Publishers.Zip` and `flatMap` appear only as the `loaded` flag of `OnModelConfirmedForPlacement`. The clone of the loaded model entity, whose name is not the app's, is not added to the scene map.
- **Scene and entity framework behaviour.** ARKit and RealityKit (sessions, raycasts, snapshots, meshes, materials, transforms and animations) are outside the model. Positions and raycast results are opaque, and the focus entity is a flag.
- **Entity lookup.** `findEntity(named:)` is the scene map's lookup. Entities with equal names collapse into one map entry. `removeFromParent` removes only the named entry, because text entities have no children.
- **Image framework calls.** This covers Vision, Core ML and PencilKit: `VNImageRequestHandler.perform`, `cropImage`, `takeCapture`, `processImage`, `snapshot` and model creation. A thrown `perform` error is not modelled, although it would leave the request's handler registered.
- **ImagePrediction.ImagePredictor.MakePredictions: completion timing.** Vision's completion is modelled as the `VisionRequestHandler` call made inside `MakePredictions`, with Vision's outcome as a parameter. The request is pending only between those two steps, and callers never see that state.
- **The earlier AR controller.** `MetaverseCompetition/ARView/ARViewController.swift` is left out, with its camera ray cast. Classification.PredictionLabel models only its prediction handler. The anchor that handler builds reads `latestPrediction` before the asynchronous label update, which is a threading effect.
- **Floating-point formatting and clocks.** This covers `ConfidencePercentageString.swift`, `stringFromTimeInterval`, `CGRect.toString` and the Test screen's timer. The confidence string is an opaque input.
- **Measure.Measurement.StopMeasure: fps.** It reports the inference and execution times as integer differences of the given clock readings. It does not report the frame rate `Int(1/(start - beforeStart))`, which is floating point.
- **Measure.Measurement.constructor: clock.** It uses one clock reading for both "start" and "end", where the source reads the clock twice.
- **BoundingBox.DrawingBoundingBoxView: colour cache.** The cache is an instance field, where the source uses a static property (referred to as `DrawingBoundingBox.colors`). Box geometry and label layout are left out.
- **ARViewModelState.ARViewModel.constructor: study selections.** `selectedModelForStudy` and its old value start empty, because the part of the app state holding them is not modelled. The captured-image and cancel fields are not modelled either.
- **Services not shown.** The service calls the AR view model forwards (`setSelectedModelForStudy`, `addNewWordModel` and the others) are logged as requests, because their implementations are not in the source.
- **Views and app startup.** SwiftUI `body` layouts, popups, button styles, the splash screen with remote animations, colours and fonts are left out. So are `AppDelegate.swift` and dependency injection.
- **Other screens.** `MetaverseCompetition/UI/UIKitViews/Drawing/DrawingView.swift` is left out, because it calls service methods that are not shown. `StudyStateView.swift` only delegates to `changeMainViewState`.
- **Words.NewWordModel: id.** It takes the UUID string as a parameter, because `UUID()` is random.
- **ARScene.ChangeModelTextTexture: unnamed entity.** Without the highlight video, the unnamed `ModelEntity()` attached under the anchor is not recorded in the scene map, because it has no name to look it up by.
- **Measure.Measurement.Label: default message.** `label(with:)` defaults its message to `""` (Measure.swift:56-57). The model always takes the message explicitly, so the Swift call `label()` corresponds to `Label(Some(""), now)`.
- **Catalog.PossibleImportedModel: debug assertions.** The debug-only `assertionFailure()` on an unreadable bundle and `assert(!fileNames.isEmpty)` (AddModelStateView.swift:56 and 65, MainView.swift:35 and 44) are not modelled. Release builds skip them, and the model returns what a release build returns.
- **Drawing.DrawingViewController.OnTextRecognized: result type.** The model receives the results as text observations. It cannot represent non-empty results that fail the `as? [VNRecognizedTextObservation]` cast (DrawingView.swift:70), which the source ignores.
- **Strings: character model.** Strings are sequences of characters compared literally, which is what `.literal` asks for. Unicode grapheme clustering is not modelled.

## Findings

| source | as written | input that shows it | evidently intended | confidence | as-written member | corrected member |
|---|---|---|---|---|---|---|
| MetaverseCompetition/UI/AddModelView/AddModelStateView.swift:189-192 | The xmark button, commented "Cancel button", calls `modelPlacementConfirmButton()`. | Pick any model, then tap the xmark button: the model becomes `modelConfirmedForPlacement` and is placed. | The xmark button calls `modelPlacementCancelButton()`, as the root `MainView.swift:198-201` cancel button does, leaving no model confirmed. | not executed | AddModelView.ViewModel.CancelBarButtonAsWritten | AddModelView.ViewModel.CancelBarButton |
