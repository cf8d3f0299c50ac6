/**
  Name-keyed bookkeeping of the AR scene in
  MetaverseCompetition/UI/UIKitViews/ARView/ARViewController.swift. Each word in the
  scene is an anchor entity "<word>_anchor" with two children, a sphere
  "<word>_sphere" and a text entity "<word>_text" (the names are given in
  GenerateTextSphereEntity.swift). The scene is a map from entity name to the
  entity's parent and kind; meshes, materials and transforms are abstracted away.
*/
module ARScene {
  import opened Wrappers
  import opened Strings

  /** Which generator built a text entity. */
  datatype TextStyle =
    | Placed       // `generateTextEntity`, used when a word is first placed
    | Plain        // `generateExistTextEntity`, the texture a word returns to
    | Highlighted  // `generateExistTextEntityWithMaterial`, the texture of the selected word

  datatype Kind = AnchorKind | SphereKind | TextKind(style: TextStyle)

  datatype Parent = SceneRoot | ChildOf(name: string)

  datatype Node = Node(parent: Parent, kind: Kind)

  type Scene = map<string, Node>

  /** The anchor's name: the word, then '_', then "anchor". */
  function AnchorName(word: string): (r: string)
    ensures |r| > |word| && r[..|word|] == word && r[|word|] == '_'
  {
    word + "_anchor"
  }

  /** The text entity's name: the word, then '_', then "text". */
  function TextName(word: string): (r: string)
    ensures |r| > |word| && r[..|word|] == word && r[|word|] == '_'
  {
    word + "_text"
  }

  /** The sphere's name: the word, then '_', then "sphere". */
  function SphereName(word: string): (r: string)
    ensures |r| > |word| && r[..|word|] == word && r[|word|] == '_'
  {
    word + "_sphere"
  }

  /** The three names of a word are pairwise distinct. */
  lemma NamesDistinct(word: string)
    ensures AnchorName(word) != TextName(word)
    ensures AnchorName(word) != SphereName(word)
    ensures TextName(word) != SphereName(word)
  {
    assert AnchorName(word)[|word| + 1] == 'a';
    assert TextName(word)[|word| + 1] == 't';
    assert SphereName(word)[|word| + 1] == 's';
  }

  /** The word an entity name belongs to: its prefix before the first '_'. */
  function WordOf(name: string): (w: string)
    ensures w <= name && '_' !in w
  {
    PrefixBefore(name, '_')
  }

  /** For a word free of '_', each of its three entity names decodes back to the word. */
  lemma WordOfNames(word: string)
    requires '_' !in word
    ensures WordOf(AnchorName(word)) == word
    ensures WordOf(TextName(word)) == word
    ensures WordOf(SphereName(word)) == word
  {
    assert AnchorName(word) == word + ['_'] + "anchor";
    assert TextName(word) == word + ['_'] + "text";
    assert SphereName(word) == word + ['_'] + "sphere";
    PrefixBeforeOfJoin(word, '_', "anchor");
    PrefixBeforeOfJoin(word, '_', "text");
    PrefixBeforeOfJoin(word, '_', "sphere");
  }

  /**
    `selectedModelName`: the tapped word, if an entity lies under the tap and the
    word it decodes to still has a text entity.
  */
  function SelectedModelName(scene: Scene, hitEntity: Option<string>): (r: Option<string>)
    ensures hitEntity.None? ==> r.None?
    ensures r.Some? <==> hitEntity.Some? && TextName(WordOf(hitEntity.value)) in scene
    ensures r.Some? ==> r.value == WordOf(hitEntity.value) && '_' !in r.value && TextName(r.value) in scene
  {
    match hitEntity
    case None => None
    case Some(name) =>
      var word := WordOf(name);
      if TextName(word) in scene then Some(word) else None
  }

  /** Tapping any of a word's three entities selects that word, as long as its text entity exists. */
  lemma TapOnWordSelectsIt(scene: Scene, word: string)
    requires '_' !in word
    ensures SelectedModelName(scene, Some(AnchorName(word))) == (if TextName(word) in scene then Some(word) else None)
    ensures SelectedModelName(scene, Some(TextName(word))) == (if TextName(word) in scene then Some(word) else None)
    ensures SelectedModelName(scene, Some(SphereName(word))) == (if TextName(word) in scene then Some(word) else None)
  {
    WordOfNames(word);
  }

  /**
    The text-texture swap of `changeModelTextTexture` and `returnModelTextTexture`:
    without "<word>_text" nothing happens; otherwise that entity is removed and its
    replacement is attached under "<word>_anchor" if that anchor exists.
  */
  function SwapText(scene: Scene, word: string, style: TextStyle): (r: Scene)
    ensures TextName(word) !in scene ==> r == scene
    ensures TextName(word) in scene ==>
      (TextName(word) in r <==> AnchorName(word) in scene)
    ensures TextName(word) in r ==> r[TextName(word)] == Node(ChildOf(AnchorName(word)), TextKind(style))
    ensures forall n :: n != TextName(word) ==> (n in r <==> n in scene)
    ensures forall n :: n in r && n != TextName(word) ==> r[n] == scene[n]
  {
    if TextName(word) !in scene then scene
    else
      var removed := scene - {TextName(word)};
      NamesDistinct(word);
      if AnchorName(word) in removed then removed[TextName(word) := Node(ChildOf(AnchorName(word)), TextKind(style))]
      else removed
  }

  /**
    Selecting a word for study highlights its text. The highlighted text is built only
    when the video "glowing1.mp4" is bundled (`videoBundled`); otherwise the generator
    returns an unnamed `ModelEntity()`, so the word is left without a "<word>_text".
  */
  function ChangeModelTextTexture(scene: Scene, word: string, videoBundled: bool): (r: Scene)
    ensures TextName(word) !in scene ==> r == scene
    ensures videoBundled ==> r == SwapText(scene, word, Highlighted)
    ensures !videoBundled ==> TextName(word) !in r
    ensures forall n :: n != TextName(word) ==> (n in r <==> n in scene)
    ensures forall n :: n in r && n != TextName(word) ==> r[n] == scene[n]
  {
    if videoBundled || TextName(word) !in scene then SwapText(scene, word, Highlighted)
    else scene - {TextName(word)}
  }

  /** Releasing it returns the text, if it is still there, to the plain texture. */
  function ReturnModelTextTexture(scene: Scene, word: string): (r: Scene)
    ensures TextName(word) !in scene ==> r == scene
    ensures TextName(word) in r ==> r[TextName(word)] == Node(ChildOf(AnchorName(word)), TextKind(Plain))
    ensures TextName(word) in scene ==> (TextName(word) in r <==> AnchorName(word) in scene)
    ensures forall n :: n in r && n != TextName(word) ==> n in scene && r[n] == scene[n]
  {
    SwapText(scene, word, Plain)
  }

  /**
    Without the bundled video, highlighting a word loses its text entity: afterwards no
    tap selects the word and releasing it changes nothing.
  */
  lemma MissingVideoLosesWord(scene: Scene, word: string)
    requires '_' !in word
    ensures var r := ChangeModelTextTexture(scene, word, false);
      SelectedModelName(r, Some(AnchorName(word))).None? &&
      SelectedModelName(r, Some(TextName(word))).None? &&
      SelectedModelName(r, Some(SphereName(word))).None? &&
      ReturnModelTextTexture(r, word) == r
  {
    TapOnWordSelectsIt(ChangeModelTextTexture(scene, word, false), word);
  }

  /** Of two swaps of the same word, the second decides the scene. */
  lemma SwapTextLastWins(scene: Scene, word: string, first: TextStyle, second: TextStyle)
    ensures SwapText(SwapText(scene, word, first), word, second) == SwapText(scene, word, second)
  {
    var a := SwapText(SwapText(scene, word, first), word, second);
    var b := SwapText(scene, word, second);
    assert forall n :: n in a <==> n in b;
  }

  /** Swaps of different words touch different entities, so their order does not matter. */
  lemma SwapTextCommutes(scene: Scene, w1: string, w2: string, s1: TextStyle, s2: TextStyle)
    requires TextName(w1) != TextName(w2) && TextName(w1) != AnchorName(w2) && TextName(w2) != AnchorName(w1)
    ensures SwapText(SwapText(scene, w1, s1), w2, s2) == SwapText(SwapText(scene, w2, s2), w1, s1)
  {
    var a := SwapText(SwapText(scene, w1, s1), w2, s2);
    var b := SwapText(SwapText(scene, w2, s2), w1, s1);
    assert forall n :: n in a <==> n in b;
  }

  /**
    With the video bundled, highlighting and then returning a placed word leaves the scene as it was, except
    that the text now has the plain texture; highlighting again gives the highlighted scene back.
  */
  lemma ChangeThenReturn(scene: Scene, word: string)
    requires TextName(word) in scene && AnchorName(word) in scene
    ensures ReturnModelTextTexture(ChangeModelTextTexture(scene, word, true), word)
      == scene[TextName(word) := Node(ChildOf(AnchorName(word)), TextKind(Plain))]
    ensures ChangeModelTextTexture(ReturnModelTextTexture(ChangeModelTextTexture(scene, word, true), word), word, true)
      == ChangeModelTextTexture(scene, word, true)
  {
    SwapTextLastWins(scene, word, Highlighted, Plain);
    SwapTextLastWins(ReturnModelTextTexture(scene, word), word, Plain, Highlighted);
    SwapTextLastWins(scene, word, Plain, Highlighted);
    var a := ReturnModelTextTexture(scene, word);
    var b := scene[TextName(word) := Node(ChildOf(AnchorName(word)), TextKind(Plain))];
    assert forall n :: n in a <==> n in b;
  }

  /**
    Adding a word's anchor to the scene: the anchor sits at the scene root and holds the
    sphere and a freshly placed text; every other entity is left as it was.
  */
  function PlaceWord(scene: Scene, word: string): (r: Scene)
    ensures AnchorName(word) in r && r[AnchorName(word)] == Node(SceneRoot, AnchorKind)
    ensures SphereName(word) in r && r[SphereName(word)] == Node(ChildOf(AnchorName(word)), SphereKind)
    ensures TextName(word) in r && r[TextName(word)] == Node(ChildOf(AnchorName(word)), TextKind(Placed))
    ensures forall n :: n !in {AnchorName(word), SphereName(word), TextName(word)} ==>
      (n in r <==> n in scene) && (n in r ==> r[n] == scene[n])
  {
    NamesDistinct(word);
    scene[AnchorName(word) := Node(SceneRoot, AnchorKind)]
      [SphereName(word) := Node(ChildOf(AnchorName(word)), SphereKind)]
      [TextName(word) := Node(ChildOf(AnchorName(word)), TextKind(Placed))]
  }

  /** Once a word free of '_' is placed, tapping any of its entities selects that word. */
  lemma PlacedWordIsSelectable(scene: Scene, word: string)
    requires '_' !in word
    ensures SelectedModelName(PlaceWord(scene, word), Some(AnchorName(word))) == Some(word)
    ensures SelectedModelName(PlaceWord(scene, word), Some(TextName(word))) == Some(word)
    ensures SelectedModelName(PlaceWord(scene, word), Some(SphereName(word))) == Some(word)
  {
    TapOnWordSelectsIt(PlaceWord(scene, word), word);
  }
}
