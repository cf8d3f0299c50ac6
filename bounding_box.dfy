/**
  MetaverseCompetition/ARView/ClassifyRealObject/DrawingBoundingBox.swift: boxes and
  labels drawn over detected objects, with one colour per label remembered across
  frames. Colours are opaque values; the random colour a new label would get is
  passed in.
*/
module BoundingBox {
  import opened Wrappers

  datatype Color = Color(code: nat)

  /** A subview: the bordered box or the label above it, both in the label's colour. */
  datatype Subview = BoxView(borderColor: Color) | LabelView(text: string, backgroundColor: Color)

  /** The cache key and the label text of a detection: its label, or "N/A" without one. */
  function LabelKey(name: Option<string>): (key: string)
    ensures name.Some? ==> key == name.value
    ensures name.None? ==> key == "N/A"
  {
    match name
    case Some(l) => l
    case None => "N/A"
  }

  /** The colour cache after a colour lookup for the label `name`. */
  function Remember(colors: map<string, Color>, name: string, freshColor: Color): (r: map<string, Color>)
    ensures name in r && r.Keys == colors.Keys + {name}
    ensures name in colors ==> r == colors
    ensures forall l :: l in colors ==> r[l] == colors[l]
  {
    if name in colors then colors else colors[name := freshColor]
  }

  /** A second lookup of the same label finds the colour the first one settled on. */
  lemma RepeatedLookupAgrees(colors: map<string, Color>, name: string, first: Color, second: Color)
    ensures Remember(Remember(colors, name, first), name, second) == Remember(colors, name, first)
    ensures Remember(Remember(colors, name, first), name, second)[name] == Remember(colors, name, first)[name]
  {
  }

  /**
    The subviews `drawBoxs` adds for a list of detections (given by their labels), and
    the cache afterwards; `freshColors[i]` is the colour the i-th detection would get if
    its label were new.
  */
  function Boxes(colors: map<string, Color>, labels: seq<Option<string>>, freshColors: seq<Color>): (r: (seq<Subview>, map<string, Color>))
    requires |freshColors| == |labels|
    ensures |r.0| == 2 * |labels|
  {
    if |labels| == 0 then ([], colors)
    else
      var n := |labels| - 1;
      var (views, cache) := Boxes(colors, labels[..n], freshColors[..n]);
      var key := LabelKey(labels[n]);
      var cache' := Remember(cache, key, freshColors[n]);
      (views + [BoxView(cache'[key]), LabelView(key, cache'[key])], cache')
  }

  /**
    Drawing keeps every cached colour, caches every drawn label, and paints each
    detection's box and label in the colour its label has in the final cache, so two
    detections with the same label always share a colour.
  */
  lemma {:induction false} BoxesUseCachedColors(colors: map<string, Color>, labels: seq<Option<string>>, freshColors: seq<Color>)
    requires |freshColors| == |labels|
    ensures var (views, cache) := Boxes(colors, labels, freshColors);
      (forall l :: l in colors ==> l in cache && cache[l] == colors[l]) &&
      (forall i :: 0 <= i < |labels| ==> LabelKey(labels[i]) in cache) &&
      (forall i :: 0 <= i < |labels| ==>
        views[2 * i] == BoxView(cache[LabelKey(labels[i])]) &&
        views[2 * i + 1] == LabelView(LabelKey(labels[i]), cache[LabelKey(labels[i])]))
  {
    if |labels| > 0 {
      var n := |labels| - 1;
      BoxesUseCachedColors(colors, labels[..n], freshColors[..n]);
      var (views, cache) := Boxes(colors, labels[..n], freshColors[..n]);
      assert forall i :: 0 <= i < n ==> labels[..n][i] == labels[i];
    }
  }

  class DrawingBoundingBoxView {
    /** `colors`, shared by every view: the source keeps it in a static property. */
    var colors: map<string, Color>
    var subviews: seq<Subview>

    constructor (colors: map<string, Color>)
      ensures this.colors == colors && subviews == []
    {
      this.colors := colors;
      subviews := [];
    }

    /** `labelColor(with:)`: the remembered colour, or the fresh one, remembered from now on. */
    method LabelColor(name: string, freshColor: Color) returns (color: Color)
      modifies this`colors
      ensures name in old(colors) ==> color == old(colors)[name] && colors == old(colors)
      ensures name !in old(colors) ==> color == freshColor && colors == old(colors)[name := freshColor]
      ensures colors == Remember(old(colors), name, freshColor) && color == colors[name]
    {
      if name in colors {
        color := colors[name];
      } else {
        color := freshColor;
        colors := colors[name := color];
      }
    }

    /** `createLabelAndBox`: the box, then the label, in the detection's colour. */
    method CreateLabelAndBox(name: Option<string>, freshColor: Color)
      modifies this`colors, this`subviews
      ensures colors == Remember(old(colors), LabelKey(name), freshColor)
      ensures subviews == old(subviews) + [BoxView(colors[LabelKey(name)]), LabelView(LabelKey(name), colors[LabelKey(name)])]
    {
      var color := LabelColor(LabelKey(name), freshColor);
      subviews := subviews + [BoxView(color)];
      subviews := subviews + [LabelView(LabelKey(name), color)];
    }

    /** `drawBoxs(with:)`: all old subviews go, then two per detection are added in order. */
    method DrawBoxs(labels: seq<Option<string>>, freshColors: seq<Color>)
      requires |freshColors| == |labels|
      modifies this`colors, this`subviews
      ensures (subviews, colors) == Boxes(old(colors), labels, freshColors)
      ensures |subviews| == 2 * |labels|
    {
      ghost var initial := colors;
      subviews := [];
      var i := 0;
      while i < |labels|
        invariant 0 <= i <= |labels|
        invariant (subviews, colors) == Boxes(initial, labels[..i], freshColors[..i])
      {
        assert labels[..i + 1][..i] == labels[..i];
        assert freshColors[..i + 1][..i] == freshColors[..i];
        CreateLabelAndBox(labels[i], freshColors[i]);
        i := i + 1;
      }
      assert labels[..i] == labels;
      assert freshColors[..i] == freshColors;
    }
  }
}
