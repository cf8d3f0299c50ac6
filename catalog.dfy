/**
  The importable-model catalog, `possibleImportedModel`, built identically in
  MetaverseCompetition/UI/AddModelView/AddModelStateView.swift and
  MetaverseCompetition/MainView.swift: every bundle file whose name ends in "usdz",
  in listing order, with ".usdz" replaced by "".
*/
module Catalog {
  import opened Wrappers
  import opened Strings

  /** `file.hasSuffix("usdz")`. */
  predicate IsModelFile(file: string) {
    HasSuffix(file, "usdz")
  }

  /** A file is a model file exactly when its name is some string followed by "usdz". */
  lemma ModelFileIffStem(file: string)
    ensures IsModelFile(file) <==> exists stem :: file == stem + "usdz"
  {
    if IsModelFile(file) {
      assert file == file[..|file| - 4] + "usdz";
    } else {
      JoinHasSuffix("usdz");
    }
  }

  /** `file.replacingOccurrences(of: ".usdz", with: "")`: never longer than the file name. */
  function ModelName(file: string): (r: string)
    ensures |r| <= |file|
  {
    ReplacingOccurrences(file, ".usdz", "")
  }

  /** A name without ".usdz" is its own model name. */
  lemma ModelNameWithoutExtension(file: string)
    requires !Occurs(file, ".usdz")
    ensures ModelName(file) == file
  {
    ReplaceAbsentPattern(file, ".usdz", "");
  }

  /** Specification of the loop: the model files of `files`, named without ".usdz". */
  function CatalogOf(files: seq<string>): (r: seq<string>)
    ensures |r| <= |files|
  {
    if |files| == 0 then []
    else (if IsModelFile(files[0]) then [ModelName(files[0])] else []) + CatalogOf(files[1..])
  }

  /**
    Every model file of the listing has its model name in the catalog, and a listing
    without model files gives an empty catalog.
  */
  lemma {:induction false} CatalogOfComplete(files: seq<string>)
    ensures forall f :: f in files && IsModelFile(f) ==> ModelName(f) in CatalogOf(files)
    ensures (forall f :: f in files ==> !IsModelFile(f)) ==> CatalogOf(files) == []
  {
    if |files| > 0 {
      CatalogOfComplete(files[1..]);
      assert forall f :: f in files ==> f == files[0] || f in files[1..];
    }
  }

  /** The catalog of a listing is built file by file. */
  lemma {:induction false} CatalogOfAppend(a: seq<string>, b: seq<string>)
    ensures CatalogOf(a + b) == CatalogOf(a) + CatalogOf(b)
  {
    if |a| == 0 {
      assert a + b == b;
    } else {
      var head := if IsModelFile(a[0]) then [ModelName(a[0])] else [];
      assert (a + b)[0] == a[0];
      assert (a + b)[1..] == a[1..] + b;
      assert CatalogOf(a + b) == head + CatalogOf(a[1..] + b);
      CatalogOfAppend(a[1..], b);
      assert CatalogOf(a) == head + CatalogOf(a[1..]);
    }
  }

  /** A file "<name>.usdz" whose name has no '.' gives back exactly that name. */
  lemma {:induction false} ModelNameOfPlainName(name: string)
    requires '.' !in name
    ensures ModelName(name + ".usdz") == name
  {
    if |name| == 0 {
      assert name + ".usdz" == ".usdz";
    } else {
      assert !StartsWith(name + ".usdz", ".usdz") by {
        assert (name + ".usdz")[0] == name[0];
      }
      assert (name + ".usdz")[1..] == name[1..] + ".usdz";
      ModelNameOfPlainName(name[1..]);
    }
  }

  /** The files of the listing that end in "usdz", in listing order. */
  function ModelFiles(files: seq<string>): (r: seq<string>)
    ensures |r| <= |files|
    ensures forall f :: f in r ==> f in files && IsModelFile(f)
    ensures forall f :: f in files && IsModelFile(f) ==> f in r
  {
    if |files| == 0 then []
    else (if IsModelFile(files[0]) then [files[0]] else []) + ModelFiles(files[1..])
  }

  /** The filter works file by file: listing order and repeated files are kept. */
  lemma {:induction false} ModelFilesOfAppend(a: seq<string>, b: seq<string>)
    ensures ModelFiles(a + b) == ModelFiles(a) + ModelFiles(b)
  {
    if |a| == 0 {
      assert a + b == b;
    } else {
      assert (a + b)[1..] == a[1..] + b;
      ModelFilesOfAppend(a[1..], b);
    }
  }

  /** Each model file occurs in the filtered listing as often as in the listing. */
  lemma {:induction false} ModelFilesKeepsMultiplicity(files: seq<string>, f: string)
    requires IsModelFile(f)
    ensures multiset(ModelFiles(files))[f] == multiset(files)[f]
  {
    if |files| > 0 {
      assert files == [files[0]] + files[1..];
      ModelFilesKeepsMultiplicity(files[1..], f);
    }
  }

  /** One catalog entry per model file, in listing order, each that file's model name. */
  lemma {:induction false} CatalogIsRenamedModelFiles(files: seq<string>)
    ensures |CatalogOf(files)| == |ModelFiles(files)|
    ensures forall i :: 0 <= i < |CatalogOf(files)| ==> CatalogOf(files)[i] == ModelName(ModelFiles(files)[i])
  {
    if |files| > 0 {
      CatalogIsRenamedModelFiles(files[1..]);
    }
  }

  /**
    The static initialiser: `listing` is the bundle's directory listing, `None` when
    it cannot be read, in which case the catalog is empty.
  */
  method PossibleImportedModel(listing: Option<seq<string>>) returns (fileNames: seq<string>)
    ensures listing.None? ==> fileNames == []
    ensures listing.Some? ==> fileNames == CatalogOf(listing.value)
  {
    if listing.None? {
      return [];
    }
    var files := listing.value;
    fileNames := [];
    var i := 0;
    while i < |files|
      invariant 0 <= i <= |files|
      invariant fileNames == CatalogOf(files[..i])
    {
      var file := files[i];
      if HasSuffix(file, "usdz") {
        var modelName := ReplacingOccurrences(file, ".usdz", "");
        fileNames := fileNames + [modelName];
      }
      CatalogOfAppend(files[..i], [file]);
      assert files[..i + 1] == files[..i] + [file];
      i := i + 1;
    }
    assert files[..i] == files;
  }
}
