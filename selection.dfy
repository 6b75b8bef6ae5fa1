/**
 * The checks the main process applies to what the user picked: the image
 * extension whitelist of SELECT_FILE, the "models" folder rule of
 * SELECT_CUSTOM_MODEL_FOLDER, and `getModels`, which turns a folder
 * listing into the list of custom model names.
 */
module Selection {
  import opened Optional
  import opened Strings

  // ------------------------------------------------------------ images

  /** The eight accepted endings: lower or upper case, never mixed. */
  const ImageExtensions: seq<string> :=
    [".png", ".jpg", ".jpeg", ".webp", ".JPG", ".PNG", ".JPEG", ".WEBP"]

  predicate IsImagePath(path: string) {
    exists e :: e in ImageExtensions && EndsWith(path, e)
  }

  /** The eight tests of the `forEach` body are the whitelist. */
  lemma ImagePathByEndings(file: string)
    ensures IsImagePath(file) <==>
      EndsWith(file, ".png") || EndsWith(file, ".jpg") || EndsWith(file, ".jpeg") ||
      EndsWith(file, ".webp") || EndsWith(file, ".JPG") || EndsWith(file, ".PNG") ||
      EndsWith(file, ".JPEG") || EndsWith(file, ".WEBP")
  {
    if IsImagePath(file) {
      var e :| e in ImageExtensions && EndsWith(file, e);
      var k :| 0 <= k < |ImageExtensions| && ImageExtensions[k] == e;
      assert k < 4 ==> e == [".png", ".jpg", ".jpeg", ".webp"][k];
      assert 4 <= k ==> e == [".JPG", ".PNG", ".JPEG", ".WEBP"][k - 4];
    } else {
      forall k | 0 <= k < |ImageExtensions| ensures !EndsWith(file, ImageExtensions[k]) {
        assert ImageExtensions[k] in ImageExtensions;
      }
    }
  }

  /** The `forEach` over the picked paths with its `isValid` flag: true when
      at least one path has an accepted ending. */
  method AnyImage(paths: seq<string>) returns (isValid: bool)
    ensures isValid <==> exists i :: 0 <= i < |paths| && IsImagePath(paths[i])
  {
    isValid := false;
    var n := 0;
    while n < |paths|
      invariant 0 <= n <= |paths|
      invariant isValid <==> exists i :: 0 <= i < n && IsImagePath(paths[i])
    {
      var file := paths[n];
      ImagePathByEndings(file);
      if EndsWith(file, ".png") || EndsWith(file, ".jpg") || EndsWith(file, ".jpeg") ||
         EndsWith(file, ".webp") || EndsWith(file, ".JPG") || EndsWith(file, ".PNG") ||
         EndsWith(file, ".JPEG") || EndsWith(file, ".WEBP")
      {
        isValid := true;
      }
      n := n + 1;
    }
  }

  /** What SELECT_FILE returns for a dialog that was not cancelled: the first
      picked path when any picked path is an image, even if the first one is
      not. */
  function SelectedImage(paths: seq<string>): (r: Option<string>)
    ensures r.Some? <==> exists i :: 0 <= i < |paths| && IsImagePath(paths[i])
    ensures r.Some? ==> r.value == paths[0]
  {
    if exists i :: 0 <= i < |paths| && IsImagePath(paths[i]) then Some(paths[0]) else None
  }

  /** The whitelist is not case-insensitive: a mixed-case ending is refused. */
  lemma MixedCaseRefused()
    ensures !IsImagePath("photo.Png")
  {
    var p := "photo.Png";
    assert p[|p| - 4..] == ".Png";
    assert p[|p| - 5..] == "o.Png";
    forall e | e in ImageExtensions ensures !EndsWith(p, e) {
    }
  }

  /** A selection mixing an image with other files is accepted, and what is
      returned is the first path, whatever it is. */
  lemma MixedSelectionAccepted(first: string, base: string)
    ensures SelectedImage([first, base + ".png"]) == Some(first)
  {
    var paths := [first, base + ".png"];
    assert ".png" in ImageExtensions;
    assert paths[1][|paths[1]| - 4..] == ".png";
    assert IsImagePath(paths[1]);
  }

  // ------------------------------------------------------ models folder

  /** The custom models folder must be named "models", with or without a
      trailing separator. */
  predicate IsModelsFolder(path: string, slash: char) {
    EndsWith(path, [slash] + "models") || EndsWith(path, [slash] + "models" + [slash])
  }

  /** For a path ending in a separator-free segment, `EndsWith` on
      separator + name holds exactly when the segment is that name. */
  lemma EndsWithSegment(parent: string, slash: char, seg: string, name: string)
    requires seg != []
    requires forall i :: 0 <= i < |seg| ==> seg[i] != slash
    requires forall i :: 0 <= i < |name| ==> name[i] != slash
    ensures EndsWith(parent + [slash] + seg, [slash] + name) <==> seg == name
  {
    var p := parent + [slash] + seg;
    var t := [slash] + name;
    if |seg| > |name| {
      if |t| <= |p| {
        assert p[|p| - |t|..][0] == seg[|seg| - |name| - 1];
      }
    } else if |seg| < |name| {
      var j := |name| - |seg|;
      if |t| <= |p| {
        assert p[|p| - |t|..][j] == p[|parent|] == slash;
        assert t[j] == name[j - 1];
      }
    } else {
      assert p[|p| - |t|..] == [slash] + seg;
      if [slash] + seg == t {
        assert seg == ([slash] + seg)[1..] == t[1..] == name;
      }
    }
  }

  /** The folder check accepts exactly the folders whose last segment is
      "models". */
  lemma {:induction false} ModelsFolderIffNamedModels(parent: string, slash: char, seg: string, trailing: bool)
    requires slash == '/' || slash == '\\'
    requires seg != [] && forall i :: 0 <= i < |seg| ==> seg[i] != slash
    ensures IsModelsFolder(parent + [slash] + seg + (if trailing then [slash] else []), slash) <==> seg == "models"
  {
    var m := "models";
    var p := parent + [slash] + seg;
    var path := p + (if trailing then [slash] else []);
    EndsWithSegment(parent, slash, seg, m);
    var x := [slash] + m;
    if trailing {
      assert path == p + [slash];
      assert EndsWith(path, x + [slash]) <==> EndsWith(p, x) by {
        assert |x| == 7;
        if |p| >= 7 {
          var a := p[|p| - 7..];
          assert path[|path| - 8..] == a + [slash];
          if a + [slash] == x + [slash] {
            assert a == (a + [slash])[..7] == (x + [slash])[..7] == x;
          }
        }
      }
      assert !EndsWith(path, x) by {
        if 7 <= |path| {
          assert path[|path| - 7..][6] == slash;
        }
      }
    } else {
      assert path == p;
      assert !EndsWith(path, x + [slash]) by {
        if 8 <= |path| {
          assert path[|path| - 8..][7] == seg[|seg| - 1];
        }
      }
    }
  }

  // ------------------------------------------------------------- models

  /** The endings `getModels` looks for. */
  predicate IsModelFile(file: string) {
    EndsWith(file, ".param") || EndsWith(file, ".PARAM") || EndsWith(file, ".bin") || EndsWith(file, ".BIN")
  }

  /** `file.substring(0, file.lastIndexOf(".")) || file`: the name up to the
      last dot, or the whole name when that would be empty. */
  function ModelNameOf(file: string): (r: string)
    ensures r != [] || file == []
  {
    match LastIndexIn(file, {'.'})
    case None => file
    case Some(k) => if k == 0 then file else file[..k]
  }

  /** A model file `base.ext` is named `base`. */
  lemma ModelNameDropsExtension(base: string, ext: string)
    requires base != [] && forall i :: 0 <= i < |ext| ==> ext[i] != '.'
    ensures ModelNameOf(base + "." + ext) == base
  {
    LastIndexInJoin(base, '.', ext, {'.'});
    var f := base + "." + ext;
    assert f == base + ['.'] + ext;
    assert f[..|base|] == base;
  }

  /** The `models` array after the listing's files were visited in order. */
  function CollectModels(files: seq<string>): (models: seq<string>)
    decreases |files|
  {
    if files == [] then []
    else
      var prev := CollectModels(files[..|files| - 1]);
      var file := files[|files| - 1];
      if IsModelFile(file) && ModelNameOf(file) !in prev then prev + [ModelNameOf(file)] else prev
  }

  predicate HasModelFile(files: seq<string>) {
    exists i :: 0 <= i < |files| && IsModelFile(files[i])
  }

  /** What `getModels` returns for a folder listing: `null` when no file has
      a model ending, else the collected names. */
  function ModelList(files: seq<string>): Option<seq<string>> {
    if HasModelFile(files) then Some(CollectModels(files)) else None
  }

  /** `getModels` with the directory listing passed in. */
  method GetModels(files: seq<string>) returns (r: Option<seq<string>>)
    ensures r == ModelList(files)
  {
    var models: seq<string> := [];
    var isValid := false;
    var n := 0;
    while n < |files|
      invariant 0 <= n <= |files|
      invariant models == CollectModels(files[..n])
      invariant isValid <==> HasModelFile(files[..n])
    {
      var file := files[n];
      assert files[..n + 1][..n] == files[..n];
      if EndsWith(file, ".param") || EndsWith(file, ".PARAM") || EndsWith(file, ".bin") || EndsWith(file, ".BIN") {
        isValid := true;
        assert IsModelFile(files[..n + 1][n]);
        var modelName := ModelNameOf(file);
        if modelName !in models {
          models := models + [modelName];
        }
      }
      n := n + 1;
    }
    assert files[..n] == files;
    if !isValid {
      r := None;
    } else {
      r := Some(models);
    }
  }

  /** The name a model file with name `x` first appears at, scanning from
      the front. */
  function FirstNamed(files: seq<string>, x: string): (k: nat)
    requires x in CollectModels(files)
    ensures k < |files| && IsModelFile(files[k]) && ModelNameOf(files[k]) == x
    ensures forall j :: 0 <= j < k && IsModelFile(files[j]) ==> ModelNameOf(files[j]) != x
    decreases |files|
  {
    var prev := CollectModels(files[..|files| - 1]);
    if x in prev then
      var k := FirstNamed(files[..|files| - 1], x);
      assert files[..|files| - 1][k] == files[k];
      assert forall j :: 0 <= j < k ==> files[..|files| - 1][j] == files[j];
      k
    else
      CollectedNamesOccur(files[..|files| - 1]);
      assert forall j :: 0 <= j < |files| - 1 ==> files[..|files| - 1][j] == files[j];
      |files| - 1
  }

  /** Every model file contributes its name and nothing else is collected. */
  lemma {:induction false} CollectedNamesOccur(files: seq<string>)
    ensures forall x :: x in CollectModels(files) <==>
      exists i :: 0 <= i < |files| && IsModelFile(files[i]) && ModelNameOf(files[i]) == x
    decreases |files|
  {
    if files != [] {
      var init := files[..|files| - 1];
      CollectedNamesOccur(init);
      forall i | 0 <= i < |init| ensures init[i] == files[i] { }
      forall x ensures x in CollectModels(files) <==>
        exists i :: 0 <= i < |files| && IsModelFile(files[i]) && ModelNameOf(files[i]) == x
      {
        if x in CollectModels(init) {
          var i :| 0 <= i < |init| && IsModelFile(init[i]) && ModelNameOf(init[i]) == x;
          assert IsModelFile(files[i]) && ModelNameOf(files[i]) == x;
        } else {
          forall i | 0 <= i < |init| ensures !(IsModelFile(files[i]) && ModelNameOf(files[i]) == x) {
            assert !(IsModelFile(init[i]) && ModelNameOf(init[i]) == x);
          }
        }
      }
    }
  }

  /** No name is collected twice. */
  lemma {:induction false} CollectedNamesDistinct(files: seq<string>)
    ensures forall i, j :: 0 <= i < j < |CollectModels(files)| ==> CollectModels(files)[i] != CollectModels(files)[j]
    decreases |files|
  {
    if files != [] {
      CollectedNamesDistinct(files[..|files| - 1]);
    }
  }

  /** Names come out in the order of their first model file. */
  lemma {:induction false} CollectedInFirstOccurrenceOrder(files: seq<string>, i: nat, j: nat)
    requires i < j < |CollectModels(files)|
    ensures FirstNamed(files, CollectModels(files)[i]) < FirstNamed(files, CollectModels(files)[j])
    decreases |files|
  {
    var init := files[..|files| - 1];
    var prev := CollectModels(init);
    var r := CollectModels(files);
    assert r[i] in prev;
    if j < |prev| {
      CollectedInFirstOccurrenceOrder(init, i, j);
      assert r[i] == prev[i] && r[j] == prev[j];
    } else {
      assert r[j] !in prev;
    }
  }

  /** `getModels` answers null exactly when no file has a model ending, and
      otherwise gives the distinct names of the model files. */
  lemma ModelListMeaning(files: seq<string>)
    ensures ModelList(files).None? <==> forall i :: 0 <= i < |files| ==> !IsModelFile(files[i])
    ensures ModelList(files).Some? ==>
      (forall x :: x in ModelList(files).value <==>
         exists i :: 0 <= i < |files| && IsModelFile(files[i]) && ModelNameOf(files[i]) == x)
    ensures ModelList(files).Some? ==> ModelList(files).value != []
  {
    CollectedNamesOccur(files);
    if HasModelFile(files) {
      var i :| 0 <= i < |files| && IsModelFile(files[i]);
      assert ModelNameOf(files[i]) in CollectModels(files);
    }
  }

  /** A folder holding only a text file is not a models folder. */
  lemma ReadmeOnlyIsInvalid()
    ensures ModelList(["readme.txt"]) == None
  {
    var f := "readme.txt";
    assert f[|f| - 4..] == ".txt";
    assert f[|f| - 6..] == "me.txt";
    assert !IsModelFile(f);
  }
}
