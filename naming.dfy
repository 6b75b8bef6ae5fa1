/**
 * The naming rules of the upscale handlers in electron/index.ts: how the
 * scale is read off a model name, how an image path is split, how output
 * files and folders are named and which output folder wins.
 */
module Naming {
  import opened Optional
  import opened Strings

  /** What `getPlatform()` reports; only Windows changes the separator. */
  datatype Platform = Windows | Mac | Linux

  /** The module-level `slash` constant. */
  function Slash(p: Platform): (c: char)
    ensures c in Separators
  {
    if p == Windows then '\\' else '/'
  }

  /** The two characters the path regular expressions treat as separators. */
  const Separators: set<char> := {'/', '\\'}

  predicate NoSeparator(s: string) {
    forall i :: 0 <= i < |s| ==> s[i] !in Separators
  }

  // ---------------------------------------------------------------- scale

  /** The scale handed to the argument builders: "x2" in the model name wins,
      then "x3", and every other name upscales by 4. */
  function ScaleOf(model: string): (r: string)
    ensures r == "2" || r == "3" || r == "4"
  {
    if Contains(model, "x2") then "2"
    else if Contains(model, "x3") then "3"
    else "4"
  }

  /** A name carrying "x2" scales by 2, whatever else it carries. */
  lemma ScaleOfX2(p: string, q: string)
    ensures ScaleOf(p + "x2" + q) == "2"
  {
    ContainsPiece(p, "x2", q);
  }

  /** A name carrying "x3" and no "x2" scales by 3. */
  lemma ScaleOfX3(p: string, q: string)
    requires !Contains(p + "x3" + q, "x2")
    ensures ScaleOf(p + "x3" + q) == "3"
  {
    ContainsPiece(p, "x3", q);
  }

  /** No 'x' in the name is followed by '2' or '3'. */
  predicate NoScaleTag(model: string) {
    forall i :: 0 <= i < |model| - 1 && model[i] == 'x' ==> model[i + 1] != '2' && model[i + 1] != '3'
  }

  /** In such a name, no position starts 'x' followed by `d`. */
  lemma NoTagAt(model: string, d: char, i: int)
    requires NoScaleTag(model) && (d == '2' || d == '3')
    ensures !OccursAt(model, ['x', d], i)
  {
    if 0 <= i && i + 2 <= |model| {
      var w := model[i..i + 2];
      if model[i] == 'x' {
        assert w[1] == model[i + 1] != d;
      } else {
        assert w[0] == model[i] != 'x';
      }
    }
  }

  /** A name in which no 'x' is followed by '2' or '3' scales by 4. */
  lemma ScaleOfUntagged(model: string)
    requires NoScaleTag(model)
    ensures ScaleOf(model) == "4"
  {
    assert "x2" == ['x', '2'] && "x3" == ['x', '3'];
    forall i | 0 <= i <= |model| ensures !OccursAt(model, "x2", i) && !OccursAt(model, "x3", i) {
      NoTagAt(model, '2', i);
      NoTagAt(model, '3', i);
    }
  }

  /** The five bundled models. */
  const DefaultModels: seq<string> :=
    ["realesrgan-x4plus", "remacri", "ultramix_balanced", "ultrasharp", "realesrgan-x4plus-anime"]

  /** Every bundled model upscales by 4. */
  lemma DefaultModelsScaleBy4()
    ensures forall m :: m in DefaultModels ==> ScaleOf(m) == "4"
  {
    forall m | m in DefaultModels ensures ScaleOf(m) == "4" {
      assert NoScaleTag(m);
      ScaleOfUntagged(m);
    }
  }

  /** The models folder handed to the argument builders: the bundled one for a
      default model, otherwise the custom folder when one was ever chosen. */
  function ModelsDir(model: string, custom: Option<string>, bundled: string): (r: string)
    ensures model in DefaultModels ==> r == bundled
    ensures model !in DefaultModels && custom.Some? ==> r == custom.value
    ensures r == bundled || custom == Some(r)
  {
    if model in DefaultModels then bundled else custom.GetOr(bundled)
  }

  // ---------------------------------------------------------- path splitting

  /** `imagePath.match(/(.*)[\/\\]/)[1] || ""`: everything before the last
      separator; `None` when there is no separator, where the handler throws. */
  function InputDirOf(path: string): (r: Option<string>)
  {
    match LastIndexIn(path, Separators)
    case None => None
    case Some(k) => Some(path[..k])
  }

  /** `imagePath.replace(/^.*[\\\/]/, "")`: everything after the last separator. */
  function FileNameOf(path: string): (r: string)
  {
    match LastIndexIn(path, Separators)
    case None => path
    case Some(k) => path[k + 1..]
  }

  /** `imagePath.split(slash).slice(-1)[0]`: everything after the last
      platform separator only. */
  function LastSegment(path: string, slash: char): (r: string)
  {
    match LastIndexIn(path, {slash})
    case None => path
    case Some(k) => path[k + 1..]
  }

  /** A path with a separator is its input folder, that separator and its file name. */
  lemma SplitRebuilds(path: string)
    requires InputDirOf(path).Some?
    ensures var d := InputDirOf(path).value;
      path == d + [path[|d|]] + FileNameOf(path) && path[|d|] in Separators && NoSeparator(FileNameOf(path))
  {
    var k := LastIndexIn(path, Separators).value;
    assert path == path[..k] + [path[k]] + path[k + 1..];
  }

  /** Joining a folder and a separator-free name splits back into the two. */
  lemma SplitOfJoin(dir: string, sep: char, name: string)
    requires sep in Separators && NoSeparator(name)
    ensures InputDirOf(dir + [sep] + name) == Some(dir)
    ensures FileNameOf(dir + [sep] + name) == name
  {
    LastIndexInJoin(dir, sep, name, Separators);
    var p := dir + [sep] + name;
    assert p[..|dir|] == dir && p[|dir| + 1..] == name;
  }

  /** On a path whose only separators are the platform's, both ways of
      taking the file name agree. */
  lemma LastSegmentAgrees(path: string, slash: char)
    requires slash in Separators
    requires forall i :: 0 <= i < |path| && path[i] in Separators ==> path[i] == slash
    ensures LastSegment(path, slash) == FileNameOf(path)
  {
    var a := LastIndexIn(path, {slash});
    var b := LastIndexIn(path, Separators);
    if a.Some? {
      assert b.Some? && b.value >= a.value;
      assert path[b.value] == slash;
    } else {
      forall j | 0 <= j < |path| ensures path[j] !in Separators {
        assert path[j] != slash;
      }
    }
  }

  /** `path.parse(name).name` for a name that holds no separator: the name
      without its last extension, except that a leading dot (".bashrc") or
      the name ".." do not start an extension. */
  function Stem(name: string): (r: string)
  {
    match LastIndexIn(name, {'.'})
    case None => name
    case Some(k) => if k == 0 || name == ".." then name else name[..k]
  }

  /** The stem of `base.ext` is `base` for an extension without a dot. */
  lemma StemOfExtended(base: string, ext: string)
    requires base != [] && !(base == "." && ext == "")
    requires forall i :: 0 <= i < |ext| ==> ext[i] != '.'
    ensures Stem(base + "." + ext) == base
  {
    LastIndexInJoin(base, '.', ext, {'.'});
    var n := base + "." + ext;
    assert n == base + ['.'] + ext;
    assert n[..|base|] == base;
  }

  /** The path the produced image is read from and reported as: the external
      tool appends ".png" when it reported an alpha channel. */
  function Produced(outFile: string, isAlpha: bool): (r: string)
    ensures StartsWith(r, outFile)
    ensures isAlpha <==> |r| > |outFile|
  {
    if isAlpha then outFile + ".png" else outFile
  }

  // --------------------------------------------------------- output naming

  /** The tagged name of a single-image result, without its folder. */
  function SingleTaggedName(stem: string, scale: nat, model: string, ext: string): string {
    stem + "_upscayl_" + Decimal(scale) + "x_" + model + "." + ext
  }

  /** The single-image output path: the payload's scale is written into the
      name, the scale derived from the model is not. */
  function SingleOutFile(outputDir: string, slash: char, stem: string, scale: nat, model: string, ext: string): string {
    outputDir + [slash] + SingleTaggedName(stem, scale, model, ext)
  }

  /** The double-pass output path carries the fixed "16x" tag. */
  function DoubleOutFile(outputDir: string, slash: char, stem: string, model: string, ext: string): string {
    outputDir + [slash] + stem + "_upscayl_16x_" + model + "." + ext
  }

  /** The batch output folder: the chosen folder suffixed with model and scale. */
  function BatchOutputDir(dir: string, model: string, scale: nat): string {
    dir + "_" + model + "_x" + Decimal(scale)
  }

  /** A single-image output path splits back into the output folder and the
      tagged name, whose stem is everything up to the extension. */
  lemma SingleOutFileSplits(outputDir: string, slash: char, stem: string, scale: nat, model: string, ext: string)
    requires slash in Separators
    requires NoSeparator(stem) && NoSeparator(model) && NoSeparator(ext)
    requires forall i :: 0 <= i < |ext| ==> ext[i] != '.'
    ensures InputDirOf(SingleOutFile(outputDir, slash, stem, scale, model, ext)) == Some(outputDir)
    ensures FileNameOf(SingleOutFile(outputDir, slash, stem, scale, model, ext)) == SingleTaggedName(stem, scale, model, ext)
    ensures Stem(SingleTaggedName(stem, scale, model, ext)) == stem + "_upscayl_" + Decimal(scale) + "x_" + model
  {
    var name := SingleTaggedName(stem, scale, model, ext);
    var base := stem + "_upscayl_" + Decimal(scale) + "x_" + model;
    assert name == base + "." + ext;
    forall i | 0 <= i < |name| ensures name[i] !in Separators {
      var d := Decimal(scale);
      if i < |stem| {
        assert name[i] == stem[i];
      } else if i < |stem| + 9 {
        assert name[i] == "_upscayl_"[i - |stem|];
      } else if i < |stem| + 9 + |d| {
        assert name[i] == d[i - |stem| - 9];
      } else if i < |stem| + 11 + |d| {
        assert name[i] == "x_"[i - |stem| - 9 - |d|];
      } else if i < |stem| + 11 + |d| + |model| {
        assert name[i] == model[i - |stem| - 11 - |d|];
      } else if i == |stem| + 11 + |d| + |model| {
        assert name[i] == '.';
      } else {
        assert name[i] == ext[i - |stem| - 12 - |d| - |model|];
      }
    }
    SplitOfJoin(outputDir, slash, name);
    assert |base| >= 9;
    StemOfExtended(base, ext);
  }

  /** Two payload scales never name the same single-image output. */
  lemma SingleOutFileDistinguishesScale(outputDir: string, slash: char, stem: string, a: nat, b: nat, model: string, ext: string)
    requires a != b
    ensures SingleOutFile(outputDir, slash, stem, a, model, ext) != SingleOutFile(outputDir, slash, stem, b, model, ext)
  {
    var p := outputDir + [slash] + stem + "_upscayl_";
    var q := "x_" + model + "." + ext;
    assert SingleOutFile(outputDir, slash, stem, a, model, ext) == p + Decimal(a) + q;
    assert SingleOutFile(outputDir, slash, stem, b, model, ext) == p + Decimal(b) + q;
    DecimalInjective(a, b);
    if p + Decimal(a) + q == p + Decimal(b) + q {
      CancelAround(p, Decimal(a), Decimal(b), q);
    }
  }

  /** Two payload scales never name the same batch output folder. */
  lemma BatchOutputDirDistinguishesScale(dir: string, model: string, a: nat, b: nat)
    requires a != b
    ensures BatchOutputDir(dir, model, a) != BatchOutputDir(dir, model, b)
  {
    var p := dir + "_" + model + "_x";
    DecimalInjective(a, b);
    if p + Decimal(a) + [] == p + Decimal(b) + [] {
      CancelAround(p, Decimal(a), Decimal(b), []);
    }
    assert BatchOutputDir(dir, model, a) == p + Decimal(a) + [];
    assert BatchOutputDir(dir, model, b) == p + Decimal(b) + [];
  }

  lemma StemOfPhoto()
    ensures Stem("photo.png") == "photo"
  {
    LastIndexInJoin("photo", '.', "png", {'.'});
    assert "photo" + ['.'] + "png" == "photo.png";
  }

  /** The worked example: photo.png, model ultrasharp, scale 4, folder /out. */
  lemma SingleOutFileExample()
    ensures SingleOutFile("/out", '/', Stem("photo.png"), 4, "ultrasharp", "png")
            == "/out" + "/" + "photo" + "_upscayl_4x_" + "ultrasharp" + ".png"
  {
    StemOfPhoto();
    assert Decimal(4) == "4";
    assert "_upscayl_" + "4" + "x_" == "_upscayl_4x_";
  }

  // ------------------------------------------------------ output folders

  /** The single-image output folder: the remembered output folder when the
      preference is on and it is set, else the last batch folder when set,
      else the folder sent with the request. */
  function SingleOutputDir(saveOutputFolder: bool, outputFolderPath: Option<string>,
                           folderPath: Option<string>, outputPath: string): (r: string)
  {
    if saveOutputFolder && Truthy(outputFolderPath) then outputFolderPath.value
    else if Truthy(folderPath) then folderPath.value
    else outputPath
  }

  /** The batch and double-pass output folder: the remembered one when the
      preference is on and it is set, else the folder sent with the request. */
  function RequestOutputDir(saveOutputFolder: bool, outputFolderPath: Option<string>, outputPath: string): (r: string)
  {
    if saveOutputFolder && Truthy(outputFolderPath) then outputFolderPath.value else outputPath
  }

  /** The remembered folder wins over everything for every kind of job, and
      otherwise the single-image rule differs from the others only through
      the last batch folder. */
  lemma OutputDirPriority(save: bool, remembered: Option<string>, folderPath: Option<string>, outputPath: string)
    ensures save && Truthy(remembered) ==>
      SingleOutputDir(save, remembered, folderPath, outputPath) == remembered.value &&
      RequestOutputDir(save, remembered, outputPath) == remembered.value
    ensures !Truthy(folderPath) ==>
      SingleOutputDir(save, remembered, folderPath, outputPath) == RequestOutputDir(save, remembered, outputPath)
    ensures !(save && Truthy(remembered)) ==>
      RequestOutputDir(save, remembered, outputPath) == outputPath
    ensures !(save && Truthy(remembered)) && Truthy(folderPath) ==>
      SingleOutputDir(save, remembered, folderPath, outputPath) == folderPath.value
  {
  }

  /** The compression setting handed to the image library: the stored quality
      preference inverted on a 0 to 100 scale. */
  function JpegQuality(quality: int): (r: int)
    ensures 0 <= quality <= 100 <==> 0 <= r <= 100
  {
    100 - quality
  }

  // ------------------------------------------------- batch file matching

  /** `file.slice(0, -3) + "png"`: the batch post-processing's guess at the
      name the external tool gave a file, by cutting three characters. */
  function SwapToPng(file: string): (r: string)
  {
    (if |file| >= 3 then file[..|file| - 3] else "") + "png"
  }

  /** The name the external tool gives the png it writes for `file` in folder
      mode: the name without its last extension, then ".png". */
  function PngNameFor(file: string): (r: string)
  {
    match LastIndexIn(file, {'.'})
    case None => file + ".png"
    case Some(k) => file[..k] + ".png"
  }

  /** The corrected matching names the produced png for every extension length. */
  lemma {:induction false} PngNameForReplacesExtension(base: string, ext: string)
    requires forall i :: 0 <= i < |ext| ==> ext[i] != '.'
    ensures PngNameFor(base + "." + ext) == base + ".png"
  {
    LastIndexInJoin(base, '.', ext, {'.'});
    var n := base + "." + ext;
    assert n == base + ['.'] + ext;
    assert n[..|base|] == base;
  }

  /** For three-character extensions the cut-three-characters rule agrees
      with the corrected one. */
  lemma SwapToPngAgreesOnThreeLetterExtensions(base: string, ext: string)
    requires |ext| == 3 && forall i :: 0 <= i < |ext| ==> ext[i] != '.'
    ensures SwapToPng(base + "." + ext) == PngNameFor(base + "." + ext)
  {
    PngNameForReplacesExtension(base, ext);
    var n := base + "." + ext;
    assert n[..|n| - 3] == base + ".";
  }

  /** For a four-character extension the cut-three-characters rule names a
      file the external tool never writes. */
  lemma SwapToPngMissesJpeg()
    ensures SwapToPng("photo.jpeg") == "photo.jpng"
    ensures PngNameFor("photo.jpeg") == "photo.png"
  {
    PngNameForReplacesExtension("photo", "jpeg");
    assert "photo" + "." + "jpeg" == "photo.jpeg";
    assert "photo.jpeg"[..7] == "photo.j";
  }
}
