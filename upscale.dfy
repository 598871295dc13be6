/** The gallery-dl post-processing script `gallery-dl-upscale.py`: whether an
    image is upscaled, and the PNG-to-JPG conversion that CPU upscaling does
    first, with its renaming of the file and of its gallery-dl metadata.

    The image size, whether PIL's save produced the JPG file, and waifu2x are
    parameters or outputs; the directory the script works in is a `Folder`
    holding the names of its files. */
module Upscale {
  import opened Wrappers

  // ---------------------------------------------------------------------------
  // The decision

  /** `width / height < 1.0` picks the side compared against `sizecheck`;
      `None` for a zero height, where the division raises. */
  function ShouldUpscale(width: nat, height: nat, sizecheck: int): (r: Option<bool>)
    ensures r.None? <==> height == 0
  {
    if height == 0 then None
    else if (width as real) / (height as real) < 1.0 then Some(height < sizecheck)
    else Some(width < sizecheck)
  }

  /** An image is upscaled exactly when its longer side is below `sizecheck`. */
  lemma ShouldUpscaleLongerSide(width: nat, height: nat, sizecheck: int)
    requires height > 0
    ensures ShouldUpscale(width, height, sizecheck) == Some((if width < height then height else width) < sizecheck)
  {
    RatioBelowOne(width as real, height as real);
  }

  lemma RatioBelowOne(w: real, h: real)
    requires h > 0.0
    ensures w / h < 1.0 <==> w < h
  {
    var q := w / h;
    assert q * h == w;
    if q < 1.0 {
      assert (1.0 - q) * h > 0.0;
    } else {
      assert (q - 1.0) * h >= 0.0;
    }
  }

  // ---------------------------------------------------------------------------
  // File names (pathlib's suffix rules)

  /** The index of the last `.` in `name`, if any. */
  function LastDot(name: string): (r: Option<nat>)
    ensures r.Some? ==> r.value < |name| && name[r.value] == '.' && '.' !in name[r.value + 1..]
    ensures r.None? <==> '.' !in name
  {
    if name == [] then None
    else if name[|name| - 1] == '.' then Some(|name| - 1)
    else
      var r := LastDot(name[..|name| - 1]);
      assert name == name[..|name| - 1] + [name[|name| - 1]];
      assert r.Some? ==> name[r.value + 1..] == name[..|name| - 1][r.value + 1..] + [name[|name| - 1]];
      r
  }

  /** `Path.suffix`: from the last dot on, unless that dot starts or ends the name. */
  function Suffix(name: string): (r: string)
    ensures r == "" || IsSuffix(r)
    ensures |r| <= |name| && r == name[|name| - |r|..]
    ensures r != "" <==> LastDot(name).Some? && 0 < LastDot(name).value < |name| - 1
  {
    match LastDot(name)
    case Some(i) => if 0 < i < |name| - 1 then name[i..] else ""
    case None => ""
  }

  /** A well-formed suffix: a dot followed by at least one character, with no
      other dot. */
  predicate IsSuffix(s: string) {
    |s| >= 2 && s[0] == '.' && '.' !in s[1..]
  }

  /** `Path.stem`: the name without its suffix. */
  function Stem(name: string): (stem: string)
    ensures stem + Suffix(name) == name
    ensures Suffix(name) == "" || IsSuffix(Suffix(name))
    ensures name != "" ==> stem != ""
  {
    name[..|name| - |Suffix(name)|]
  }

  /** `Path.with_suffix(suffix)`: the name it gives has exactly the requested
      suffix, and the same stem. */
  function WithSuffix(name: string, suffix: string): (r: string)
    ensures name != "" && IsSuffix(suffix) ==> Suffix(r) == suffix && Stem(r) == Stem(name)
  {
    var stem := Stem(name);
    var n := stem + suffix;
    assert name != "" && IsSuffix(suffix) ==> Suffix(n) == suffix by {
      if name != "" && IsSuffix(suffix) {
        assert n[|stem|] == '.';
        forall j | |stem| < j < |n| ensures n[j] != '.' {
          assert n[j] == suffix[1..][j - |stem| - 1];
        }
        LastDotAt(n, |stem|);
      }
    }
    n
  }

  lemma LastDotAt(name: string, i: nat)
    requires i < |name| && name[i] == '.'
    requires forall j :: i < j < |name| ==> name[j] != '.'
    ensures LastDot(name) == Some(i)
  {
    if i < |name| - 1 {
      LastDotAt(name[..|name| - 1], i);
    }
  }

  /** gallery-dl's metadata file, `with_suffix(suffix + ".json")`, is the
      image's name with `.json` appended, whatever the name. */
  lemma MetadataName(name: string)
    ensures WithSuffix(name, Suffix(name) + ".json") == name + ".json"
  {
  }

  /** Converting `X.png` gives `X.jpg`, and moves `X.png.json` to `X.jpg.json`. */
  lemma ConversionNames(name: string)
    requires Suffix(name) == ".png"
    ensures WithSuffix(name, ".jpg") == Stem(name) + ".jpg"
    ensures name + ".json" == Stem(name) + ".png.json"
    ensures var jpg := WithSuffix(name, ".jpg");
      WithSuffix(jpg, Suffix(jpg) + ".json") == Stem(name) + ".jpg.json"
  {
    assert IsSuffix(".jpg");
    MetadataName(WithSuffix(name, ".jpg"));
  }

  // ---------------------------------------------------------------------------
  // The script

  /** The directory the script works in, by the names of its files. */
  class Folder {
    var files: set<string>

    constructor(files: set<string>)
      ensures this.files == files
    {
      this.files := files;
    }

    /** `shutil.move(a, b)` within the folder. */
    method Move(a: string, b: string)
      requires a in files
      modifies this
      ensures files == old(files) - {a} + {b}
    {
      files := files - {a} + {b};
    }
  }

  /** How a run of the script ends. */
  datatype Outcome =
    | Missing                                   // "File does not exist!", exit 1
    | ZeroHeight                                // the aspect-ratio division raised
    | NotNeeded                                 // "No upscale needed ..."
    | Upscaled(target: string, gpu: string, conversionFailed: bool)

  /** The file name the script runs waifu2x on: the JPG when CPU upscaling
      converted a PNG, else the file itself. */
  function Target(name: string, cpu: bool, jpgExists: bool): (r: string)
    ensures cpu && Suffix(name) == ".png" && jpgExists ==> Suffix(r) == ".jpg" && Stem(r) == Stem(name)
    ensures !(cpu && Suffix(name) == ".png" && jpgExists) ==> r == name
  {
    assert IsSuffix(".jpg");
    if cpu && Suffix(name) == ".png" && jpgExists then WithSuffix(name, ".jpg") else name
  }

  /** The top-level script for `--file name`. `size` is the image's size, and
      `saved` whether PIL's save wrote the JPG. */
  method Run(dir: Folder, name: string, sizecheck: int, cpu: bool, size: (nat, nat), saved: bool)
    returns (r: Outcome)
    modifies dir
    ensures name !in old(dir.files) ==> r == Missing && dir.files == old(dir.files)
    ensures name in old(dir.files) && size.1 == 0 ==> r == ZeroHeight && dir.files == old(dir.files)
    ensures name in old(dir.files) && ShouldUpscale(size.0, size.1, sizecheck) == Some(false) ==>
      r == NotNeeded && dir.files == old(dir.files)
    ensures name in old(dir.files) && ShouldUpscale(size.0, size.1, sizecheck) == Some(true) ==>
      var jpg := WithSuffix(name, ".jpg");
      var converting := cpu && Suffix(name) == ".png";
      var jpgExists := converting && (saved || jpg in old(dir.files));
      && r == Upscaled(Target(name, cpu, jpgExists), if cpu then "-1" else "0", converting && !jpgExists)
      && (!converting ==> dir.files == old(dir.files))
      && (converting && !jpgExists ==> dir.files == old(dir.files))
      && (jpgExists ==> dir.files == Converted(old(dir.files), name))
  {
    if name !in dir.files {
      return Missing;
    }
    var (width, height) := size;
    var upscale := ShouldUpscale(width, height, sizecheck);
    if upscale.None? {
      return ZeroHeight;
    }
    if !upscale.value {
      return NotNeeded;
    }
    var filepath := name;
    var failed := false;
    if cpu && Suffix(filepath) == ".png" {
      var jpg := WithSuffix(filepath, ".jpg");
      if saved {
        dir.files := dir.files + {jpg};
      }
      if jpg in dir.files {
        dir.files := dir.files - {filepath};
        var metadata := WithSuffix(filepath, Suffix(filepath) + ".json");
        if metadata in dir.files {
          dir.Move(metadata, WithSuffix(jpg, Suffix(jpg) + ".json"));
        }
        filepath := jpg;
      } else {
        failed := true;
      }
    }
    r := Upscaled(filepath, if cpu then "-1" else "0", failed);
  }

  /** The folder after a successful conversion of `name`: the JPG is there,
      the PNG is gone, a metadata file follows the image to its new name, and
      every other file stays as it was. */
  function Converted(files: set<string>, name: string): (r: set<string>)
    requires Suffix(name) == ".png"
    ensures WithSuffix(name, ".jpg") in r && name !in r
    ensures name + ".json" !in r
    ensures name + ".json" in files ==> Stem(name) + ".jpg.json" in r
    ensures name + ".json" !in files ==> (Stem(name) + ".jpg.json" in r <==> Stem(name) + ".jpg.json" in files)
    ensures forall f ::
      (f != name && f != name + ".json" && f != WithSuffix(name, ".jpg") && f != Stem(name) + ".jpg.json")
        ==> (f in r <==> f in files)
  {
    ConversionNames(name);
    MetadataName(name);
    MetadataName(WithSuffix(name, ".jpg"));
    var stem := Stem(name);
    assert (stem + ".jpg.json")[|stem| + 1] != (stem + ".png.json")[|stem| + 1];
    var jpg := WithSuffix(name, ".jpg");
    var kept := files + {jpg} - {name};
    var metadata := WithSuffix(name, Suffix(name) + ".json");
    if metadata in kept then kept - {metadata} + {WithSuffix(jpg, Suffix(jpg) + ".json")} else kept
  }
}
