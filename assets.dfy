/**
 * Asset resolution (app.py, get_image_path and get_image_for_model). The file
 * system is replaced by two directory listings: the working directory and the
 * 'images' folder, with a flag saying whether that folder exists.
 */
module Assets {
  import opened Wrappers

  /** The listing of the working directory, the listing of 'images', and whether 'images' exists. */
  datatype Dir = Dir(root: seq<string>, images: seq<string>, hasImages: bool)

  const ImagesDir: string := "images/"

  /** os.path.exists on a relative path: an entry of the working directory, or 'images/' followed by an entry of that folder. */
  predicate Exists(d: Dir, path: string) {
    path in d.root
    || (d.hasImages && |path| >= |ImagesDir| && path[..|ImagesDir|] == ImagesDir
        && path[|ImagesDir|..] in d.images)
  }

  /** ASCII lowering; str.lower's Unicode case mapping is not modelled. */
  function LowerChar(c: char): char {
    if 'A' <= c <= 'Z' then (c as int - 'A' as int + 'a' as int) as char else c
  }

  /** Lowering leaves no capital letter, keeps every other character, and puts each capital's own small letter in its place. */
  function Lower(s: string): (r: string)
    ensures |r| == |s|
    ensures forall i :: 0 <= i < |s| ==> !('A' <= r[i] <= 'Z')
    ensures forall i :: 0 <= i < |s| && !('A' <= s[i] <= 'Z') ==> r[i] == s[i]
    ensures forall i :: 0 <= i < |s| && 'A' <= s[i] <= 'Z' ==> 'a' <= r[i] <= 'z' && r[i] as int - s[i] as int == 32
  {
    seq(|s|, i requires 0 <= i < |s| => LowerChar(s[i]))
  }

  /** Lowering twice is lowering once, so a lowered name matches itself ignoring case. */
  lemma LowerIdempotent(s: string)
    ensures Lower(Lower(s)) == Lower(s)
    ensures SameIgnoringCase(Lower(s), s)
  {
  }

  /** Two names that differ at most in letter case. */
  predicate SameIgnoringCase(a: string, b: string) {
    Lower(a) == Lower(b)
  }

  /** The first entry of a listing that matches name ignoring case, scanned in listing order. */
  function FirstCaseMatch(files: seq<string>, name: string): Option<string> {
    if files == [] then None
    else if SameIgnoringCase(files[0], name) then Some(files[0])
    else FirstCaseMatch(files[1..], name)
  }

  /**
   * get_image_path as a value: exact name, exact name under 'images/', first
   * case-insensitive match in the working directory, then (only when the folder
   * exists) the first case-insensitive match in 'images'.
   */
  function Resolve(d: Dir, name: string): Option<string> {
    if Exists(d, name) then Some(name)
    else if Exists(d, ImagesDir + name) then Some(ImagesDir + name)
    else match FirstCaseMatch(d.root, name)
      case Some(f) => Some(f)
      case None =>
        if !d.hasImages then None
        else match FirstCaseMatch(d.images, name)
          case Some(f) => Some(ImagesDir + f)
          case None => None
  }

  /** get_image_path: the same four steps, with the two listing scans as loops that return early. */
  method GetImagePath(d: Dir, name: string) returns (r: Option<string>)
    ensures r == Resolve(d, name)
  {
    if Exists(d, name) {
      return Some(name);
    }
    var inImages := ImagesDir + name;
    if Exists(d, inImages) {
      return Some(inImages);
    }
    var key := Lower(name);
    var i := 0;
    while i < |d.root|
      invariant 0 <= i <= |d.root|
      invariant FirstCaseMatch(d.root[i..], name) == FirstCaseMatch(d.root, name)
    {
      assert d.root[i..][1..] == d.root[i + 1..];
      if Lower(d.root[i]) == key {
        return Some(d.root[i]);
      }
      i := i + 1;
    }
    if d.hasImages {
      var j := 0;
      while j < |d.images|
        invariant 0 <= j <= |d.images|
        invariant FirstCaseMatch(d.images[j..], name) == FirstCaseMatch(d.images, name)
      {
        assert d.images[j..][1..] == d.images[j + 1..];
        if Lower(d.images[j]) == key {
          return Some(ImagesDir + d.images[j]);
        }
        j := j + 1;
      }
    }
    return None;
  }

  /** FirstCaseMatch finds the earliest matching entry, and finds nothing exactly when no entry matches. */
  lemma {:induction false} FirstCaseMatchIsFirst(files: seq<string>, name: string)
    ensures FirstCaseMatch(files, name) == None <==>
      forall k :: 0 <= k < |files| ==> !SameIgnoringCase(files[k], name)
    ensures FirstCaseMatch(files, name) != None ==>
      exists k :: 0 <= k < |files| && files[k] == FirstCaseMatch(files, name).value
        && SameIgnoringCase(files[k], name)
        && forall j :: 0 <= j < k ==> !SameIgnoringCase(files[j], name)
  {
    if files != [] {
      FirstCaseMatchIsFirst(files[1..], name);
      if !SameIgnoringCase(files[0], name) && FirstCaseMatch(files, name) != None {
        var k :| 0 <= k < |files[1..]| && files[1..][k] == FirstCaseMatch(files, name).value
          && SameIgnoringCase(files[1..][k], name)
          && forall j :: 0 <= j < k ==> !SameIgnoringCase(files[1..][j], name);
        assert files[k + 1] == FirstCaseMatch(files, name).value;
        assert forall j :: 0 <= j < k + 1 ==> !SameIgnoringCase(files[j], name) by {
          forall j | 0 <= j < k + 1 ensures !SameIgnoringCase(files[j], name) {
            if j > 0 { assert files[j] == files[1..][j - 1]; }
          }
        }
      }
      if FirstCaseMatch(files, name) == None {
        forall k | 0 <= k < |files| ensures !SameIgnoringCase(files[k], name) {
          if k > 0 { assert files[k] == files[1..][k - 1]; }
        }
      }
    }
  }

  /** A found entry is one of the listed entries and matches ignoring case. */
  lemma {:induction false} FirstCaseMatchIsListed(files: seq<string>, name: string)
    requires FirstCaseMatch(files, name).Some?
    ensures FirstCaseMatch(files, name).value in files
    ensures SameIgnoringCase(FirstCaseMatch(files, name).value, name)
  {
    if !SameIgnoringCase(files[0], name) {
      FirstCaseMatchIsListed(files[1..], name);
    }
  }

  /**
   * Every path get_image_path returns exists, and names the requested file up to
   * letter case, directly or under 'images/'. So the caller's second
   * os.path.exists test never fails on a returned path, and no non-empty name
   * resolves to the empty path.
   */
  lemma ResolveSound(d: Dir, name: string)
    requires Resolve(d, name).Some?
    ensures Exists(d, Resolve(d, name).value)
    ensures |Resolve(d, name).value| >= |name|
    ensures var p := Resolve(d, name).value;
      SameIgnoringCase(p, name)
      || (|p| >= |ImagesDir| && p[..|ImagesDir|] == ImagesDir && SameIgnoringCase(p[|ImagesDir|..], name))
  {
    var p := Resolve(d, name).value;
    if Exists(d, name) {
    } else if Exists(d, ImagesDir + name) {
      assert p[..|ImagesDir|] == ImagesDir && p[|ImagesDir|..] == name;
    } else if FirstCaseMatch(d.root, name).Some? {
      FirstCaseMatchIsListed(d.root, name);
    } else {
      FirstCaseMatchIsListed(d.images, name);
      var f := FirstCaseMatch(d.images, name).value;
      assert p[..|ImagesDir|] == ImagesDir && p[|ImagesDir|..] == f;
    }
  }

  /** A file present under its exact name in the working directory wins over every other step. */
  lemma ExactNameFirst(d: Dir, name: string)
    requires name in d.root
    ensures Resolve(d, name) == Some(name)
  {
  }

  /** An exact name in 'images' wins over a case-insensitive match in the working directory. */
  lemma ImagesExactBeforeCaseMatch(d: Dir, name: string)
    requires !Exists(d, name) && d.hasImages && name in d.images
    ensures Resolve(d, name) == Some(ImagesDir + name)
  {
    assert (ImagesDir + name)[..|ImagesDir|] == ImagesDir;
    assert (ImagesDir + name)[|ImagesDir|..] == name;
  }

  /** The 'images' listing is consulted case-insensitively only when the folder exists. */
  lemma MissingFolderNotScanned(d: Dir, name: string)
    requires !d.hasImages && name !in d.root && ImagesDir + name !in d.root
    ensures Resolve(d, name) == FirstCaseMatch(d.root, name)
  {
  }

  /** Plain file names contain no '/', as os.listdir entries and the application's asset names do not. */
  predicate PlainName(s: string) {
    forall i :: 0 <= i < |s| ==> s[i] != '/'
  }

  predicate PlainListing(d: Dir) {
    forall k :: 0 <= k < |d.root| ==> PlainName(d.root[k])
  }

  /** A plain name does not start with 'images/'. */
  lemma PlainNotUnderImages(s: string)
    requires PlainName(s)
    ensures !(|s| >= |ImagesDir| && s[..|ImagesDir|] == ImagesDir)
  {
    if |s| >= |ImagesDir| {
      assert s[..|ImagesDir|][6] != ImagesDir[6];
    }
  }

  /**
   * For a plain name and a listing of plain names, the lookup fails exactly when no
   * entry of the working directory, and no entry of an existing 'images' folder,
   * matches the name ignoring case.
   */
  lemma ResolveNoneIff(d: Dir, name: string)
    requires PlainName(name) && PlainListing(d)
    ensures Resolve(d, name) == None <==>
      (forall k :: 0 <= k < |d.root| ==> !SameIgnoringCase(d.root[k], name))
      && (d.hasImages ==> forall k :: 0 <= k < |d.images| ==> !SameIgnoringCase(d.images[k], name))
  {
    FirstCaseMatchIsFirst(d.root, name);
    FirstCaseMatchIsFirst(d.images, name);
    var full := ImagesDir + name;
    assert full[6] == '/';
    assert !PlainName(full);
    assert full !in d.root;
    PlainNotUnderImages(name);
    assert full[|ImagesDir|..] == name;
  }

  // ----- the product catalogue and its images -----

  /** MODEL_NUMBERS: the models the form offers, ending with the catch-all "Other". */
  const ModelNumbers: seq<string> := [
    "YH8-520", "YH8-520S", "YH8-520P", "YH8-521", "YH8-522",
    "YH8-523D", "YH8-524E", "YH8-525", "YH8-526G", "YH8-526S",
    "YH8-527", "YH8-528", "Single Push Rod Controller",
    "2-CH Synchronous Controller", "4-CH Synchronous Controller",
    "Voltage converter", "Power Supply", "Other"]

  /** MODEL_IMAGE_MAP: the file name of each model's automatic image. */
  const ModelImageMap: map<string, string> := map[
    "YH8-520" := "520.png",
    "YH8-520S" := "520S.png",
    "YH8-520P" := "520P.png",
    "YH8-521" := "521.png",
    "YH8-522" := "522.png",
    "YH8-523D" := "523D.png",
    "YH8-524E" := "524E.png",
    "YH8-525" := "525.png",
    "YH8-526G" := "526G.png",
    "YH8-526S" := "526S.png",
    "YH8-527" := "527.png",
    "YH8-528" := "528.png",
    "Voltage converter" := "vconverter.png",
    "Power Supply" := "psupply.png",
    "Single Push Rod Controller" := "1ch.png",
    "2-CH Synchronous Controller" := "2ch.png",
    "4-CH Synchronous Controller" := "4ch.png"]

  /** Every model of the table is offered by the form, and "Other" is the one model without an image. */
  lemma CatalogueImages()
    ensures forall m :: m in ModelImageMap ==> m in ModelNumbers && m != "Other"
    ensures "Other" in ModelNumbers && "Other" !in ModelImageMap
  {
  }

  /** Every model offered by the form other than "Other" has an image file. */
  lemma CatalogueCovered()
    ensures forall k :: 0 <= k < |ModelNumbers| && ModelNumbers[k] != "Other" ==> ModelNumbers[k] in ModelImageMap
  {
  }

  /** Every image file name in the table is a plain, non-empty name. */
  lemma ImageNamesPlain()
    ensures forall m :: m in ModelImageMap ==> |ModelImageMap[m]| > 0 && PlainName(ModelImageMap[m])
  {
  }

  /** get_image_for_model as a value: the model's image file resolved, or nothing for a model without one. */
  function AutoImage(d: Dir, model: string): Option<string> {
    if model in ModelImageMap then Resolve(d, ModelImageMap[model]) else None
  }

  /** get_image_for_model: look the model up, then resolve its file. */
  method GetImageForModel(d: Dir, model: string) returns (r: Option<string>)
    ensures r == AutoImage(d, model)
  {
    if model in ModelImageMap {
      var imageFile := ModelImageMap[model];
      r := GetImagePath(d, imageFile);
    } else {
      r := None;
    }
  }

  /** A model without a table entry, such as "Other", never has an automatic image, whatever the directories hold. */
  lemma UnmappedModelHasNoImage(d: Dir, model: string)
    requires model !in ModelImageMap
    ensures AutoImage(d, model) == None
  {
  }

  /** An automatic image, when found, is an existing, non-empty path. */
  lemma AutoImageExists(d: Dir, model: string)
    requires AutoImage(d, model).Some?
    ensures model in ModelImageMap && model != "Other"
    ensures Exists(d, AutoImage(d, model).value) && AutoImage(d, model).value != ""
  {
    CatalogueImages();
    ImageNamesPlain();
    ResolveSound(d, ModelImageMap[model]);
  }
}
