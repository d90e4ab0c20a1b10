/**
 * The file names `draw_boxes` derives from the image path, and the
 * extension filter of the driver. Paths follow POSIX `os.path`: `/` is the
 * only separator and `.` starts an extension.
 */
module Paths {

  const Sep := '/'
  const ExtSep := '.'

  /** `s.rfind(c)`: the last position of `c`, or -1. */
  function RFind(s: string, c: char): (r: int)
    ensures -1 <= r < |s|
    ensures 0 <= r ==> s[r] == c
    ensures forall k :: r < k < |s| ==> s[k] != c
  {
    if s == [] then -1
    else if s[|s| - 1] == c then |s| - 1
    else RFind(s[..|s| - 1], c)
  }

  /** `os.path.basename`: everything after the last separator. */
  function Basename(p: string): (r: string)
    ensures Sep !in r
    ensures |r| <= |p| && p[|p| - |r|..] == r
    ensures |r| < |p| ==> p[|p| - |r| - 1] == Sep
  {
    var k := RFind(p, Sep) + 1;
    assert forall i :: 0 <= i < |p[k..]| ==> p[k..][i] == p[k + i];
    p[k..]
  }

  /** Some character of `p[from..to]` is not a dot. */
  predicate HasNonDot(p: string, from: int, to: int)
    requires 0 <= from && to <= |p|
  {
    exists k :: from <= k < to && p[k] != ExtSep
  }

  /**
   * `os.path.splitext`: cuts at the last dot when it lies in the last path
   * component and is preceded there by something other than dots, so that
   * `.bashrc` and `..` keep their names and get an empty extension.
   */
  function SplitExt(p: string): (r: (string, string))
    ensures r.0 + r.1 == p
    ensures r.1 == [] || (r.1[0] == ExtSep && Sep !in r.1 && ExtSep !in r.1[1..])
  {
    var sepIndex := RFind(p, Sep);
    var dotIndex := RFind(p, ExtSep);
    if dotIndex > sepIndex && HasNonDot(p, sepIndex + 1, dotIndex) then
      assert p[..dotIndex] + p[dotIndex..] == p;
      assert forall i :: 0 <= i < |p[dotIndex..]| ==> p[dotIndex..][i] == p[dotIndex + i];
      (p[..dotIndex], p[dotIndex..])
    else
      assert p + [] == p;
      (p, [])
  }

  /**
   * `os.path.join(a, b)` for one component: an absolute `b` replaces `a`;
   * otherwise one separator goes between them, unless `a` is empty or
   * already ends in one.
   */
  function Join(a: string, b: string): (r: string)
    ensures b != [] && b[0] == Sep ==> r == b
    ensures (b == [] || b[0] != Sep) && (a == [] || a[|a| - 1] == Sep) ==> r == a + b
    ensures (b == [] || b[0] != Sep) && a != [] && a[|a| - 1] != Sep ==> r == a + [Sep] + b
  {
    if b != [] && b[0] == Sep then b
    else if a == [] || a[|a| - 1] == Sep then a + b
    else a + [Sep] + b
  }

  /**
   * The image name without its last extension (`image_name`): a prefix of
   * the basename, with no separator, and what it leaves of the basename is
   * empty or one dot-extension.
   */
  function Stem(imagePath: string): (r: string)
    ensures Sep !in r
    ensures |r| <= |Basename(imagePath)| && Basename(imagePath)[..|r|] == r
    ensures var ext := Basename(imagePath)[|r|..]; ext == [] || (ext[0] == ExtSep && ExtSep !in ext[1..])
  {
    var base := Basename(imagePath);
    var parts := SplitExt(base);
    assert base[..|parts.0|] == parts.0 && base[|parts.0|..] == parts.1;
    NoSepInParts(parts.0, parts.1);
    parts.0
  }

  /** `label_file_path`: the stem plus `.txt`, inside the labels directory. */
  function LabelPath(imagePath: string, labelsDir: string): string
  {
    Join(labelsDir, Stem(imagePath) + ".txt")
  }

  /** `output_path`: the image's own name, inside the output directory. */
  function OutputPath(imagePath: string, outputDir: string): string
  {
    Join(outputDir, Basename(imagePath))
  }

  /** `s.endswith(suffix)`: some tail of `s` is `suffix`. */
  predicate EndsWith(s: string, suffix: string)
    ensures EndsWith(s, suffix) <==> exists k :: 0 <= k <= |s| && s[k..] == suffix
  {
    assert |suffix| <= |s| ==> s[|s| - |suffix|..] == s[|s| - |suffix|..];
    assert forall k :: 0 <= k <= |s| ==> |s[k..]| == |s| - k;
    |suffix| <= |s| && s[|s| - |suffix|..] == suffix
  }

  /** The driver's filter: `.jpg`, `.jpeg` or `.png`, with that exact case. */
  predicate IsImageFile(name: string)
  {
    EndsWith(name, ".jpg") || EndsWith(name, ".jpeg") || EndsWith(name, ".png")
  }

  /** The last occurrence is unique: a position with no later match is the one `RFind` finds. */
  lemma RFindIs(s: string, c: char, i: int)
    requires -1 <= i < |s| && (0 <= i ==> s[i] == c)
    requires forall k :: i < k < |s| ==> s[k] != c
    ensures RFind(s, c) == i
  {
  }

  /** The basename is the part after a separator (or the start) once no separator follows. */
  lemma BasenameAfter(pre: string, name: string)
    requires Sep !in name
    requires pre == [] || pre[|pre| - 1] == Sep
    ensures Basename(pre + name) == name
  {
    var p := pre + name;
    forall k | |pre| - 1 < k < |p|
      ensures p[k] != Sep
    {
      assert p[k] == name[k - |pre|];
    }
    RFindIs(p, Sep, |pre| - 1);
    assert p[|pre|..] == name;
  }

  /** A name without a separator is the basename of every path that joins it onto a directory. */
  lemma BasenameOfJoin(dir: string, name: string)
    requires Sep !in name
    ensures Basename(Join(dir, name)) == name
  {
    var pre := if dir == [] || dir[|dir| - 1] == Sep then dir else dir + [Sep];
    assert Join(dir, name) == pre + name;
    BasenameAfter(pre, name);
  }

  /** A separator-free name joined onto a directory lies in that directory under its own name. */
  lemma JoinedName(dir: string, name: string)
    requires Sep !in name
    ensures Basename(Join(dir, name)) == name
    ensures |dir| <= |Join(dir, name)| && Join(dir, name)[..|dir|] == dir
  {
    BasenameOfJoin(dir, name);
    if name != [] {
      assert name[0] in name;
    }
    JoinShape(dir, name);
  }

  /**
   * The label file is named after the image's stem with `.txt` appended,
   * and sits in the labels directory.
   */
  lemma LabelPathShape(imagePath: string, labelsDir: string)
    ensures Basename(LabelPath(imagePath, labelsDir)) == Stem(imagePath) + ".txt"
    ensures |labelsDir| <= |LabelPath(imagePath, labelsDir)|
    ensures LabelPath(imagePath, labelsDir)[..|labelsDir|] == labelsDir
  {
    NoSepInJoin(Stem(imagePath), ".txt");
    JoinedName(labelsDir, Stem(imagePath) + ".txt");
  }

  /** The annotated image keeps the input's name and sits in the output directory. */
  lemma OutputPathShape(imagePath: string, outputDir: string)
    ensures Basename(OutputPath(imagePath, outputDir)) == Basename(imagePath)
    ensures |outputDir| <= |OutputPath(imagePath, outputDir)|
    ensures OutputPath(imagePath, outputDir)[..|outputDir|] == outputDir
  {
    JoinedName(outputDir, Basename(imagePath));
  }

  /** For a relative name, the joined path is the directory, at most one separator, then the name. */
  lemma JoinShape(dir: string, name: string)
    requires name == [] || name[0] != Sep
    ensures var p := Join(dir, name);
      && p[..|dir|] == dir
      && p[|p| - |name|..] == name
      && (p[|dir|..|p| - |name|] == [] || p[|dir|..|p| - |name|] == [Sep])
  {
    var p := Join(dir, name);
    var middle := if dir == [] || dir[|dir| - 1] == Sep then [] else [Sep];
    assert p == dir + middle + name;
    assert p[..|dir|] == dir;
    assert p[|dir|..|p| - |name|] == middle;
  }

  /** A path without separators has none in its pieces. */
  lemma NoSepInParts(a: string, b: string)
    requires Sep !in a + b
    ensures Sep !in a && Sep !in b
  {
    forall i | 0 <= i < |a|
      ensures a[i] != Sep
    {
      assert a[i] == (a + b)[i];
    }
    forall i | 0 <= i < |b|
      ensures b[i] != Sep
    {
      assert b[i] == (a + b)[|a| + i];
    }
  }

  /** Pieces without separators give a path without separators. */
  lemma NoSepInJoin(a: string, b: string)
    requires Sep !in a && Sep !in b
    ensures Sep !in a + b
  {
    forall i | 0 <= i < |a + b|
      ensures (a + b)[i] != Sep
    {
      if i < |a| {
        assert (a + b)[i] == a[i];
      } else {
        assert (a + b)[i] == b[i - |a|];
      }
    }
  }

  /**
   * Only the last extension is removed: a stem that has something other
   * than dots and no separator, followed by an extension, splits back into
   * the two.
   */
  lemma {:induction false} SplitExtOfStem(stem: string, ext: string)
    requires Sep !in stem && exists k :: 0 <= k < |stem| && stem[k] != ExtSep
    requires ext != [] && ext[0] == ExtSep && Sep !in ext && ExtSep !in ext[1..]
    ensures SplitExt(stem + ext) == (stem, ext)
  {
    var p := stem + ext;
    var sepIndex := RFind(p, Sep);
    var dotIndex := RFind(p, ExtSep);
    assert forall i :: 0 <= i < |p| ==> p[i] != Sep by {
      forall i | 0 <= i < |p|
        ensures p[i] != Sep
      {
        if i < |stem| {
          assert p[i] == stem[i] && stem[i] in stem;
        } else {
          assert p[i] == ext[i - |stem|] && ext[i - |stem|] in ext;
        }
      }
    }
    assert sepIndex == -1;
    assert p[|stem|] == ExtSep;
    assert forall i :: |stem| < i < |p| ==> p[i] != ExtSep by {
      forall i | |stem| < i < |p|
        ensures p[i] != ExtSep
      {
        assert p[i] == ext[1..][i - |stem| - 1];
        assert ext[1..][i - |stem| - 1] in ext[1..];
      }
    }
    assert dotIndex == |stem|;
    var k :| 0 <= k < |stem| && stem[k] != ExtSep;
    assert p[k] == stem[k];
    assert HasNonDot(p, sepIndex + 1, dotIndex);
    assert p[..dotIndex] == stem;
    assert p[dotIndex..] == ext;
  }

  /**
   * Where `SplitExt` cuts, for every path: the extension is non-empty exactly
   * when the last component holds a character other than a dot with a dot
   * somewhere after it. So `a.b.jpg` loses `.jpg`, while `.jpg`, `..jpg`
   * and `...` keep their whole names.
   */
  lemma SplitExtCuts(p: string)
    ensures SplitExt(p).1 != [] <==>
      exists j :: 0 <= j < |p| && p[j] != ExtSep && p[j] != Sep && ExtSep in p[j + 1..] && Sep !in p[j + 1..]
  {
    var sepIndex := RFind(p, Sep);
    var dotIndex := RFind(p, ExtSep);
    if dotIndex > sepIndex && HasNonDot(p, sepIndex + 1, dotIndex) {
      var k :| sepIndex + 1 <= k < dotIndex && p[k] != ExtSep;
      var tail := p[k + 1..];
      assert tail[dotIndex - k - 1] == ExtSep;
      forall i | 0 <= i < |tail|
        ensures tail[i] != Sep
      {
        assert tail[i] == p[k + 1 + i];
      }
    }
    if exists j :: 0 <= j < |p| && p[j] != ExtSep && p[j] != Sep && ExtSep in p[j + 1..] && Sep !in p[j + 1..] {
      var j :| 0 <= j < |p| && p[j] != ExtSep && p[j] != Sep && ExtSep in p[j + 1..] && Sep !in p[j + 1..];
      var tail := p[j + 1..];
      forall i | j <= i < |p|
        ensures p[i] != Sep
      {
        if i > j {
          assert p[i] == tail[i - j - 1];
        }
      }
      assert sepIndex < j;
      var m :| 0 <= m < |tail| && tail[m] == ExtSep;
      assert p[j + 1 + m] == ExtSep;
      assert j < dotIndex;
      assert HasNonDot(p, sepIndex + 1, dotIndex);
    }
  }

  /**
   * A name in which no non-dot character is followed by a dot, such as
   * `..jpg`, is never cut: it is its own stem, so its label file is the
   * whole name followed by `.txt`.
   */
  lemma UncutNameKeepsName(imageDir: string, name: string, labelsDir: string)
    requires Sep !in name
    requires forall j :: 0 <= j < |name| && name[j] != ExtSep ==> ExtSep !in name[j + 1..]
    ensures Stem(Join(imageDir, name)) == name
    ensures LabelPath(Join(imageDir, name), labelsDir) == Join(labelsDir, name + ".txt")
  {
    BasenameOfJoin(imageDir, name);
    SplitExtCuts(name);
  }

  /**
   * An image `stem + ext` in any directory has label file `stem.txt` in the
   * labels directory, and keeps its full name in the output directory.
   */
  lemma ImagePaths(imageDir: string, stem: string, ext: string, labelsDir: string, outputDir: string)
    requires Sep !in stem && exists k :: 0 <= k < |stem| && stem[k] != ExtSep
    requires ext != [] && ext[0] == ExtSep && Sep !in ext && ExtSep !in ext[1..]
    ensures LabelPath(Join(imageDir, stem + ext), labelsDir) == Join(labelsDir, stem + ".txt")
    ensures OutputPath(Join(imageDir, stem + ext), outputDir) == Join(outputDir, stem + ext)
  {
    var name := stem + ext;
    assert forall i :: 0 <= i < |name| ==> name[i] != Sep by {
      forall i | 0 <= i < |name|
        ensures name[i] != Sep
      {
        if i < |stem| {
          assert name[i] == stem[i] && stem[i] in stem;
        } else {
          assert name[i] == ext[i - |stem|] && ext[i - |stem|] in ext;
        }
      }
    }
    BasenameOfJoin(imageDir, name);
    SplitExtOfStem(stem, ext);
  }

  /**
   * A name that is only a dot and an extension, such as `.jpg`, counts as a
   * hidden file with no extension: its label file is `.jpg.txt`.
   */
  lemma HiddenFileKeepsName(imageDir: string, name: string, labelsDir: string)
    requires name != [] && name[0] == ExtSep && Sep !in name && ExtSep !in name[1..]
    ensures Stem(Join(imageDir, name)) == name
    ensures LabelPath(Join(imageDir, name), labelsDir) == Join(labelsDir, name + ".txt")
  {
    BasenameOfJoin(imageDir, name);
    RFindIs(name, Sep, -1);
    forall k | 0 < k < |name|
      ensures name[k] != ExtSep
    {
      assert name[k] == name[1..][k - 1] && name[1..][k - 1] in name[1..];
    }
    RFindIs(name, ExtSep, 0);
    assert !HasNonDot(name, 0, 0);
  }

  /** For instance `images/.jpg` has label file `labels/.jpg.txt`. */
  lemma HiddenFileExample()
    ensures LabelPath("images/.jpg", "labels") == "labels/.jpg.txt"
  {
    assert ".jpg"[1..] == "jpg";
    assert Join("images", ".jpg") == "images/.jpg";
    HiddenFileKeepsName("images", ".jpg", "labels");
    assert Join("labels", ".jpg" + ".txt") == "labels/.jpg.txt";
  }

  /** The three extensions, each after any stem, pass the filter. */
  lemma ImageExtensionsAccepted(stem: string)
    ensures IsImageFile(stem + ".jpg") && IsImageFile(stem + ".jpeg") && IsImageFile(stem + ".png")
  {
    assert (stem + ".jpg")[|stem|..] == ".jpg";
    assert (stem + ".jpeg")[|stem|..] == ".jpeg";
    assert (stem + ".png")[|stem|..] == ".png";
  }

  /** The test is case-sensitive and looks only at the end of the name. */
  lemma OtherNamesRejected()
    ensures !IsImageFile("photo.JPG")
    ensures !IsImageFile("photo.PNG")
    ensures !IsImageFile("photo.jpg.txt")
    ensures !IsImageFile("photo.gif")
  {
    assert "photo.JPG"[5..] != ".jpg";
    assert "photo.JPG"[4..] != ".jpeg";
    assert "photo.PNG"[5..] != ".png";
  }
}
