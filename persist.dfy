/**
 The path derivation of `save_to_json_atomic`: the default file name from
 the corrected `fetch_date`, the final path inside the output directory and
 the temporary path beside it.  The writing, moving and removing of files
 is not part of this model.
 */
module Persist {

  import opened Wrappers
  import opened Calendar

  /** `os.path.join(directory, name)` on POSIX, for two components. */
  function JoinPath(directory: string, name: string): string
  {
    if |name| > 0 && name[0] == '/' then name
    else if directory == [] || directory[|directory| - 1] == '/' then directory + name
    else directory + "/" + name
  }

  /** The default file name `nifty50_<fetch_date>.json`. */
  function DefaultFilename(fetchDate: Day): string
  {
    "nifty50_" + IsoDate(fetchDate) + ".json"
  }

  /** The two paths the save works with. */
  datatype SavePaths = SavePaths(finalPath: string, tempPath: string)

  /** The paths for `save_to_json_atomic(data, filename)`: `filename` is `None` when not given. */
  function SaveTargets(outputDir: string, filename: Option<string>, fetchDate: Day): SavePaths
  {
    var name := if filename.None? then DefaultFilename(fetchDate) else filename.value;
    var finalPath := JoinPath(outputDir, name);
    SavePaths(finalPath, finalPath + ".tmp")
  }

  /** Everything of a path up to and including its last `/`: the directory the path names a file in. */
  function DirectoryPart(p: string): string
    decreases |p|
  {
    if p == [] then []
    else if p[|p| - 1] == '/' then p
    else DirectoryPart(p[..|p| - 1])
  }

  /** Appending text without a `/` keeps a path in the same directory. */
  lemma {:induction false} DirectoryPartIgnoresTail(p: string, tail: string)
    requires '/' !in tail
    ensures DirectoryPart(p + tail) == DirectoryPart(p)
    decreases |tail|
  {
    if tail != [] {
      var shorter := tail[..|tail| - 1];
      assert (p + tail)[..|p + tail| - 1] == p + shorter;
      DirectoryPartIgnoresTail(p, shorter);
    } else {
      assert p + tail == p;
    }
  }

  /** The default name has no `/`, and carries the date's text between its prefix and suffix. */
  lemma DefaultFilenameShape(fetchDate: Day)
    ensures var name := DefaultFilename(fetchDate);
      && |name| == 23
      && name[..8] == "nifty50_" && name[8..18] == IsoDate(fetchDate) && name[18..] == ".json"
      && '/' !in name
  {
    var name := DefaultFilename(fetchDate);
    var iso := IsoDate(fetchDate);
    assert forall i :: 0 <= i < 10 ==> iso[i] != '/';
    assert forall i :: 8 <= i < 18 ==> name[i] == iso[i - 8];
  }

  /**
   The temporary file sits beside the final one: the same path with `.tmp`
   appended, so a different path in the same directory.
   */
  lemma TempBesideFinal(outputDir: string, filename: Option<string>, fetchDate: Day)
    ensures var t := SaveTargets(outputDir, filename, fetchDate);
      && t.tempPath != t.finalPath
      && |t.tempPath| == |t.finalPath| + 4 && t.tempPath[..|t.finalPath|] == t.finalPath
      && DirectoryPart(t.tempPath) == DirectoryPart(t.finalPath)
  {
    var t := SaveTargets(outputDir, filename, fetchDate);
    DirectoryPartIgnoresTail(t.finalPath, ".tmp");
    assert |t.tempPath| != |t.finalPath|;
  }

  /**
   Without a file name, the final path is the default name inside the
   output directory.
   */
  lemma DefaultPathLayout(outputDir: string, fetchDate: Day)
    requires outputDir != [] && outputDir[|outputDir| - 1] != '/'
    ensures var t := SaveTargets(outputDir, None, fetchDate);
      && t.finalPath == outputDir + "/" + DefaultFilename(fetchDate)
      && DirectoryPart(t.finalPath) == outputDir + "/"
  {
    var name := DefaultFilename(fetchDate);
    DefaultFilenameShape(fetchDate);
    assert name[0] == 'n';
    DirectoryPartIgnoresTail(outputDir + "/", name);
    assert (outputDir + "/") + name == outputDir + "/" + name;
  }

  /**
   A given file name decides the path by itself: the date plays no part,
   and an absolute name replaces the output directory, as `os.path.join` does.
   */
  lemma GivenFilename(outputDir: string, name: string, fetchDate: Day, otherDate: Day)
    ensures SaveTargets(outputDir, Some(name), fetchDate) == SaveTargets(outputDir, Some(name), otherDate)
    ensures |name| > 0 && name[0] == '/' ==> SaveTargets(outputDir, Some(name), fetchDate).finalPath == name
  {
  }
}
