/**
 * Version detectives (src/pds/roundup/_detectives.py): finding a `version.txt` under a
 * workspace's `src` directory and reading the version from it. The file system is
 * given as inputs: an `isDir`/`isFile` test, the sequence `os.walk` would produce, and
 * the text each file holds.
 */
module Detectives {
  import opened Wrappers
  import opened Strings
  import opened Errors

  /** `VersionDetective` (abstract) and its subclass `TextFileDetective`, each over a workspace. */
  datatype Detective = VersionDetective(workspace: string) | TextFileDetective(workspace: string)

  /** `findfile(fn)`: workspace/fn if that is a regular file, otherwise None. */
  function FindFile(d: Detective, fn: string, isFile: string -> bool): (r: Option<string>)
    ensures r.Some? <==> isFile(Join(d.workspace, fn))
    ensures r.Some? ==> r.value == Join(d.workspace, fn)
  {
    var path := Join(d.workspace, fn);
    if isFile(path) then Some(path) else None
  }

  /** One directory visited by `os.walk`: its path and the names of the files in it. */
  datatype WalkEntry = WalkEntry(dirpath: string, filenames: seq<string>)

  /** `fn.lower() == "version.txt"`. */
  predicate IsVersionFileName(fn: string) {
    Lower(fn) == "version.txt"
  }

  /** A name matches exactly when it has the eleven letters of "version.txt", each in either case. */
  lemma VersionFileNameIgnoresCase(fn: string)
    ensures IsVersionFileName(fn) <==>
              |fn| == 11 && forall k :: 0 <= k < 11 ==> LowerChar(fn[k]) == "version.txt"[k]
  {
    if |fn| == 11 && forall k :: 0 <= k < 11 ==> LowerChar(fn[k]) == "version.txt"[k] {
      assert Lower(fn) == "version.txt";
    }
  }

  /** The position of the first matching file name in one directory, if any. */
  function FirstVersionFile(filenames: seq<string>): (r: Option<nat>)
    ensures r.None? <==> forall i :: 0 <= i < |filenames| ==> !IsVersionFileName(filenames[i])
    ensures r.Some? ==> r.value < |filenames| && IsVersionFileName(filenames[r.value])
    ensures r.Some? ==> forall i :: 0 <= i < r.value ==> !IsVersionFileName(filenames[i])
  {
    if filenames == [] then None
    else if IsVersionFileName(filenames[0]) then Some(0)
    else match FirstVersionFile(filenames[1..])
      case None => None
      case Some(i) => Some(i + 1)
  }

  /** The path a directory contributes: its first matching file, joined to the directory. */
  function MatchIn(e: WalkEntry): Option<string> {
    match FirstVersionFile(e.filenames)
    case None => None
    case Some(k) => Some(Join(e.dirpath, e.filenames[k]))
  }

  /** The file `locate_file` settles on: the match of the last directory that has one. */
  function Located(walk: seq<WalkEntry>): (r: Option<string>)
    ensures r.None? <==> forall i :: 0 <= i < |walk| ==> MatchIn(walk[i]).None?
  {
    if walk == [] then None
    else match MatchIn(walk[|walk| - 1])
      case Some(p) => Some(p)
      case None => Located(walk[..|walk| - 1])
  }

  /** Directories after the last one with a match leave the result alone. */
  lemma {:induction false} LastMatchWins(walk: seq<WalkEntry>, k: nat)
    requires k < |walk| && MatchIn(walk[k]).Some?
    requires forall j :: k < j < |walk| ==> MatchIn(walk[j]).None?
    ensures Located(walk) == MatchIn(walk[k])
    decreases |walk|
  {
    if k < |walk| - 1 {
      var init := walk[..|walk| - 1];
      assert forall j :: k < j < |init| ==> init[j] == walk[j];
      LastMatchWins(init, k);
    }
  }

  /** A located file is a matching name in one of the walked directories. */
  lemma {:induction false} LocatedIsAMatch(walk: seq<WalkEntry>)
    requires Located(walk).Some?
    ensures exists i, k :: 0 <= i < |walk| && 0 <= k < |walk[i].filenames|
              && IsVersionFileName(walk[i].filenames[k])
              && Located(walk).value == Join(walk[i].dirpath, walk[i].filenames[k])
  {
    var last := walk[|walk| - 1];
    if MatchIn(last).Some? {
      var k := FirstVersionFile(last.filenames).value;
      assert IsVersionFileName(walk[|walk| - 1].filenames[k]);
    } else {
      var init := walk[..|walk| - 1];
      LocatedIsAMatch(init);
      var i, k :| 0 <= i < |init| && 0 <= k < |init[i].filenames|
                  && IsVersionFileName(init[i].filenames[k])
                  && Located(init).value == Join(init[i].dirpath, init[i].filenames[k]);
      assert init[i] == walk[i];
    }
  }

  /**
   * `TextFileDetective.locate_file(root)`: `ValueError` unless root/src is a directory;
   * otherwise walk it, keeping in each directory only the first matching file, so the
   * last directory with a match wins.
   */
  method LocateFile(root: string, isDir: string -> bool, walk: seq<WalkEntry>) returns (r: Result<Option<string>, Error>)
    ensures !isDir(Join(root, "src")) ==> r == Err(ValueError)
    ensures isDir(Join(root, "src")) ==> r == Ok(Located(walk))
  {
    var srcDir := Join(root, "src");
    if !isDir(srcDir) {
      return Err(ValueError);
    }
    var versionFile: Option<string> := None;
    for i := 0 to |walk|
      invariant versionFile == Located(walk[..i])
    {
      var entry := walk[i];
      assert walk[..i + 1][..i] == walk[..i];
      var j := 0;
      while j < |entry.filenames|
        invariant 0 <= j <= |entry.filenames|
        invariant versionFile == Located(walk[..i])
        invariant forall k :: 0 <= k < j ==> !IsVersionFileName(entry.filenames[k])
      {
        if Lower(entry.filenames[j]) == "version.txt" {
          assert FirstVersionFile(entry.filenames) == Some(j);
          versionFile := Some(Join(entry.dirpath, entry.filenames[j]));
          break;
        }
        j := j + 1;
      }
    }
    assert walk[..|walk|] == walk;
    r := Ok(versionFile);
  }

  /**
   * `detect()`: the base detective always fails; a text-file detective returns the located
   * file's text with surrounding whitespace stripped, or None when there is no such file.
   */
  method Detect(d: Detective, isDir: string -> bool, walk: seq<WalkEntry>, read: string -> string)
    returns (r: Result<Option<string>, Error>)
    ensures d.VersionDetective? ==> r == Err(NotImplementedError)
    ensures d.TextFileDetective? && !isDir(Join(d.workspace, "src")) ==> r == Err(ValueError)
    ensures d.TextFileDetective? && isDir(Join(d.workspace, "src")) ==>
              r == Ok(match Located(walk) case None => None case Some(p) => Some(Strip(read(p))))
  {
    if d.VersionDetective? {
      return Err(NotImplementedError);
    }
    var located := LocateFile(d.workspace, isDir, walk);
    match located
    case Err(e) => r := Err(e);
    case Ok(None) => r := Ok(None);
    case Ok(Some(path)) => r := Ok(Some(Strip(read(path))));
  }
}
