/**
 * UseListFilesForManager: the -i arguments taken as an explicit list of input
 * files, each of which must exist and must not be a directory.
 */
module UseListFilesForManager {
  import opened Base
  import opened Strings
  import opened Paths
  import opened PrettyPathConverter

  function NotExisting(path: Path): Error
  {
    InvalidPathArgument("No input file exists at path: " + ToString(path))
  }

  function IsADirectory(path: Path): Error
  {
    InvalidPathArgument("Path is a directory not a file for input!\n" + ToString(path))
  }

  /** The verdict on the paths, in order: the first that is missing or a directory is reported. */
  function CheckPaths(paths: seq<Path>, fs: Snapshot): Result<()>
  {
    if |paths| == 0 then Ok(())
    else if !Exists(fs, paths[0]) then Err(NotExisting(paths[0]))
    else if IsDirectory(fs, paths[0]) then Err(IsADirectory(paths[0]))
    else CheckPaths(paths[1..], fs)
  }

  /** checkNoDirectories: a loop over the paths that stops at the first unacceptable one. */
  method CheckNoDirectories(paths: seq<Path>, fs: Snapshot) returns (r: Result<()>)
    ensures r == CheckPaths(paths, fs)
  {
    var i := 0;
    while i < |paths|
      invariant 0 <= i <= |paths|
      invariant CheckPaths(paths[i..], fs) == CheckPaths(paths, fs)
    {
      assert paths[i..][1..] == paths[i + 1..];
      if !Exists(fs, paths[i]) {
        return Err(NotExisting(paths[i]));
      }
      if IsDirectory(fs, paths[i]) {
        return Err(IsADirectory(paths[i]));
      }
      i := i + 1;
    }
    return Ok(());
  }

  /** describe: the pretty form of each path, joined by ", ". */
  function Describe(paths: seq<Path>, cwd: Path): string
  {
    Join(", ", seq(|paths|, i requires 0 <= i < |paths| => PrettyPathFromWorkingDirectory(paths[i], cwd)))
  }

  predicate AcceptableInput(fs: Snapshot, path: Path)
  {
    Exists(fs, path) && !IsDirectory(fs, path)
  }

  /**
   * The paths are accepted exactly when every one exists and none is a
   * directory; otherwise the error names the first path that is not acceptable.
   */
  lemma {:induction false} CheckPathsMeaning(paths: seq<Path>, fs: Snapshot)
    ensures CheckPaths(paths, fs).Ok? <==> forall i :: 0 <= i < |paths| ==> AcceptableInput(fs, paths[i])
    ensures CheckPaths(paths, fs).Err? ==>
              exists k :: 0 <= k < |paths| && !AcceptableInput(fs, paths[k])
                          && (forall i :: 0 <= i < k ==> AcceptableInput(fs, paths[i]))
                          && CheckPaths(paths, fs).error
                             == (if Exists(fs, paths[k]) then IsADirectory(paths[k]) else NotExisting(paths[k]))
  {
    if |paths| > 0 && AcceptableInput(fs, paths[0]) {
      var rest := paths[1..];
      CheckPathsMeaning(rest, fs);
      assert forall i :: 0 <= i < |rest| ==> rest[i] == paths[i + 1];
      if CheckPaths(rest, fs).Err? {
        var k :| 0 <= k < |rest| && !AcceptableInput(fs, rest[k])
                 && (forall i :: 0 <= i < k ==> AcceptableInput(fs, rest[i]))
                 && CheckPaths(rest, fs).error
                    == (if Exists(fs, rest[k]) then IsADirectory(rest[k]) else NotExisting(rest[k]));
        assert forall i :: 0 < i <= k ==> paths[i] == rest[i - 1];
        assert paths[k + 1] == rest[k];
      }
    }
  }
}
