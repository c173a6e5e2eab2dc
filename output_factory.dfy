/**
 * OutputFactory: turns the argument of -o into a selection. An existing
 * directory is written into, an existing file is BeanXML for an output
 * manager, and a path that does not exist is made a directory when it looks
 * like one (or when -oo asks to write into the root).
 */
module OutputFactory {
  import opened Base
  import opened Strings
  import opened Paths
  import opened SelectParam

  const MoreThanOneMessage := "More than one argument was passed to -o. Only one is allowed!"
  const DirectoryExistsMessage :=
    "The output-directory already exists. This is not permitted when option -oo is employed."
  const NoDirectoryMessage := "No output-directory was selected, as is required with option -oo"
  const OutputOptionsLink := "https://www.anchoranalysis.org/user_guide_command_line.html#output-options"

  function NeitherFileNorDirectoryMessage(argument: string): string
  {
    "The argument '" + argument + "' for -o or -output:\n"
      + "  - is neither a path to an existing file (BeanXML for an output-manager).\n"
      + "  - nor looks like a directory (into which outputting occurs).\n\nSee " + OutputOptionsLink + "\n"
  }

  /** A trailing forward or backward slash. */
  predicate LooksLikeDirectoryPath(argument: string)
  {
    EndsWith(argument, "/") || EndsWith(argument, "\\")
  }

  /** The selection (or error) and the disk afterwards. */
  datatype Outcome = Outcome(result: Result<Selection>, disk: Snapshot)

  /** pathNotExisting: a directory is assumed, and created unless writing into the root. */
  function PathNotExisting(argument: string, path: Path, writeIntoRoot: bool, fs: Snapshot): Outcome
  {
    if LooksLikeDirectoryPath(argument) || writeIntoRoot then
      var disk := if !writeIntoRoot then Mkdirs(fs, path) else fs;
      Outcome(NewUseDirectoryForManager(path, false, !writeIntoRoot, disk), disk)
    else Outcome(Err(CommandLineError(NeitherFileNorDirectoryMessage(argument))), fs)
  }

  /** What pathOrDirectory decides, as a function of the disk before the call. */
  function Decide(arguments: seq<string>, writeIntoRoot: bool, fs: Snapshot, cwd: Path): Outcome
    requires |arguments| >= 1
  {
    if |arguments| > 1 then Outcome(Err(CommandLineError(MoreThanOneMessage)), fs)
    else
      match PathFromArgument(arguments[0], cwd)
      case Err(e) => Outcome(Err(CommandLineError(e.message)), fs)
      case Ok(path) =>
        if IsDirectory(fs, path) then
          if writeIntoRoot then Outcome(Err(CommandLineError(DirectoryExistsMessage)), fs)
          else Outcome(NewUseDirectoryForManager(path, false, true, fs), fs)
        else if Exists(fs, path) then
          if writeIntoRoot then Outcome(Err(CommandLineError(NoDirectoryMessage)), fs)
          else Outcome(Ok(UseAsCustomManager(path)), fs)
        else PathNotExisting(arguments[0], path, writeIntoRoot, fs)
  }

  /** pathOrDirectory: may create the output directory on disk. */
  method PathOrDirectory(arguments: seq<string>, writeIntoRoot: bool, disk: FileSystem, cwd: Path)
    returns (r: Result<Selection>)
    requires |arguments| >= 1
    modifies disk
    ensures Outcome(r, disk.entries) == Decide(arguments, writeIntoRoot, old(disk.entries), cwd)
  {
    if |arguments| > 1 {
      return Err(CommandLineError(MoreThanOneMessage));
    }
    var pathArgument := arguments[0];
    var converted := PathFromArgument(pathArgument, cwd);
    if converted.Err? {
      return Err(CommandLineError(converted.error.message));
    }
    var path := converted.value;
    if IsDirectory(disk.entries, path) {
      if writeIntoRoot {
        return Err(CommandLineError(DirectoryExistsMessage));
      }
      return NewUseDirectoryForManager(path, false, true, disk.entries);
    } else if Exists(disk.entries, path) {
      if writeIntoRoot {
        return Err(CommandLineError(NoDirectoryMessage));
      }
      return Ok(UseAsCustomManager(path));
    }
    if LooksLikeDirectoryPath(pathArgument) || writeIntoRoot {
      if !writeIntoRoot {
        disk.MakeDirectories(path);
      }
      return NewUseDirectoryForManager(path, false, !writeIntoRoot, disk.entries);
    }
    return Err(CommandLineError(NeitherFileNorDirectoryMessage(pathArgument)));
  }

  // ---------------------------------------------------------------------
  // Properties
  // ---------------------------------------------------------------------

  /**
   * A successful decision selects the one argument, as an absolute path: as a
   * BeanXML file only when it is an existing non-directory and -oo is absent;
   * as an output directory otherwise, which then exists as a directory unless
   * -oo is present, in which case it did not exist beforehand. The disk is
   * changed only by creating the directories of a missing path that ends in a
   * separator, never with -oo.
   */
  lemma OutputDecisionSound(arguments: seq<string>, writeIntoRoot: bool, fs: Snapshot, cwd: Path)
    requires |arguments| >= 1
    ensures var o := Decide(arguments, writeIntoRoot, fs, cwd);
            var path := ToAbsolute(Parse(arguments[0]), cwd);
            && (o.result.Ok? ==>
                  && |arguments| == 1 && ValidPathString(arguments[0])
                  && (o.result.value == UseAsCustomManager(path) || o.result.value == UseDirectoryForManager(path, false))
                  && (o.result.value.UseAsCustomManager? ==>
                        !writeIntoRoot && Exists(fs, path) && !IsDirectory(fs, path))
                  && (o.result.value.UseDirectoryForManager? && !writeIntoRoot ==> IsDirectory(o.disk, path))
                  && (o.result.value.UseDirectoryForManager? && writeIntoRoot ==> !Exists(fs, path)))
            && (writeIntoRoot ==> o.disk == fs)
            && (o.disk != fs ==>
                  |arguments| == 1 && ValidPathString(arguments[0]) && !writeIntoRoot && !Exists(fs, path)
                  && LooksLikeDirectoryPath(arguments[0]) && o.disk == Mkdirs(fs, path))
  {
  }

  /** With -oo, a valid path that does not exist yet is always accepted as the output directory. */
  lemma WriteIntoRootAcceptsNewDirectory(argument: string, fs: Snapshot, cwd: Path)
    requires ValidPathString(argument) && !Exists(fs, ToAbsolute(Parse(argument), cwd))
    ensures Decide([argument], true, fs, cwd) == Outcome(Ok(UseDirectoryForManager(ToAbsolute(Parse(argument), cwd), false)), fs)
  {
  }

  /**
   * Without -oo, a missing path with a trailing separator is created and
   * selected, provided no file stands in the way.
   */
  lemma TrailingSeparatorCreatesDirectory(argument: string, fs: Snapshot, cwd: Path)
    requires ValidPathString(argument) && LooksLikeDirectoryPath(argument)
    requires var path := ToAbsolute(Parse(argument), cwd);
             !Exists(fs, path) && !HasFileAncestorOrSelf(fs, Normalize(path))
    ensures var path := ToAbsolute(Parse(argument), cwd);
            var o := Decide([argument], false, fs, cwd);
            o.result == Ok(UseDirectoryForManager(path, false)) && IsDirectory(o.disk, path)
  {
    MkdirsMakesDirectory(fs, ToAbsolute(Parse(argument), cwd));
  }

  /**
   * When a file stands in the way of creating the directory, nothing is
   * created and the directory check of UseDirectoryForManager refuses the path.
   */
  lemma BlockedDirectoryRefused(argument: string, fs: Snapshot, cwd: Path)
    requires ValidPathString(argument) && LooksLikeDirectoryPath(argument)
    requires var path := ToAbsolute(Parse(argument), cwd);
             !Exists(fs, path) && HasFileAncestorOrSelf(fs, Normalize(path))
    ensures var path := ToAbsolute(Parse(argument), cwd);
            Decide([argument], false, fs, cwd) == Outcome(Err(DirectoryMustExist(path)), fs)
  {
    MkdirsMakesDirectory(fs, ToAbsolute(Parse(argument), cwd));
  }

  /** An invalid path is reported as a command-line error carrying the same message. */
  lemma InvalidPathBecomesCommandLineError(argument: string, writeIntoRoot: bool, fs: Snapshot, cwd: Path)
    requires !ValidPathString(argument)
    ensures Decide([argument], writeIntoRoot, fs, cwd) == Outcome(Err(CommandLineError(InvalidPathMessage(argument))), fs)
  {
  }

  /** More than one argument to -o is refused and nothing is created. */
  lemma SeveralArgumentsRefused(arguments: seq<string>, writeIntoRoot: bool, fs: Snapshot, cwd: Path)
    requires |arguments| > 1
    ensures Decide(arguments, writeIntoRoot, fs, cwd) == Outcome(Err(CommandLineError(MoreThanOneMessage)), fs)
  {
  }

  /** An existing directory is written into, except with -oo, which refuses it; nothing is created. */
  lemma ExistingDirectorySelected(argument: string, writeIntoRoot: bool, fs: Snapshot, cwd: Path)
    requires ValidPathString(argument) && IsDirectory(fs, ToAbsolute(Parse(argument), cwd))
    ensures Decide([argument], writeIntoRoot, fs, cwd)
            == Outcome(if writeIntoRoot then Err(CommandLineError(DirectoryExistsMessage))
                       else Ok(UseDirectoryForManager(ToAbsolute(Parse(argument), cwd), false)), fs)
  {
  }

  /** An existing file is BeanXML for an output manager, except with -oo, which refuses it; nothing is created. */
  lemma ExistingFileSelected(argument: string, writeIntoRoot: bool, fs: Snapshot, cwd: Path)
    requires ValidPathString(argument)
    requires var path := ToAbsolute(Parse(argument), cwd); Exists(fs, path) && !IsDirectory(fs, path)
    ensures Decide([argument], writeIntoRoot, fs, cwd)
            == Outcome(if writeIntoRoot then Err(CommandLineError(NoDirectoryMessage))
                       else Ok(UseAsCustomManager(ToAbsolute(Parse(argument), cwd))), fs)
  {
  }

  /** Without -oo, a missing path without a trailing separator is refused and nothing is created. */
  lemma MissingPlainPathRefused(argument: string, fs: Snapshot, cwd: Path)
    requires ValidPathString(argument) && !LooksLikeDirectoryPath(argument)
    requires !Exists(fs, ToAbsolute(Parse(argument), cwd))
    ensures Decide([argument], false, fs, cwd)
            == Outcome(Err(CommandLineError(NeitherFileNorDirectoryMessage(argument))), fs)
  {
  }
}
