/**
 * InputFactory: turns the arguments of -i into a selection. In order, the
 * arguments are tried as a glob, as a BeanXML file, as file extensions, as a
 * single directory, and finally as a list of files.
 */
module InputFactory {
  import opened Base
  import opened Strings
  import opened Paths
  import opened ExtensionHelper
  import opened SelectParam
  import UseAsExtension
  import UseListFilesForManager

  const WildcardMessage := "Only a single wildcard argument is permitted to -i"
  const ExtensionMessage :=
    "If a file-extension (e.g. .png) is specified, all other arguments to -i must also be file-extensions"
  const XmlMessage :=
    "Only a single BeanXML argument is permitted after -i (i.e. with a path with a .xml extension)"
  const DirectoryMessage :=
    "with -i, please specify either:\n\ta single directory\n\tOR one or more files"
    + "\n\tOR a file extension (with a leading period)\n\tBUT NOT multiple directories."
    + "\nPerhaps your wildcard match is ill-specified?"

  /**
   * check: Ok(true) when the first condition holds and so does the second (the
   * supplier is then called), an error with the message when only the first
   * holds, Ok(false) when the first does not hold.
   */
  function Check(condition1: bool, condition2: bool, errorMessage: string): (r: Result<bool>)
    ensures r.Err? <==> condition1 && !condition2
    ensures r.Ok? ==> (r.value <==> condition1)
    ensures r.Err? ==> r.error == CommandLineError(errorMessage)
  {
    if condition1 then
      if condition2 then Ok(true) else Err(CommandLineError(errorMessage))
    else Ok(false)
  }

  predicate HasWildcard(argument: string)
  {
    '*' in argument
  }

  predicate AnyWildcard(arguments: seq<string>)
  {
    exists i :: 0 <= i < |arguments| && HasWildcard(arguments[i])
  }

  predicate AnyXml(arguments: seq<string>)
  {
    exists i :: 0 <= i < |arguments| && HasXmlExtension(arguments[i])
  }

  predicate AnyExtension(arguments: seq<string>)
  {
    exists i :: 0 <= i < |arguments| && IsFileExtension(arguments[i])
  }

  predicate AllExtensions(arguments: seq<string>)
  {
    forall i :: 0 <= i < |arguments| ==> IsFileExtension(arguments[i])
  }

  predicate AnyDirectory(paths: seq<Path>, fs: Snapshot)
  {
    exists i :: 0 <= i < |paths| && IsDirectory(fs, paths[i])
  }

  /** pathFromArguments: every argument made an absolute path; the first invalid one is reported. */
  function PathsFromArguments(arguments: seq<string>, cwd: Path): (r: Result<seq<Path>>)
    ensures r.Ok? <==> forall i :: 0 <= i < |arguments| ==> ValidPathString(arguments[i])
    ensures r.Ok? ==> |r.value| == |arguments|
                      && forall i :: 0 <= i < |arguments| ==> r.value[i] == ToAbsolute(Parse(arguments[i]), cwd)
    ensures r.Err? ==> exists i :: 0 <= i < |arguments| && !ValidPathString(arguments[i])
                          && (forall j :: 0 <= j < i ==> ValidPathString(arguments[j]))
                          && r.error == InvalidPathArgument(InvalidPathMessage(arguments[i]))
  {
    if |arguments| == 0 then Ok([])
    else
      var first :- PathFromArgument(arguments[0], cwd);
      var rest := PathsFromArguments(arguments[1..], cwd);
      if rest.Err? then
        assert forall i :: 1 <= i < |arguments| ==> arguments[1..][i - 1] == arguments[i];
        Err(rest.error)
      else Ok([first] + rest.value)
  }

  function CheckWildcard(arguments: seq<string>): Result<Option<Selection>>
  {
    var go :- Check(AnyWildcard(arguments), |arguments| == 1, WildcardMessage);
    if go then Ok(Some(UseAsGlob(arguments[0]))) else Ok(None)
  }

  function CheckXmlExtension(arguments: seq<string>, cwd: Path): Result<Option<Selection>>
  {
    var go :- Check(AnyXml(arguments), |arguments| == 1, XmlMessage);
    if go then
      var path :- PathFromArgument(arguments[0], cwd);
      Ok(Some(UseAsCustomManager(path)))
    else Ok(None)
  }

  function CheckFileExtension(arguments: seq<string>): Result<Option<Selection>>
  {
    var go :- Check(AnyExtension(arguments), AllExtensions(arguments), ExtensionMessage);
    if go then Ok(Some(UseAsExtension(UseAsExtension.ExtensionsOf(arguments)))) else Ok(None)
  }

  function CheckDirectory(paths: seq<Path>, fs: Snapshot): Result<Option<Selection>>
  {
    var go :- Check(AnyDirectory(paths, fs), |paths| == 1, DirectoryMessage);
    if go then
      var selection :- NewUseDirectoryForManager(paths[0], true, true, fs);
      Ok(Some(selection))
    else Ok(None)
  }

  /** pathOrDirectoryOrGlobOrExtension: the first check that selects something wins. */
  function PathOrDirectoryOrGlobOrExtension(arguments: seq<string>, cwd: Path, fs: Snapshot)
    : Result<Selection>
  {
    var wildcard :- CheckWildcard(arguments);
    if wildcard.Some? then Ok(wildcard.value) else
    var xml :- CheckXmlExtension(arguments, cwd);
    if xml.Some? then Ok(xml.value) else
    var extension :- CheckFileExtension(arguments);
    if extension.Some? then Ok(extension.value) else
    var paths :- PathsFromArguments(arguments, cwd);
    var directory :- CheckDirectory(paths, fs);
    if directory.Some? then Ok(directory.value) else
    NewUseListFilesForManager(paths, fs)
  }

  // ---------------------------------------------------------------------
  // Properties
  // ---------------------------------------------------------------------

  /**
   * Whatever is selected agrees with the arguments: a glob is the one argument
   * and holds a wildcard; a custom manager is the one argument, a BeanXML path;
   * extensions come from arguments that are all extensions; a directory is the
   * one argument and exists as a directory; a list of files has one existing
   * non-directory per argument. The default manager is never chosen.
   */
  lemma InputSelectionSound(arguments: seq<string>, cwd: Path, fs: Snapshot)
    ensures var r := PathOrDirectoryOrGlobOrExtension(arguments, cwd, fs);
            r.Ok? ==>
              && !IsDefault(r.value) && !r.value.UpdateTaskName?
              && (r.value.UseAsGlob? ==> arguments == [r.value.stringWithWildcard]
                                           && HasWildcard(r.value.stringWithWildcard))
              && (r.value.UseAsCustomManager? ==>
                    |arguments| == 1 && !HasWildcard(arguments[0]) && HasXmlExtension(arguments[0])
                    && r.value.path == ToAbsolute(Parse(arguments[0]), cwd))
              && (r.value.UseAsExtension? ==>
                    !AnyWildcard(arguments) && !AnyXml(arguments) && |arguments| > 0 && AllExtensions(arguments)
                    && r.value.extensions == UseAsExtension.ExtensionsOf(arguments))
              && (r.value.UseDirectoryForManager? ==>
                    |arguments| == 1 && r.value.input && IsDirectory(fs, r.value.directory)
                    && r.value.directory == ToAbsolute(Parse(arguments[0]), cwd))
              && (r.value.UseListFilesForManager? ==>
                    !AnyWildcard(arguments) && !AnyXml(arguments) && !AnyExtension(arguments)
                    && |r.value.paths| == |arguments|
                    && forall i :: 0 <= i < |arguments| ==>
                         r.value.paths[i] == ToAbsolute(Parse(arguments[i]), cwd)
                         && UseListFilesForManager.AcceptableInput(fs, r.value.paths[i]))
  {
    var r := PathOrDirectoryOrGlobOrExtension(arguments, cwd, fs);
    SelectionStages(arguments, cwd, fs);
    if r.Ok? {
      EarlyStagesSound(arguments, cwd, r.value);
    }
    LateSelectionsSound(arguments, cwd, fs);
  }

  /** What each of the first three checks selects agrees with the arguments. */
  lemma EarlyStagesSound(arguments: seq<string>, cwd: Path, s: Selection)
    requires || CheckWildcard(arguments) == Ok(Some(s))
             || (CheckWildcard(arguments) == Ok(None) && CheckXmlExtension(arguments, cwd) == Ok(Some(s)))
             || (CheckWildcard(arguments) == Ok(None) && CheckXmlExtension(arguments, cwd) == Ok(None)
                 && CheckFileExtension(arguments) == Ok(Some(s)))
             || s.UseDirectoryForManager? || s.UseListFilesForManager?
    ensures && !IsDefault(s) && !s.UpdateTaskName?
            && (s.UseAsGlob? ==> arguments == [s.stringWithWildcard] && HasWildcard(s.stringWithWildcard))
            && (s.UseAsCustomManager? ==>
                  |arguments| == 1 && !HasWildcard(arguments[0]) && HasXmlExtension(arguments[0])
                  && s.path == ToAbsolute(Parse(arguments[0]), cwd))
            && (s.UseAsExtension? ==>
                  !AnyWildcard(arguments) && !AnyXml(arguments) && |arguments| > 0 && AllExtensions(arguments)
                  && s.extensions == UseAsExtension.ExtensionsOf(arguments))
  {
    WildcardCheckMeaning(arguments);
    XmlCheckMeaning(arguments, cwd);
    ExtensionCheckMeaning(arguments);
    if |arguments| == 1 {
      SingleArgument(arguments);
    }
  }

  /** The selection is made by the first check that selects something, or by the later stages. */
  lemma SelectionStages(arguments: seq<string>, cwd: Path, fs: Snapshot)
    ensures var r := PathOrDirectoryOrGlobOrExtension(arguments, cwd, fs);
            r.Ok? ==>
              || CheckWildcard(arguments) == Ok(Some(r.value))
              || (CheckWildcard(arguments) == Ok(None) && CheckXmlExtension(arguments, cwd) == Ok(Some(r.value)))
              || (CheckWildcard(arguments) == Ok(None) && CheckXmlExtension(arguments, cwd) == Ok(None)
                  && CheckFileExtension(arguments) == Ok(Some(r.value)))
              || (CheckWildcard(arguments) == Ok(None) && CheckXmlExtension(arguments, cwd) == Ok(None)
                  && CheckFileExtension(arguments) == Ok(None)
                  && (r.value.UseDirectoryForManager? || r.value.UseListFilesForManager?))
  {
    if CheckWildcard(arguments) == Ok(None) && CheckXmlExtension(arguments, cwd) == Ok(None)
       && CheckFileExtension(arguments) == Ok(None) {
      LaterStagesNotEarly(arguments, cwd, fs);
    }
  }

  lemma WildcardCheckMeaning(arguments: seq<string>)
    ensures CheckWildcard(arguments) == Ok(None) ==> !AnyWildcard(arguments)
    ensures forall s: Selection :: CheckWildcard(arguments) == Ok(Some(s)) ==>
              arguments == [s.stringWithWildcard] && s == UseAsGlob(arguments[0]) && HasWildcard(arguments[0])
  {
    if |arguments| == 1 {
      SingleArgument(arguments);
    }
  }

  /**
   * The BeanXML check passes exactly when no argument has the XML extension;
   * with one, a single argument becomes a custom manager on its absolute path
   * (or an invalid-path error), and several arguments are refused.
   */
  lemma XmlCheckMeaning(arguments: seq<string>, cwd: Path)
    ensures CheckXmlExtension(arguments, cwd) == Ok(None) <==> !AnyXml(arguments)
    ensures forall s: Selection :: CheckXmlExtension(arguments, cwd) == Ok(Some(s)) ==>
              |arguments| == 1 && HasXmlExtension(arguments[0])
              && s == UseAsCustomManager(ToAbsolute(Parse(arguments[0]), cwd))
    ensures AnyXml(arguments) && |arguments| != 1 ==>
              CheckXmlExtension(arguments, cwd) == Err(CommandLineError(XmlMessage))
    ensures AnyXml(arguments) && |arguments| == 1 ==>
              CheckXmlExtension(arguments, cwd)
              == if ValidPathString(arguments[0]) then Ok(Some(UseAsCustomManager(ToAbsolute(Parse(arguments[0]), cwd))))
                 else Err(InvalidPathArgument(InvalidPathMessage(arguments[0])))
  {
    if |arguments| == 1 {
      SingleArgument(arguments);
    }
  }

  lemma ExtensionCheckMeaning(arguments: seq<string>)
    ensures forall s: Selection :: CheckFileExtension(arguments) == Ok(Some(s)) ==>
              |arguments| > 0 && AllExtensions(arguments)
              && s == UseAsExtension(UseAsExtension.ExtensionsOf(arguments))
  {
  }

  lemma SingleArgument(arguments: seq<string>)
    requires |arguments| == 1
    ensures AnyWildcard(arguments) <==> HasWildcard(arguments[0])
    ensures AnyXml(arguments) <==> HasXmlExtension(arguments[0])
    ensures arguments == [arguments[0]]
  {
  }

  /** Past the first three checks, only a directory or a list of files is selected. */
  lemma LaterStagesNotEarly(arguments: seq<string>, cwd: Path, fs: Snapshot)
    requires CheckWildcard(arguments) == Ok(None) && CheckXmlExtension(arguments, cwd) == Ok(None)
    requires CheckFileExtension(arguments) == Ok(None)
    ensures var r := PathOrDirectoryOrGlobOrExtension(arguments, cwd, fs);
            r.Ok? ==> r.value.UseDirectoryForManager? || r.value.UseListFilesForManager?
  {
  }

  /** The directory and the list of files, as selected. */
  lemma LateSelectionsSound(arguments: seq<string>, cwd: Path, fs: Snapshot)
    ensures var r := PathOrDirectoryOrGlobOrExtension(arguments, cwd, fs);
            r.Ok? ==>
              && (r.value.UseDirectoryForManager? ==>
                    |arguments| == 1 && r.value.input && IsDirectory(fs, r.value.directory)
                    && r.value.directory == ToAbsolute(Parse(arguments[0]), cwd))
              && (r.value.UseListFilesForManager? ==>
                    !AnyWildcard(arguments) && !AnyXml(arguments) && !AnyExtension(arguments)
                    && |r.value.paths| == |arguments|
                    && forall i :: 0 <= i < |arguments| ==>
                         r.value.paths[i] == ToAbsolute(Parse(arguments[i]), cwd)
                         && UseListFilesForManager.AcceptableInput(fs, r.value.paths[i]))
  {
    var r := PathOrDirectoryOrGlobOrExtension(arguments, cwd, fs);
    var paths := PathsFromArguments(arguments, cwd);
    if r.Ok? && r.value.UseListFilesForManager? {
      NewUseListFilesMeaning(paths.value, fs);
    }
  }

  /** A single argument with a wildcard is always a glob. */
  lemma SingleWildcardIsGlob(argument: string, cwd: Path, fs: Snapshot)
    requires HasWildcard(argument)
    ensures PathOrDirectoryOrGlobOrExtension([argument], cwd, fs) == Ok(UseAsGlob(argument))
  {
    assert AnyWildcard([argument]) by {
      assert HasWildcard([argument][0]);
    }
  }

  /** A wildcard among several arguments is refused, whatever the other arguments are. */
  lemma SeveralWithWildcardRefused(arguments: seq<string>, cwd: Path, fs: Snapshot)
    requires |arguments| > 1 && AnyWildcard(arguments)
    ensures PathOrDirectoryOrGlobOrExtension(arguments, cwd, fs) == Err(CommandLineError(WildcardMessage))
  {
  }

  /** Without a wildcard or a BeanXML path, a mix of extensions and other arguments is refused. */
  lemma MixedExtensionsRefused(arguments: seq<string>, cwd: Path, fs: Snapshot)
    requires !AnyWildcard(arguments) && !AnyXml(arguments)
    requires AnyExtension(arguments) && !AllExtensions(arguments)
    ensures PathOrDirectoryOrGlobOrExtension(arguments, cwd, fs) == Err(CommandLineError(ExtensionMessage))
  {
  }

  /** Extensions without a wildcard or a BeanXML path select those extensions, without touching the disk. */
  lemma ExtensionsSelected(arguments: seq<string>, cwd: Path, fs: Snapshot)
    requires !AnyWildcard(arguments) && !AnyXml(arguments)
    requires |arguments| > 0 && AllExtensions(arguments)
    ensures PathOrDirectoryOrGlobOrExtension(arguments, cwd, fs)
            == Ok(UseAsExtension(UseAsExtension.ExtensionsOf(arguments)))
  {
    EarlierChecksPass(arguments, cwd);
    ExtensionCheckSelects(arguments);
    ExtensionCheckDecides(arguments, cwd, fs);
  }

  lemma EarlierChecksPass(arguments: seq<string>, cwd: Path)
    requires !AnyWildcard(arguments) && !AnyXml(arguments)
    ensures CheckWildcard(arguments) == Ok(None) && CheckXmlExtension(arguments, cwd) == Ok(None)
  {
  }

  lemma ExtensionCheckSelects(arguments: seq<string>)
    requires |arguments| > 0 && AllExtensions(arguments)
    ensures CheckFileExtension(arguments) == Ok(Some(UseAsExtension(UseAsExtension.ExtensionsOf(arguments))))
  {
    assert IsFileExtension(arguments[0]);
  }

  /** Once the glob and BeanXML checks pass over the arguments, a selecting extension check decides. */
  lemma ExtensionCheckDecides(arguments: seq<string>, cwd: Path, fs: Snapshot)
    requires CheckWildcard(arguments) == Ok(None) && CheckXmlExtension(arguments, cwd) == Ok(None)
    requires CheckFileExtension(arguments).Ok? && CheckFileExtension(arguments).value.Some?
    ensures PathOrDirectoryOrGlobOrExtension(arguments, cwd, fs) == Ok(CheckFileExtension(arguments).value.value)
  {
  }

  /** An argument that is not a valid path is reported once the earlier forms are ruled out. */
  lemma InvalidPathReported(arguments: seq<string>, cwd: Path, fs: Snapshot)
    requires !AnyWildcard(arguments) && !AnyXml(arguments) && !AnyExtension(arguments)
    requires exists i :: 0 <= i < |arguments| && !ValidPathString(arguments[i])
    ensures var r := PathOrDirectoryOrGlobOrExtension(arguments, cwd, fs);
            r.Err? && r.error.InvalidPathArgument?
  {
  }

  /** ".xml" is both a file extension and a BeanXML path; as a BeanXML path it is selected. */
  lemma XmlExtensionAloneIsCustomManager(cwd: Path, fs: Snapshot)
    ensures PathOrDirectoryOrGlobOrExtension([".xml"], cwd, fs)
            == Ok(UseAsCustomManager(ToAbsolute(Parse(".xml"), cwd)))
  {
    assert HasXmlExtension([".xml"][0]) by {
      assert ToLowerAscii(".xml") == ".xml";
    }
    assert !AnyWildcard([".xml"]) by {
      assert !HasWildcard([".xml"][0]);
    }
    assert ValidPathString(".xml");
  }

  /** A single BeanXML argument without a wildcard is a custom manager on its absolute path, or an invalid path. */
  lemma SingleXmlIsCustomManager(argument: string, cwd: Path, fs: Snapshot)
    requires !HasWildcard(argument) && HasXmlExtension(argument)
    ensures PathOrDirectoryOrGlobOrExtension([argument], cwd, fs)
            == if ValidPathString(argument) then Ok(UseAsCustomManager(ToAbsolute(Parse(argument), cwd)))
               else Err(InvalidPathArgument(InvalidPathMessage(argument)))
  {
    SingleArgument([argument]);
    XmlCheckMeaning([argument], cwd);
  }

  /** Several arguments without a wildcard, one of them BeanXML, are refused. */
  lemma SeveralWithXmlRefused(arguments: seq<string>, cwd: Path, fs: Snapshot)
    requires |arguments| > 1 && !AnyWildcard(arguments) && AnyXml(arguments)
    ensures PathOrDirectoryOrGlobOrExtension(arguments, cwd, fs) == Err(CommandLineError(XmlMessage))
  {
  }

  /** No argument has a wildcard, the XML extension, or is a file extension. */
  predicate PlainPaths(arguments: seq<string>)
  {
    !AnyWildcard(arguments) && !AnyXml(arguments) && !AnyExtension(arguments)
  }

  /** Plain, valid arguments: the selection is decided by the directory check and the list of files. */
  lemma PlainPathsStages(arguments: seq<string>, cwd: Path, fs: Snapshot)
    requires PlainPaths(arguments) && forall i :: 0 <= i < |arguments| ==> ValidPathString(arguments[i])
    ensures PathsFromArguments(arguments, cwd).Ok?
    ensures var paths := PathsFromArguments(arguments, cwd).value;
            PathOrDirectoryOrGlobOrExtension(arguments, cwd, fs)
            == match CheckDirectory(paths, fs)
               case Err(e) => Err(e)
               case Ok(directory) =>
                 if directory.Some? then Ok(directory.value) else NewUseListFilesForManager(paths, fs)
  {
    EarlierChecksPass(arguments, cwd);
  }

  /** One plain argument naming an existing directory selects that directory as the input directory. */
  lemma SingleDirectorySelected(argument: string, cwd: Path, fs: Snapshot)
    requires !HasWildcard(argument) && !HasXmlExtension(argument) && !IsFileExtension(argument)
    requires ValidPathString(argument) && IsDirectory(fs, ToAbsolute(Parse(argument), cwd))
    ensures PathOrDirectoryOrGlobOrExtension([argument], cwd, fs)
            == Ok(UseDirectoryForManager(ToAbsolute(Parse(argument), cwd), true))
  {
    var arguments := [argument];
    SingleArgument(arguments);
    assert !AnyExtension(arguments);
    PlainPathsStages(arguments, cwd, fs);
    var paths := PathsFromArguments(arguments, cwd).value;
    assert AnyDirectory(paths, fs) by {
      assert IsDirectory(fs, paths[0]);
    }
  }

  /** Several plain arguments, one of them an existing directory, are refused. */
  lemma SeveralWithDirectoryRefused(arguments: seq<string>, cwd: Path, fs: Snapshot, k: nat)
    requires |arguments| > 1 && PlainPaths(arguments)
    requires forall i :: 0 <= i < |arguments| ==> ValidPathString(arguments[i])
    requires k < |arguments| && IsDirectory(fs, ToAbsolute(Parse(arguments[k]), cwd))
    ensures PathOrDirectoryOrGlobOrExtension(arguments, cwd, fs) == Err(CommandLineError(DirectoryMessage))
  {
    PlainPathsStages(arguments, cwd, fs);
    var paths := PathsFromArguments(arguments, cwd).value;
    assert AnyDirectory(paths, fs) by {
      assert IsDirectory(fs, paths[k]);
    }
  }

  /**
   * Plain arguments, none an existing directory, are a list of files: the
   * absolute paths in order when every one exists, otherwise the first
   * missing path is reported.
   */
  lemma FileListSelected(arguments: seq<string>, cwd: Path, fs: Snapshot)
    requires PlainPaths(arguments) && forall i :: 0 <= i < |arguments| ==> ValidPathString(arguments[i])
    requires forall i :: 0 <= i < |arguments| ==> !IsDirectory(fs, ToAbsolute(Parse(arguments[i]), cwd))
    ensures var r := PathOrDirectoryOrGlobOrExtension(arguments, cwd, fs);
            (forall i :: 0 <= i < |arguments| ==> Exists(fs, ToAbsolute(Parse(arguments[i]), cwd))) ==>
              r.Ok? && r.value.UseListFilesForManager? && |r.value.paths| == |arguments|
              && forall i :: 0 <= i < |arguments| ==> r.value.paths[i] == ToAbsolute(Parse(arguments[i]), cwd)
    ensures var r := PathOrDirectoryOrGlobOrExtension(arguments, cwd, fs);
            forall k :: 0 <= k < |arguments| && !Exists(fs, ToAbsolute(Parse(arguments[k]), cwd))
                        && (forall i :: 0 <= i < k ==> Exists(fs, ToAbsolute(Parse(arguments[i]), cwd))) ==>
              r == Err(UseListFilesForManager.NotExisting(ToAbsolute(Parse(arguments[k]), cwd)))
  {
    PlainPathsStages(arguments, cwd, fs);
    var paths := PathsFromArguments(arguments, cwd).value;
    assert !AnyDirectory(paths, fs);
    assert CheckDirectory(paths, fs) == Ok(None);
    NewUseListFilesMeaning(paths, fs);
    UseListFilesForManager.CheckPathsMeaning(paths, fs);
    forall k | 0 <= k < |arguments| && !Exists(fs, ToAbsolute(Parse(arguments[k]), cwd))
               && (forall i :: 0 <= i < k ==> Exists(fs, ToAbsolute(Parse(arguments[i]), cwd)))
      ensures PathOrDirectoryOrGlobOrExtension(arguments, cwd, fs)
              == Err(UseListFilesForManager.NotExisting(ToAbsolute(Parse(arguments[k]), cwd)))
    {
      var e := UseListFilesForManager.CheckPaths(paths, fs);
      assert !UseListFilesForManager.AcceptableInput(fs, paths[k]);
      var j :| 0 <= j < |paths| && !UseListFilesForManager.AcceptableInput(fs, paths[j])
               && (forall i :: 0 <= i < j ==> UseListFilesForManager.AcceptableInput(fs, paths[i]))
               && e.error == (if Exists(fs, paths[j]) then UseListFilesForManager.IsADirectory(paths[j])
                              else UseListFilesForManager.NotExisting(paths[j]));
    }
  }
}
