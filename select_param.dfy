/**
 * SelectParam and its implementations: a selection made from the command
 * line, which can say whether it is the default, describe itself, and apply
 * itself to the execution arguments (returning a path for the selections that
 * designate a BeanXML file).
 */
module SelectParam {
  import opened Base
  import opened Strings
  import opened Paths
  import opened PrettyPathConverter
  import opened ExecutionArguments
  import UseAsExtension
  import UseListFilesForManager

  datatype Selection =
    | UseDefaultManager
    | UseAsGlob(stringWithWildcard: string)
    | UseAsExtension(extensions: set<string>)
    | UseAsCustomManager(path: Path)
    | UseDirectoryForManager(directory: Path, input: bool)
    | UseListFilesForManager(paths: seq<Path>)
    | UpdateTaskName(delegate: Selection, taskName: string)

  /** What GlobExtractor.extract finds in a string with a wildcard: an optional directory and the glob. */
  datatype GlobWithDirectory = GlobWithDirectory(directory: Option<string>, glob: string)

  /** The arguments after a selection is applied, and the path it returns. */
  datatype Effect = Effect(input: InputState, output: OutputState, selected: Option<Path>)

  /** The selection with any task-name wrapper removed. */
  function Underlying(s: Selection): (u: Selection)
    ensures !u.UpdateTaskName?
  {
    if s.UpdateTaskName? then Underlying(s.delegate) else s
  }

  function IsDefault(s: Selection): bool
  {
    match s
    case UseDefaultManager => true
    case UpdateTaskName(delegate, _) => IsDefault(delegate)
    case _ => false
  }

  /** describe; the default manager has no description. */
  function Describe(s: Selection, cwd: Path): Option<string>
  {
    match s
    case UseDefaultManager => None
    case UseAsGlob(wildcard) => Some(wildcard)
    case UseAsExtension(extensions) => Some(UseAsExtension.Describe(extensions))
    case UseAsCustomManager(path) => Some("from " + PrettyPathFromWorkingDirectory(path, cwd))
    case UseDirectoryForManager(directory, _) => Some(PrettyPathFromWorkingDirectory(directory, cwd))
    case UseListFilesForManager(paths) => Some(UseListFilesForManager.Describe(paths, cwd))
    case UpdateTaskName(delegate, _) => Describe(delegate, cwd)
  }

  /** What select does to the arguments and what it returns. */
  function SelectEffect(s: Selection, input: InputState, output: OutputState,
                        extractGlob: string -> GlobWithDirectory): Effect
  {
    match s
    case UseDefaultManager => Effect(input, output, None)
    case UseAsGlob(wildcard) =>
      var g := extractGlob(wildcard);
      var directory := if g.directory.Some? then Some(Parse(g.directory.value)) else None;
      Effect(input.(inputDirectory := directory, filterGlob := Some(g.glob), filterExtensions := Some({})),
             output, None)
    case UseAsExtension(extensions) => Effect(input.(filterExtensions := Some(extensions)), output, None)
    case UseAsCustomManager(path) => Effect(input, output, Some(path))
    case UseDirectoryForManager(directory, isInput) =>
      if isInput then Effect(input.(inputDirectory := Some(directory)), output, None)
      else Effect(input, output.(outputDirectory := Some(directory)), None)
    case UseListFilesForManager(paths) => Effect(input.(paths := Some(paths)), output, None)
    case UpdateTaskName(delegate, _) => SelectEffect(delegate, input, output, extractGlob)
  }

  /** select: applies the selection to the execution arguments. */
  method Select(s: Selection, arguments: ExecutionArguments, extractGlob: string -> GlobWithDirectory)
    returns (selected: Option<Path>)
    modifies arguments.input, arguments.output
    ensures Effect(arguments.input.State(), arguments.output.State(), selected)
            == SelectEffect(s, old(arguments.input.State()), old(arguments.output.State()), extractGlob)
    decreases s
  {
    match s
    case UseDefaultManager =>
      selected := None;
    case UseAsGlob(wildcard) =>
      var g := extractGlob(wildcard);
      arguments.input.inputDirectory := if g.directory.Some? then Some(Parse(g.directory.value)) else None;
      arguments.input.filterGlob := Some(g.glob);
      arguments.input.filterExtensions := Some({});
      selected := None;
    case UseAsExtension(extensions) =>
      arguments.input.filterExtensions := Some(extensions);
      selected := None;
    case UseAsCustomManager(path) =>
      selected := Some(path);
    case UseDirectoryForManager(directory, isInput) =>
      if isInput {
        arguments.input.inputDirectory := Some(directory);
      } else {
        arguments.output.outputDirectory := Some(directory);
      }
      selected := None;
    case UseListFilesForManager(paths) =>
      arguments.input.paths := Some(paths);
      selected := None;
    case UpdateTaskName(delegate, _) =>
      selected := Select(delegate, arguments, extractGlob);
  }

  function DirectoryMustExist(directory: Path): Error
  {
    CommandLineError("The path " + ToString(directory) + " to UseDirectoryForManager must be a directory")
  }

  /** The UseDirectoryForManager constructor, which may insist that the directory exists. */
  function NewUseDirectoryForManager(directory: Path, input: bool, checkDirectoryExists: bool, fs: Snapshot)
    : (r: Result<Selection>)
    ensures r.Ok? <==> !checkDirectoryExists || IsDirectory(fs, directory)
    ensures r.Ok? ==> r.value == UseDirectoryForManager(directory, input)
    ensures r.Err? ==> r.error == DirectoryMustExist(directory)
  {
    if checkDirectoryExists && !IsDirectory(fs, directory) then Err(DirectoryMustExist(directory))
    else Ok(UseDirectoryForManager(directory, input))
  }

  /** The UseListFilesForManager constructor, which checks every path. */
  function NewUseListFilesForManager(paths: seq<Path>, fs: Snapshot): Result<Selection>
  {
    var _ :- UseListFilesForManager.CheckPaths(paths, fs);
    Ok(UseListFilesForManager(paths))
  }

  // ---------------------------------------------------------------------
  // Properties
  // ---------------------------------------------------------------------

  predicate WritesOutput(s: Selection)
  {
    var u := Underlying(s);
    u.UseDirectoryForManager? && !u.input
  }

  /**
   * Applying a selection a second time changes nothing further and returns the
   * same path: select may be called repeatedly.
   */
  lemma {:induction false} SelectIsStable(s: Selection, input: InputState, output: OutputState,
                                          extractGlob: string -> GlobWithDirectory)
    ensures var e := SelectEffect(s, input, output, extractGlob);
            SelectEffect(s, e.input, e.output, extractGlob) == e
  {
    if s.UpdateTaskName? {
      SelectIsStable(s.delegate, input, output, extractGlob);
    }
  }

  /**
   * Only a custom manager, possibly named by a task, returns a path; the path
   * returned never depends on the arguments; an output directory changes only
   * the output arguments and every other selection only the input arguments.
   */
  lemma {:induction false} SelectFootprint(s: Selection, input: InputState, output: OutputState,
                                           extractGlob: string -> GlobWithDirectory)
    ensures var e := SelectEffect(s, input, output, extractGlob);
            && (e.selected.Some? <==> Underlying(s).UseAsCustomManager?)
            && (e.selected.Some? ==> e.selected.value == Underlying(s).path)
            && (WritesOutput(s) ==> e.input == input)
            && (!WritesOutput(s) ==> e.output == output)
  {
    if s.UpdateTaskName? {
      SelectFootprint(s.delegate, input, output, extractGlob);
    }
  }

  /** An input selection and an output selection may be applied in either order. */
  lemma {:induction false} InputAndOutputCommute(inputSelection: Selection, outputSelection: Selection,
                                                 input: InputState, output: OutputState,
                                                 extractGlob: string -> GlobWithDirectory)
    requires !WritesOutput(inputSelection) && WritesOutput(outputSelection)
    ensures var a := SelectEffect(inputSelection, input, output, extractGlob);
            var b := SelectEffect(outputSelection, a.input, a.output, extractGlob);
            var c := SelectEffect(outputSelection, input, output, extractGlob);
            var d := SelectEffect(inputSelection, c.input, c.output, extractGlob);
            b.input == d.input && b.output == d.output
  {
    SelectFootprint(inputSelection, input, output, extractGlob);
    var a := SelectEffect(inputSelection, input, output, extractGlob);
    var c := SelectEffect(outputSelection, input, output, extractGlob);
    SelectFootprint(outputSelection, a.input, a.output, extractGlob);
    SelectFootprint(outputSelection, input, output, extractGlob);
    SelectFootprint(inputSelection, c.input, c.output, extractGlob);
    OutputSelectionIgnoresInput(outputSelection, a.input, input, output, extractGlob);
    InputSelectionIgnoresOutput(inputSelection, input, c.output, output, extractGlob);
  }

  lemma {:induction false} OutputSelectionIgnoresInput(s: Selection, input1: InputState, input2: InputState,
                                                       output: OutputState, extractGlob: string -> GlobWithDirectory)
    requires WritesOutput(s)
    ensures SelectEffect(s, input1, output, extractGlob).output == SelectEffect(s, input2, output, extractGlob).output
  {
    if s.UpdateTaskName? {
      OutputSelectionIgnoresInput(s.delegate, input1, input2, output, extractGlob);
    }
  }

  lemma {:induction false} InputSelectionIgnoresOutput(s: Selection, input: InputState, output1: OutputState,
                                                       output2: OutputState, extractGlob: string -> GlobWithDirectory)
    requires !WritesOutput(s)
    ensures SelectEffect(s, input, output1, extractGlob).input == SelectEffect(s, input, output2, extractGlob).input
  {
    if s.UpdateTaskName? {
      InputSelectionIgnoresOutput(s.delegate, input, output1, output2, extractGlob);
    }
  }

  /** Exactly the non-default selections have a description. */
  lemma {:induction false} DescribedIffNotDefault(s: Selection, cwd: Path)
    ensures Describe(s, cwd).Some? <==> !IsDefault(s)
  {
    if s.UpdateTaskName? {
      DescribedIffNotDefault(s.delegate, cwd);
    }
  }

  /** A glob clears the extension filter, so the glob alone decides which files are inputs. */
  lemma GlobClearsExtensions(wildcard: string, input: InputState, output: OutputState,
                             extractGlob: string -> GlobWithDirectory)
    ensures var e := SelectEffect(UseAsGlob(wildcard), input, output, extractGlob);
            e.input.filterExtensions == Some({}) && e.input.filterGlob == Some(extractGlob(wildcard).glob)
            && e.selected == None
  {
  }

  /** The list-of-files constructor succeeds exactly when every path is an existing non-directory. */
  lemma NewUseListFilesMeaning(paths: seq<Path>, fs: Snapshot)
    ensures NewUseListFilesForManager(paths, fs).Ok? <==>
              forall i :: 0 <= i < |paths| ==> UseListFilesForManager.AcceptableInput(fs, paths[i])
    ensures NewUseListFilesForManager(paths, fs).Ok? ==>
              NewUseListFilesForManager(paths, fs).value == UseListFilesForManager(paths)
  {
    UseListFilesForManager.CheckPathsMeaning(paths, fs);
  }
}
