/**
 * SelectParamFactory: chooses the selection for the input (-i), the output
 * (-o or -oo) and the task (-t), falling back on the default manager when the
 * option is absent.
 */
module SelectParamFactory {
  import opened Base
  import opened Paths
  import opened CommandLineExtracter
  import opened SelectParam
  import InputFactory
  import OutputFactory
  import TaskFactory
  import ExperimentFactory
  import UseListFilesForManager

  const InputOption := "i"
  const OutputOption := "o"
  const OmitIdentifierOption := "oo"

  const BothOutputOptionsMessage := "Only one of command-line options -o and -oo may be present, but both are!"

  /**
   * An option declared with a required argument: once present, the parser has
   * given it at least one value.
   */
  predicate HasRequiredArgument(line: CommandLine, option: string)
  {
    option in line ==> |line[option]| > 0
  }

  /** InvalidPathArgumentException.toCommandLineException; other errors pass unchanged. */
  function ToCommandLineError(e: Error): (r: Error)
    ensures !r.InvalidPathArgument?
    ensures r.message == e.message
  {
    if e.InvalidPathArgument? then CommandLineError(e.message) else e
  }

  /** inputSelectParam */
  function InputSelectParam(line: CommandLine, cwd: Path, fs: Snapshot): Result<Selection>
    requires HasRequiredArgument(line, InputOption)
  {
    if HasOption(line, InputOption) then
      match InputFactory.PathOrDirectoryOrGlobOrExtension(line[InputOption], cwd, fs)
      case Ok(selection) => Ok(selection)
      case Err(e) => Err(ToCommandLineError(e))
    else Ok(UseDefaultManager)
  }

  /** pathOrTaskNameOrDefault: -t may be present without a value, which TaskFactory refuses. */
  function PathOrTaskNameOrDefault(line: CommandLine, optionName: string, tasksDirectory: Path,
                                   fs: Snapshot, cwd: Path): Result<Selection>
  {
    if HasOption(line, optionName) then
      TaskFactory.PathOrTaskName(OptionValues(line, optionName), tasksDirectory, fs, cwd)
    else Ok(UseDefaultManager)
  }

  /** What outputSelectParam decides, and the disk afterwards. */
  function OutputDecision(line: CommandLine, fs: Snapshot, cwd: Path): OutputFactory.Outcome
    requires HasRequiredArgument(line, OutputOption) && HasRequiredArgument(line, OmitIdentifierOption)
  {
    if HasOption(line, OutputOption) && HasOption(line, OmitIdentifierOption) then
      OutputFactory.Outcome(Err(ExperimentExecution(BothOutputOptionsMessage)), fs)
    else if HasOption(line, OmitIdentifierOption) then
      OutputFactory.Decide(line[OmitIdentifierOption], true, fs, cwd)
    else if HasOption(line, OutputOption) then
      OutputFactory.Decide(line[OutputOption], false, fs, cwd)
    else OutputFactory.Outcome(Ok(UseDefaultManager), fs)
  }

  /** outputSelectParam: -oo is tried before -o; may create the output directory. */
  method OutputSelectParam(line: CommandLine, disk: FileSystem, cwd: Path) returns (r: Result<Selection>)
    requires HasRequiredArgument(line, OutputOption) && HasRequiredArgument(line, OmitIdentifierOption)
    modifies disk
    ensures OutputFactory.Outcome(r, disk.entries) == OutputDecision(line, old(disk.entries), cwd)
  {
    if HasOption(line, OutputOption) && HasOption(line, OmitIdentifierOption) {
      return Err(ExperimentExecution(BothOutputOptionsMessage));
    }
    if HasOption(line, OmitIdentifierOption) {
      r := OutputFactory.PathOrDirectory(line[OmitIdentifierOption], true, disk, cwd);
      return;
    }
    if HasOption(line, OutputOption) {
      r := OutputFactory.PathOrDirectory(line[OutputOption], false, disk, cwd);
    } else {
      r := Ok(UseDefaultManager);
    }
  }

  /** experimentSelectParam: the positional arguments decide. */
  function ExperimentSelectParam(positional: seq<string>, defaultExperiment: Path)
    : Result<ExperimentFactory.ExperimentSelection>
  {
    ExperimentFactory.DefaultExperimentOrCustom(positional, defaultExperiment)
  }

  // ---------------------------------------------------------------------
  // Properties
  // ---------------------------------------------------------------------

  /**
   * The input selection is the default exactly when -i is absent, and every
   * failure reaches the caller as a command-line error.
   */
  lemma InputSelection(line: CommandLine, cwd: Path, fs: Snapshot)
    requires HasRequiredArgument(line, InputOption)
    ensures var r := InputSelectParam(line, cwd, fs);
            && (r.Ok? && IsDefault(r.value) <==> InputOption !in line)
            && (r.Err? ==> r.error.CommandLineError?)
  {
    if InputOption in line {
      InputFactory.InputSelectionSound(line[InputOption], cwd, fs);
      InputErrorsAreCommandLineOrPath(line[InputOption], cwd, fs);
    }
  }

  lemma InputErrorsAreCommandLineOrPath(arguments: seq<string>, cwd: Path, fs: Snapshot)
    ensures var r := InputFactory.PathOrDirectoryOrGlobOrExtension(arguments, cwd, fs);
            r.Err? ==> r.error.CommandLineError? || r.error.InvalidPathArgument?
  {
    var paths := InputFactory.PathsFromArguments(arguments, cwd);
    if paths.Ok? {
      CheckPathsErrors(paths.value, fs);
    }
  }

  lemma {:induction false} CheckPathsErrors(paths: seq<Path>, fs: Snapshot)
    ensures var r := UseListFilesForManager.CheckPaths(paths, fs);
            r.Err? ==> r.error.InvalidPathArgument?
  {
    if |paths| > 0 {
      CheckPathsErrors(paths[1..], fs);
    }
  }

  /**
   * -o and -oo together are refused without touching the disk; -oo never
   * changes the disk and selects only an output directory; without either
   * option the default manager is used; only -o creates directories.
   */
  lemma OutputSelection(line: CommandLine, fs: Snapshot, cwd: Path)
    requires HasRequiredArgument(line, OutputOption) && HasRequiredArgument(line, OmitIdentifierOption)
    ensures var o := OutputDecision(line, fs, cwd);
            && (OutputOption in line && OmitIdentifierOption in line ==>
                  o == OutputFactory.Outcome(Err(ExperimentExecution(BothOutputOptionsMessage)), fs))
            && (OutputOption !in line && OmitIdentifierOption !in line ==>
                  o == OutputFactory.Outcome(Ok(UseDefaultManager), fs))
            && (OmitIdentifierOption in line ==> o.disk == fs)
            && (OmitIdentifierOption in line && o.result.Ok? ==> o.result.value.UseDirectoryForManager?)
            && (o.disk != fs ==> OutputOption in line && OmitIdentifierOption !in line)
            && (o.result.Ok? && IsDefault(o.result.value) <==> OutputOption !in line && OmitIdentifierOption !in line)
  {
    if OmitIdentifierOption in line && OutputOption !in line {
      OutputFactory.OutputDecisionSound(line[OmitIdentifierOption], true, fs, cwd);
    } else if OutputOption in line && OmitIdentifierOption !in line {
      OutputFactory.OutputDecisionSound(line[OutputOption], false, fs, cwd);
    }
  }

  /** The task selection is the default exactly when the option is absent. */
  lemma TaskSelection(line: CommandLine, optionName: string, tasksDirectory: Path, fs: Snapshot, cwd: Path)
    ensures var r := PathOrTaskNameOrDefault(line, optionName, tasksDirectory, fs, cwd);
            && (r.Ok? && IsDefault(r.value) <==> optionName !in line)
            && (optionName in line && line[optionName] == [] ==>
                  r == Err(CommandLineError(TaskFactory.MissingTaskMessage)))
  {
  }
}
