/**
 * ExperimentFactory: chooses the experiment, either the path passed as the
 * single positional argument or the default experiment.
 */
module ExperimentFactory {
  import opened Base
  import opened Paths
  import opened PrettyPathConverter

  datatype ExperimentSelection =
    | UseExperimentPassedAsPath(path: Path)
    | UseDefaultExperiment(defaultExperiment: Path)

  function WildcardMessage(argument: string): string
  {
    "Error: Cannot accept a wildcard in path to experiment BeanXML: " + argument
  }

  function InvalidExperimentPathMessage(argument: string): string
  {
    "Error: The argument \"" + argument + "\" should be a path to experiment BeanXML, but is invalid."
  }

  const FolderMessage := "Please select a path to experiment FILE not a folder"

  /** extractPath: the argument as a path, kept relative when written relative. */
  function ExtractPath(argument: string): (r: Result<Path>)
    ensures r.Ok? <==> '*' !in argument && ValidPathString(argument)
    ensures r.Ok? ==> r.value == Parse(argument)
    ensures '*' in argument ==> r == Err(ExperimentExecution(WildcardMessage(argument)))
    ensures '*' !in argument && !ValidPathString(argument) ==>
              r == Err(ExperimentExecution(InvalidExperimentPathMessage(argument)))
  {
    if '*' in argument then Err(ExperimentExecution(WildcardMessage(argument)))
    else if !ValidPathString(argument) then Err(ExperimentExecution(InvalidExperimentPathMessage(argument)))
    else Ok(Parse(argument))
  }

  /** defaultExperimentOrCustom: a single positional argument is the experiment; otherwise the default. */
  function DefaultExperimentOrCustom(positional: seq<string>, defaultExperiment: Path): Result<ExperimentSelection>
  {
    if |positional| == 1 then
      var path :- ExtractPath(positional[0]);
      Ok(UseExperimentPassedAsPath(path))
    else Ok(UseDefaultExperiment(defaultExperiment))
  }

  /** UseExperimentPassedAsPath.select: refuses a directory (a relative path is looked up from `cwd`). */
  function SelectPassedAsPath(path: Path, fs: Snapshot, cwd: Path): (r: Result<Path>)
    ensures r.Ok? <==> !IsDirectory(fs, ToAbsolute(path, cwd))
    ensures r.Ok? ==> r.value == path
    ensures r.Err? ==> r.error == ExperimentExecution(FolderMessage)
  {
    if IsDirectory(fs, ToAbsolute(path, cwd)) then Err(ExperimentExecution(FolderMessage)) else Ok(path)
  }

  function IsDefault(s: ExperimentSelection): bool
  {
    s.UseDefaultExperiment?
  }

  /** UseExperimentPassedAsPath.describe. */
  function DescribePassedAsPath(path: Path, cwd: Path): string
  {
    "experiment " + PrettyPathFromWorkingDirectory(path, cwd)
  }

  // ---------------------------------------------------------------------
  // Properties
  // ---------------------------------------------------------------------

  /**
   * The default experiment is used exactly when there is not a single
   * positional argument, and then it is never refused; a single argument is
   * used as written (relative or absolute) unless it holds a wildcard or is
   * not a valid path.
   */
  lemma ExperimentChoice(positional: seq<string>, defaultExperiment: Path)
    ensures var r := DefaultExperimentOrCustom(positional, defaultExperiment);
            && (|positional| != 1 <==> r == Ok(UseDefaultExperiment(defaultExperiment)))
            && (|positional| == 1 ==>
                  (r.Ok? <==> '*' !in positional[0] && ValidPathString(positional[0]))
                  && (r.Ok? ==> r.value == UseExperimentPassedAsPath(Parse(positional[0]))
                                && (IsAbsolute(r.value.path) <==> |positional[0]| > 0 && positional[0][0] == '/'))
                  && (r.Err? ==> r.error.ExperimentExecution?))
  {
  }

  /** Selecting a passed path returns that path when it is not a directory, and is never the default. */
  lemma PassedPathSelected(positional: seq<string>, defaultExperiment: Path, fs: Snapshot, cwd: Path)
    requires |positional| == 1 && '*' !in positional[0] && ValidPathString(positional[0])
    ensures var s := DefaultExperimentOrCustom(positional, defaultExperiment).value;
            var r := SelectPassedAsPath(s.path, fs, cwd);
            !IsDefault(s) && s.UseExperimentPassedAsPath?
            && (r.Ok? <==> !IsDirectory(fs, ToAbsolute(Parse(positional[0]), cwd)))
            && (r.Ok? ==> r.value == Parse(positional[0]))
  {
  }
}
