/**
 * TaskFactory: turns the argument of -t into a selection. A plain task name
 * names a BeanXML file in the tasks directory; anything else is a path to
 * BeanXML.
 */
module TaskFactory {
  import opened Base
  import opened Paths
  import opened ExecutionArguments
  import opened SelectParam

  const MissingTaskMessage := "An argument (a task-name) must be specified after -t"
  const MoreThanOneTaskMessage := "Only one instance of the -t option is permitted."
  /** The class name that Throwable.toString places before the message. */
  const InvalidPathExceptionName :=
    "org.anchoranalysis.launcher.executor.selectparam.path.convert.InvalidPathArgumentException"

  function UnknownTaskMessage(taskName: string): string
  {
    "The task '" + taskName + "' is not known."
  }

  predicate TaskNameChar(c: char)
  {
    ('a' <= c <= 'z') || ('A' <= c <= 'Z') || ('0' <= c <= '9') || c == '_' || c == '-' || c == '/'
  }

  /** isTaskName: one or more letters, digits, '_', '-' or '/'. */
  predicate IsTaskName(argument: string)
  {
    |argument| > 0 && forall i :: 0 <= i < |argument| ==> TaskNameChar(argument[i])
  }

  /** pathForTaskName: the name with the BeanXML extension, resolved against the tasks directory. */
  function PathForTaskName(taskName: string, tasksDirectory: Path): Path
  {
    Resolve(tasksDirectory, taskName + ".xml")
  }

  /** pathOrTaskName; `arguments` is None when -t was given no value. */
  function PathOrTaskName(arguments: Option<seq<string>>, tasksDirectory: Path, fs: Snapshot, cwd: Path)
    : Result<Selection>
  {
    if arguments.None? then Err(CommandLineError(MissingTaskMessage))
    else if |arguments.value| != 1 then Err(CommandLineError(MoreThanOneTaskMessage))
    else
      var taskArgument := arguments.value[0];
      if IsTaskName(taskArgument) then
        var path := PathForTaskName(taskArgument, tasksDirectory);
        if Exists(fs, ToAbsolute(path, cwd)) then Ok(UpdateTaskName(UseAsCustomManager(path), taskArgument))
        else Err(CommandLineError(UnknownTaskMessage(taskArgument)))
      else
        match PathFromArgument(taskArgument, cwd)
        case Ok(path) => Ok(UseAsCustomManager(path))
        case Err(e) => Err(CommandLineError(InvalidPathExceptionName + ": " + e.message))
  }

  // ---------------------------------------------------------------------
  // Properties
  // ---------------------------------------------------------------------

  /**
   * A task is selected exactly when the single argument is a task name whose
   * BeanXML file exists (a relative tasks directory is looked up from the
   * working directory); the selection then carries the name, and a custom
   * manager for that file.
   */
  lemma TaskNameSelected(arguments: Option<seq<string>>, tasksDirectory: Path, fs: Snapshot, cwd: Path)
    ensures var r := PathOrTaskName(arguments, tasksDirectory, fs, cwd);
            (r.Ok? && r.value.UpdateTaskName?) <==>
              (arguments.Some? && |arguments.value| == 1 && IsTaskName(arguments.value[0])
               && Exists(fs, ToAbsolute(PathForTaskName(arguments.value[0], tasksDirectory), cwd)))
    ensures var r := PathOrTaskName(arguments, tasksDirectory, fs, cwd);
            r.Ok? && r.value.UpdateTaskName? ==>
              r.value == UpdateTaskName(UseAsCustomManager(PathForTaskName(arguments.value[0], tasksDirectory)),
                                        arguments.value[0])
  {
  }

  /** A task name whose BeanXML file does not exist is refused by name. */
  lemma UnknownTaskRefused(taskName: string, tasksDirectory: Path, fs: Snapshot, cwd: Path)
    requires IsTaskName(taskName) && !Exists(fs, ToAbsolute(PathForTaskName(taskName, tasksDirectory), cwd))
    ensures PathOrTaskName(Some([taskName]), tasksDirectory, fs, cwd)
            == Err(CommandLineError("The task '" + taskName + "' is not known."))
  {
  }

  /** Anything that is not a task name is taken as a path to BeanXML, and refused only when invalid. */
  lemma OtherArgumentIsPath(argument: string, tasksDirectory: Path, fs: Snapshot, cwd: Path)
    requires !IsTaskName(argument)
    ensures var r := PathOrTaskName(Some([argument]), tasksDirectory, fs, cwd);
            (r.Ok? <==> ValidPathString(argument))
            && (r.Ok? ==> r.value == UseAsCustomManager(ToAbsolute(Parse(argument), cwd)))
            && (r.Err? ==> r.error == CommandLineError(InvalidPathExceptionName + ": " + InvalidPathMessage(argument)))
  {
  }

  /** Whatever -t selects, select returns the path of a BeanXML file and changes no argument. */
  lemma TaskSelectionReturnsPath(arguments: Option<seq<string>>, tasksDirectory: Path, fs: Snapshot, cwd: Path,
                                 input: InputState, output: OutputState,
                                 extractGlob: string -> GlobWithDirectory)
    requires PathOrTaskName(arguments, tasksDirectory, fs, cwd).Ok?
    ensures var s := PathOrTaskName(arguments, tasksDirectory, fs, cwd).value;
            var e := SelectEffect(s, input, output, extractGlob);
            Underlying(s).UseAsCustomManager? && e.selected == Some(Underlying(s).path)
            && e.input == input && e.output == output
  {
  }

  /** A task name that does not start with '/' names a file inside the tasks directory. */
  lemma TaskInsideTasksDirectory(taskName: string, tasksDirectory: Path)
    requires IsTaskName(taskName) && taskName[0] != '/'
    ensures var p := PathForTaskName(taskName, tasksDirectory);
            p.root == tasksDirectory.root && |p.names| >= |tasksDirectory.names|
            && p.names[..|tasksDirectory.names|] == tasksDirectory.names
  {
    assert (taskName + ".xml")[0] == taskName[0];
  }
}
