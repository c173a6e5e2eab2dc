/**
 * AddOutputOptions: the command-line options that adjust the outputs (-oa,
 * -oe, -od, -of, -on, -os, -oo), applied in order to the output arguments. A
 * failing option stops the processing; what earlier options changed stays
 * changed.
 */
module AddOutputOptions {
  import opened Base
  import opened CommandLineExtracter
  import opened AdditionalOutputsParser
  import opened ExecutionArguments

  const EnableAllOption := "oa"
  const EnableAdditionalOption := "oe"
  const DisableAdditionalOption := "od"
  const ImageFileFormatOption := "of"
  const IncrementingNumberOption := "on"
  const SuppressDirectoriesOption := "os"
  const OmitExperimentIdentifierOption := "oo"

  function UnsupportedFormatMessage(identifier: string): string
  {
    "No file format identified by " + identifier + " is supported."
  }

  /** How processing ended, and the output arguments as it left them. */
  datatype Applied = Applied(outcome: Result<()>, state: OutputState)

  /** ifAdditionalOptionsPresent: the parsed names, None when the option is absent. */
  function AdditionalOutputs(line: CommandLine, option: string): Option<Result<OutputNames>>
  {
    match IfPresentMultiple(line, option)
    case None => None
    case Some(outputs) => Some(AddArguments(NoOutputs, outputs, option))
  }

  /** -oa enables every additional output; only without it is -oe read. */
  function EnableStep(line: CommandLine, s: OutputState): Applied
  {
    if HasOption(line, EnableAllOption) then Applied(Ok(()), s.(enabledOutputs := Some(Permissive)))
    else
      match AdditionalOutputs(line, EnableAdditionalOption)
      case None => Applied(Ok(()), s)
      case Some(Ok(names)) => Applied(Ok(()), s.(enabledOutputs := Some(Named(names))))
      case Some(Err(e)) => Applied(Err(e), s)
  }

  /** -od names the additional outputs to disable. */
  function DisableStep(line: CommandLine, s: OutputState): Applied
  {
    match AdditionalOutputs(line, DisableAdditionalOption)
    case None => Applied(Ok(()), s)
    case Some(Ok(names)) => Applied(Ok(()), s.(disabledOutputs := Some(names)))
    case Some(Err(e)) => Applied(Err(e), s)
  }

  /**
   * ifOutputFormatPresent; `createImageFormat` is FileFormatFactory.createImageFormat,
   * None for an identifier it does not know.
   */
  function FormatStep(line: CommandLine, s: OutputState,
                      createImageFormat: string -> Option<ImageFileFormat>): Applied
  {
    match IfPresentSingle(line, ImageFileFormatOption)
    case Err(e) => Applied(Err(e), s)
    case Ok(None) => Applied(Ok(()), s)
    case Ok(Some(identifier)) =>
      match createImageFormat(identifier)
      case Some(format) => Applied(Ok(()), s.(suggestedImageFormat := Some(format)))
      case None => Applied(Err(ExperimentExecution(UnsupportedFormatMessage(identifier))), s)
  }

  /** -on and -os, each switched on by the presence of its option. */
  function WithFlags(line: CommandLine, s: OutputState): OutputState
  {
    s.(incrementingNumberSequence := s.incrementingNumberSequence || HasOption(line, IncrementingNumberOption),
       suppressDirectories := s.suppressDirectories || HasOption(line, SuppressDirectoriesOption))
  }

  /** -oo, given once, asks for the experiment identifier to be omitted. */
  function OmitStep(line: CommandLine, s: OutputState): Applied
  {
    match IfPresentSingle(line, OmitExperimentIdentifierOption)
    case Err(e) => Applied(Err(e), s)
    case Ok(None) => Applied(Ok(()), s)
    case Ok(Some(value)) => Applied(Ok(()), s.(omitExperimentIdentifier := Some(value)))
  }

  /** addOptionsFromCommandLine: the options in order, stopping at the first failure. */
  function ApplyOutputOptions(line: CommandLine, s: OutputState,
                              createImageFormat: string -> Option<ImageFileFormat>): Applied
  {
    var enabled := EnableStep(line, s);
    if enabled.outcome.Err? then enabled
    else
      var disabled := DisableStep(line, enabled.state);
      if disabled.outcome.Err? then disabled
      else
        var formatted := FormatStep(line, disabled.state, createImageFormat);
        if formatted.outcome.Err? then formatted
        else OmitStep(line, WithFlags(line, formatted.state))
  }

  // ---------------------------------------------------------------------
  // The processor on the output arguments
  // ---------------------------------------------------------------------

  method EnableOn(line: CommandLine, arguments: OutputArguments) returns (r: Result<()>)
    modifies arguments
    ensures Applied(r, arguments.State()) == EnableStep(line, old(arguments.State()))
  {
    if HasOption(line, EnableAllOption) {
      arguments.enabledOutputs := Some(Permissive);
      return Ok(());
    }
    var enable := IfPresentMultiple(line, EnableAdditionalOption);
    if enable.Some? {
      var names := ParseFrom(enable.value, EnableAdditionalOption);
      if names.Err? {
        return Err(names.error);
      }
      arguments.enabledOutputs := Some(Named(names.value));
    }
    r := Ok(());
  }

  method DisableOn(line: CommandLine, arguments: OutputArguments) returns (r: Result<()>)
    modifies arguments
    ensures Applied(r, arguments.State()) == DisableStep(line, old(arguments.State()))
  {
    var disable := IfPresentMultiple(line, DisableAdditionalOption);
    if disable.Some? {
      var names := ParseFrom(disable.value, DisableAdditionalOption);
      if names.Err? {
        return Err(names.error);
      }
      arguments.disabledOutputs := Some(names.value);
    }
    r := Ok(());
  }

  method FormatOn(line: CommandLine, arguments: OutputArguments,
                  createImageFormat: string -> Option<ImageFileFormat>) returns (r: Result<()>)
    modifies arguments
    ensures Applied(r, arguments.State()) == FormatStep(line, old(arguments.State()), createImageFormat)
  {
    var identifier := IfPresentSingle(line, ImageFileFormatOption);
    if identifier.Err? {
      return Err(identifier.error);
    }
    if identifier.value.Some? {
      var format := createImageFormat(identifier.value.value);
      if format.None? {
        return Err(ExperimentExecution(UnsupportedFormatMessage(identifier.value.value)));
      }
      arguments.suggestedImageFormat := Some(format.value);
    }
    r := Ok(());
  }

  /** addFrom: applies the output options to `arguments`. */
  method AddFrom(line: CommandLine, arguments: OutputArguments,
                 createImageFormat: string -> Option<ImageFileFormat>) returns (r: Result<()>)
    modifies arguments
    ensures Applied(r, arguments.State()) == ApplyOutputOptions(line, old(arguments.State()), createImageFormat)
  {
    r := EnableOn(line, arguments);
    if r.Err? {
      return;
    }
    r := DisableOn(line, arguments);
    if r.Err? {
      return;
    }
    r := FormatOn(line, arguments, createImageFormat);
    if r.Err? {
      return;
    }
    if HasOption(line, IncrementingNumberOption) {
      arguments.incrementingNumberSequence := true;
    }
    if HasOption(line, SuppressDirectoriesOption) {
      arguments.suppressDirectories := true;
    }
    var omit := IfPresentSingle(line, OmitExperimentIdentifierOption);
    if omit.Err? {
      return Err(omit.error);
    }
    if omit.value.Some? {
      arguments.omitExperimentIdentifier := Some(omit.value.value);
    }
    r := Ok(());
  }

  // ---------------------------------------------------------------------
  // Properties
  // ---------------------------------------------------------------------

  /**
   * With -oa every additional output is enabled, and -oe is then not read at
   * all: the outcome is the same as with -oe removed from the command line.
   */
  lemma EnableAllTakesPrecedence(line: CommandLine, s: OutputState,
                                 createImageFormat: string -> Option<ImageFileFormat>)
    requires EnableAllOption in line
    ensures var a := ApplyOutputOptions(line, s, createImageFormat);
            && a.state.enabledOutputs == Some(Permissive)
            && a == ApplyOutputOptions(line - {EnableAdditionalOption}, s, createImageFormat)
  {
    var other := line - {EnableAdditionalOption};
    assert AdditionalOutputs(line, DisableAdditionalOption) == AdditionalOutputs(other, DisableAdditionalOption);
    assert IfPresentSingle(line, ImageFileFormatOption) == IfPresentSingle(other, ImageFileFormatOption);
    assert IfPresentSingle(line, OmitExperimentIdentifierOption) ==
           IfPresentSingle(other, OmitExperimentIdentifierOption);
  }

  /**
   * Without -oa, -oe enables exactly the outputs its arguments name, or
   * stops the processing with the parser's error; an -oe without a value is
   * refused as a missing argument.
   */
  lemma EnabledOutputsNamed(line: CommandLine, s: OutputState,
                            createImageFormat: string -> Option<ImageFileFormat>)
    requires EnableAllOption !in line && EnableAdditionalOption in line
    ensures var a := ApplyOutputOptions(line, s, createImageFormat);
            var arguments := if line[EnableAdditionalOption] == [] then [""] else line[EnableAdditionalOption];
            var parsed := AddArguments(NoOutputs, arguments, EnableAdditionalOption);
            && (parsed.Ok? ==> a.state.enabledOutputs == Some(Named(parsed.value)))
            && (parsed.Err? ==> a == Applied(Err(parsed.error), s))
            && (line[EnableAdditionalOption] == [] ==>
                  a == Applied(Err(MissingArgument(EnableAdditionalOption)), s))
  {
  }

  /** An image format is suggested exactly when -of is given once with an identifier the factory knows. */
  lemma FormatSelected(line: CommandLine, s: OutputState, createImageFormat: string -> Option<ImageFileFormat>)
    requires ImageFileFormatOption in line && |line[ImageFileFormatOption]| == 1
    requires EnableStep(line, s).outcome.Ok? && DisableStep(line, EnableStep(line, s).state).outcome.Ok?
    ensures var a := ApplyOutputOptions(line, s, createImageFormat);
            var identifier := line[ImageFileFormatOption][0];
            && (createImageFormat(identifier).None? ==>
                  a.outcome == Err(ExperimentExecution(UnsupportedFormatMessage(identifier))))
            && (createImageFormat(identifier).Some? ==> a.state.suggestedImageFormat == createImageFormat(identifier))
  {
  }

  /**
   * The output directory is never touched; the flags are switched on by
   * their options only once every earlier option succeeded; every failure is
   * an ExperimentExecutionException.
   */
  lemma ApplyFrame(line: CommandLine, s: OutputState, createImageFormat: string -> Option<ImageFileFormat>)
    ensures var a := ApplyOutputOptions(line, s, createImageFormat);
            && a.state.outputDirectory == s.outputDirectory
            && (s.incrementingNumberSequence ==> a.state.incrementingNumberSequence)
            && (s.suppressDirectories ==> a.state.suppressDirectories)
            && (a.outcome.Ok? ==>
                  a.state.incrementingNumberSequence == (s.incrementingNumberSequence || IncrementingNumberOption in line)
                  && a.state.suppressDirectories == (s.suppressDirectories || SuppressDirectoriesOption in line))
            && (a.outcome.Err? ==> a.outcome.error.ExperimentExecution?)
  {
    AdditionalOutputsErrors(line, EnableAdditionalOption);
    AdditionalOutputsErrors(line, DisableAdditionalOption);
    var s1 := EnableStep(line, s);
    assert s1.state == s.(enabledOutputs := s1.state.enabledOutputs);
    var s2 := DisableStep(line, s1.state);
    assert s2.state == s1.state.(disabledOutputs := s2.state.disabledOutputs);
    var s3 := FormatStep(line, s2.state, createImageFormat);
    assert s3.state == s2.state.(suggestedImageFormat := s3.state.suggestedImageFormat);
    var s4 := OmitStep(line, WithFlags(line, s3.state));
    assert s4.state == WithFlags(line, s3.state).(omitExperimentIdentifier := s4.state.omitExperimentIdentifier);
  }

  lemma AdditionalOutputsErrors(line: CommandLine, option: string)
    ensures var r := AdditionalOutputs(line, option);
            r.Some? && r.value.Err? ==> r.value.error.ExperimentExecution?
  {
    var outputs := IfPresentMultiple(line, option);
    if outputs.Some? {
      AddArgumentsErrors(NoOutputs, outputs.value, option);
    }
  }

  /** Applying the same options a second time changes nothing more, whether or not the first application failed. */
  lemma ApplyIdempotent(line: CommandLine, s: OutputState, createImageFormat: string -> Option<ImageFileFormat>)
    ensures var a := ApplyOutputOptions(line, s, createImageFormat);
            ApplyOutputOptions(line, a.state, createImageFormat) == a
  {
    var a := ApplyOutputOptions(line, s, createImageFormat);
    var s1 := EnableStep(line, s);
    if s1.outcome.Err? {
      assert a == s1;
      return;
    }
    assert EnableStep(line, a.state) == Applied(Ok(()), a.state);
    var s2 := DisableStep(line, s1.state);
    if s2.outcome.Err? {
      assert a == s2;
      return;
    }
    assert DisableStep(line, a.state) == Applied(Ok(()), a.state);
    var s3 := FormatStep(line, s2.state, createImageFormat);
    if s3.outcome.Err? {
      assert a == s3;
      return;
    }
    assert FormatStep(line, a.state, createImageFormat) == Applied(Ok(()), a.state);
    assert WithFlags(line, a.state) == a.state;
    assert a == OmitStep(line, WithFlags(line, s3.state));
  }
}
