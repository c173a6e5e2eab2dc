/**
 * The mutable arguments of one run that the selections and the option
 * processors fill in: the input arguments (with their context parameters)
 * and the output arguments.
 */
module ExecutionArguments {
  import opened Base
  import opened Paths
  import opened AdditionalOutputsParser

  /** At most this many inputs, or this fraction of them. */
  datatype Limit = FixedLimit(count: int) | RatioLimit(ratio: real)

  /** A sub-range of the identifier's elements, negative indices counting from the end. */
  datatype IndexRange = IndexRange(start: int, end: int)

  datatype ImageFileFormat = ImageFileFormat(identifier: string)

  /** Additional outputs switched on: all of them, or those named. */
  datatype EnabledOutputs = Permissive | Named(names: OutputNames)

  datatype InputState = InputState(
    copyNonInputs: bool,
    relativeForIdentifier: bool,
    shuffle: bool,
    inputDirectory: Option<Path>,
    filterGlob: Option<string>,
    filterExtensions: Option<set<string>>,
    paths: Option<seq<Path>>,
    limit: Option<Limit>,
    identifierSubrange: Option<IndexRange>)

  const InitialInput := InputState(false, false, false, None, None, None, None, None, None)

  datatype OutputState = OutputState(
    outputDirectory: Option<Path>,
    enabledOutputs: Option<EnabledOutputs>,
    disabledOutputs: Option<OutputNames>,
    suggestedImageFormat: Option<ImageFileFormat>,
    incrementingNumberSequence: bool,
    suppressDirectories: bool,
    omitExperimentIdentifier: Option<string>)

  const InitialOutput := OutputState(None, None, None, None, false, false, None)

  /** InputArguments together with its InputContextParameters. */
  class InputArguments {
    var copyNonInputs: bool
    var relativeForIdentifier: bool
    var shuffle: bool
    var inputDirectory: Option<Path>
    var filterGlob: Option<string>
    var filterExtensions: Option<set<string>>
    var paths: Option<seq<Path>>
    var limit: Option<Limit>
    var identifierSubrange: Option<IndexRange>

    function State(): InputState
      reads this
    {
      InputState(copyNonInputs, relativeForIdentifier, shuffle, inputDirectory, filterGlob,
                 filterExtensions, paths, limit, identifierSubrange)
    }

    constructor ()
      ensures State() == InitialInput
    {
      copyNonInputs, relativeForIdentifier, shuffle := false, false, false;
      inputDirectory, filterGlob, filterExtensions, paths := None, None, None, None;
      limit, identifierSubrange := None, None;
    }
  }

  /** OutputArguments together with its OutputEnabledDelta and prefixer settings. */
  class OutputArguments {
    var outputDirectory: Option<Path>
    var enabledOutputs: Option<EnabledOutputs>
    var disabledOutputs: Option<OutputNames>
    var suggestedImageFormat: Option<ImageFileFormat>
    var incrementingNumberSequence: bool
    var suppressDirectories: bool
    var omitExperimentIdentifier: Option<string>

    function State(): OutputState
      reads this
    {
      OutputState(outputDirectory, enabledOutputs, disabledOutputs, suggestedImageFormat,
                  incrementingNumberSequence, suppressDirectories, omitExperimentIdentifier)
    }

    constructor ()
      ensures State() == InitialOutput
    {
      outputDirectory, enabledOutputs, disabledOutputs, suggestedImageFormat := None, None, None, None;
      incrementingNumberSequence, suppressDirectories, omitExperimentIdentifier := false, false, None;
    }
  }

  class ExecutionArguments {
    const input: InputArguments
    const output: OutputArguments

    constructor ()
      ensures fresh(input) && fresh(output)
      ensures input.State() == InitialInput && output.State() == InitialOutput
    {
      input := new InputArguments();
      output := new OutputArguments();
    }
  }
}
