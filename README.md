# anchor-launcher argument resolution, in Dafny

This project models the argument-resolution layer of the Anchor launcher
(`anchor-launcher`). It covers how the launcher turns the raw strings of its
command line into typed selections and applies them to the arguments of an
experiment run:

- **Classifiers.** The input classifier tries, in order, a wildcard glob, a
  BeanXML custom manager, a set of file extensions, an existing directory,
  and finally an explicit list of files. The output classifier separates
  normal mode from write-into-root mode and creates missing directories.
  The task classifier separates a symbolic task name from a literal path.
  The experiment classifier separates a positional path from the default
  experiment.
- **Selections** (`SelectParam`): glob, extensions, custom manager,
  directory, file list, experiment passed as a path, and the defaults. Each
  has `select` (what it writes into the input and output arguments, and the
  path it returns), `isDefault` and `describe`.
- **Pretty paths**: a path is shown relative to the working directory
  unless that would climb more than three `..` levels.
- **Command-line extraction and the option processors**: `-ii`, `-il`,
  `-ir`, `-ic`, `-ip`, `-is`, and `-oa`, `-oe`, `-od`, `-of`, `-on`, `-os`,
  `-oo`, together with the parser of additional output names (`name` or
  `first:second`).
- **Predefined tasks**: task names derived from the BeanXML files under the
  tasks directory, their index by subdirectory, and the listing printed
  from that index.

Modelling choices:

- Paths follow Unix rules. A `Path` is a root (`""` for relative, `"/"`
  for absolute) plus its sequence of names.
- The filesystem is a snapshot: a map from normalised absolute paths to
  their kind (regular file or directory).
- Only the output classifier changes the filesystem, through a
  `FileSystem` object whose `mkdirs` adds the missing directories.
- The command line is a map from an option name to its values. An option
  present without a value maps to the empty sequence.
- The execution arguments are classes whose fields the selections and
  option processors assign: `InputArguments`, `OutputArguments`,
  `ExecutionArguments`.
- Every operation that changes them is a method. Its contract ties the new
  state to a specification function of the old state. The properties are
  proved as lemmas about those functions.
- Failures are values of `Result`: a command-line error, an invalid path
  argument, or an experiment-execution error, each with its message.
- Code outside this layer is passed in as a function parameter:
  - the glob extractor;
  - the image file-format factory;
  - the parser of identifier sub-ranges.
- Printing is modelled as the sequence of printed lines.

Two modelling points worth stating:

- The `-il` argument is first tried as a 32-bit `Integer.parseInt`. Only
  when that fails is it read as a ratio, so a whole number beyond the
  32-bit range ends up refused by the ratio check.
- The flags `-ic`, `-ip`, `-is`, `-on` and `-os` take effect on the mere
  presence of their option.

## Model

| member | source | states |
|---|---|---|
| CommandLineExtracter.SingleMeaning | anchor-launcher/src/main/java/org/anchoranalysis/launcher/options/CommandLineExtracter.java:85-89 | the consumer is skipped exactly when the option is absent; it fails exactly when the option carries more than one value, with "The option -X may only be used once!"; otherwise it receives the one value, or "" when there is none |
| CommandLineExtracter.MultipleMeaning | anchor-launcher/src/main/java/org/anchoranalysis/launcher/options/CommandLineExtracter.java:102-106 | the consumer runs exactly when the option is present, with all its values, or with the single empty string when it has none |
| CommandLineExtracter.SingleAgreesWithMultiple | anchor-launcher/src/main/java/org/anchoranalysis/launcher/options/CommandLineExtracter.java:117-156 | where single accepts an option, multiple yields exactly that one value |
| CommandLineExtracter.WithoutArgumentMeansEmpty | anchor-launcher/src/main/java/org/anchoranalysis/launcher/options/CommandLineExtracter.java:65-72 | present without an argument iff present and the first value is missing or empty; then ifPresentSingle passes "" |
| CommandLineExtracter.OptionValues | anchor-launcher/src/main/java/org/anchoranalysis/launcher/options/CommandLineExtracter.java:120-121 | a non-null value array is never empty (a present option without values gives null) |
| Paths.PathFromArgument | anchor-launcher/src/main/java/org/anchoranalysis/launcher/executor/selectparam/path/convert/ArgumentConverter.java:46-52 | succeeds iff the argument is a valid path string; the result is absolute for an absolute working directory; otherwise an InvalidPathArgument error naming the argument |
| Paths.NormalizeIsNormal | anchor-launcher/src/main/java/org/anchoranalysis/launcher/executor/selectparam/path/convert/PrettyPathConverter.java:109-111 | normalising yields a normal path (no ".", no empty name, ".." only leading and only when relative) of the same root |
| Paths.NormalizeIdempotent | anchor-launcher/src/main/java/org/anchoranalysis/launcher/executor/selectparam/path/convert/PrettyPathConverter.java:109-111 | normalising twice is normalising once |
| Paths.RelativizeShape | anchor-launcher/src/main/java/org/anchoranalysis/launcher/executor/selectparam/path/convert/PrettyPathConverter.java:87 | the relativised path is a run of ".." (one per base name past the common prefix) then the rest of the target, and is normal |
| Paths.ResolveRelativize | anchor-launcher/src/main/java/org/anchoranalysis/launcher/executor/selectparam/path/convert/PrettyPathConverter.java:87 | resolving the relativised path against the base gives the normalised target back |
| Paths.FileSystem.MakeDirectories | anchor-launcher/src/main/java/org/anchoranalysis/launcher/executor/selectparam/path/OutputFactory.java:118 | the new disk state is mkdirs applied to the old one |
| Paths.MkdirsMakesDirectory | anchor-launcher/src/main/java/org/anchoranalysis/launcher/executor/selectparam/path/OutputFactory.java:115-127 | after mkdirs on a missing path with no file in the way the path is a directory; with a file in the way nothing changes |
| ExtensionHelper.FileExtensionShape | anchor-launcher/src/main/java/org/anchoranalysis/launcher/executor/selectparam/path/ExtensionHelper.java:40-56 | an argument is a file extension iff it has at least two characters, starts with '.', is not "..", and holds no '/' or '\\' |
| UseAsExtension.SplitAndNormalize | anchor-launcher/src/main/java/org/anchoranalysis/launcher/executor/selectparam/path/UseAsExtension.java:83-96 | the loop builds exactly the set ExtensionsOf(arguments) |
| UseAsExtension.ExtensionsMembership | anchor-launcher/src/main/java/org/anchoranalysis/launcher/executor/selectparam/path/UseAsExtension.java:83-96 | an extension is in the set iff some comma-separated piece of some argument, trimmed, without its leading period and lower-cased, equals it |
| UseAsExtension.CaseAndPeriodInsensitive | anchor-launcher/src/main/java/org/anchoranalysis/launcher/executor/selectparam/path/UseAsExtension.java:87-89 | ".PNG" and "png" name the same extension, "png" |
| UseListFilesForManager.CheckNoDirectories | anchor-launcher/src/main/java/org/anchoranalysis/launcher/executor/selectparam/path/UseListFilesForManager.java:85-98 | the loop's verdict is CheckPaths: the first missing path or directory is reported |
| UseListFilesForManager.CheckPathsMeaning | anchor-launcher/src/main/java/org/anchoranalysis/launcher/executor/selectparam/path/UseListFilesForManager.java:85-98 | accepted iff every path exists and is not a directory; otherwise the error names the first unacceptable path, "No input file exists" when missing and "is a directory" when a directory |
| SelectParam.Select | anchor-launcher/src/main/java/org/anchoranalysis/launcher/executor/selectparam/path/UseDirectoryForManager.java:73-83 | the new argument state and the returned path are those SelectEffect prescribes for the selection (the same method models each implementation's select) |
| SelectParam.SelectIsStable | anchor-launcher/src/main/java/org/anchoranalysis/launcher/executor/selectparam/SelectParam.java:35-46 | applying a selection twice changes nothing more and returns the same path |
| SelectParam.SelectFootprint | anchor-launcher/src/main/java/org/anchoranalysis/launcher/executor/selectparam/path/UseAsCustomManager.java:47-50 | a path is returned iff the underlying selection is a custom manager, and it is that manager's path; an output directory changes only the output arguments, every other selection only the input arguments |
| SelectParam.InputAndOutputCommute | anchor-launcher/src/main/java/org/anchoranalysis/launcher/executor/selectparam/SelectParam.java:35-46 | an input selection and an output-directory selection give the same arguments in either order |
| SelectParam.DescribedIffNotDefault | anchor-launcher/src/main/java/org/anchoranalysis/launcher/executor/selectparam/SelectParam.java:48-62 | a selection has a description iff it is not the default |
| SelectParam.GlobClearsExtensions | anchor-launcher/src/main/java/org/anchoranalysis/launcher/executor/selectparam/path/UseAsGlob.java:53-67 | a glob sets the filter glob to the extracted glob, clears the extension filter to the empty set, and returns no path |
| SelectParam.NewUseDirectoryForManager | anchor-launcher/src/main/java/org/anchoranalysis/launcher/executor/selectparam/path/UseDirectoryForManager.java:59-68 | construction succeeds iff no check is asked or the path is a directory; the error is a CommandLineError naming the path |
| SelectParam.NewUseListFilesMeaning | anchor-launcher/src/main/java/org/anchoranalysis/launcher/executor/selectparam/path/UseListFilesForManager.java:56-59 | construction succeeds iff every path exists and is not a directory, and then holds the paths in order |
| PrettyPathConverter.CountDoubleDotsInRelativePath | anchor-launcher/src/main/java/org/anchoranalysis/launcher/executor/selectparam/path/convert/PrettyPathConverter.java:119-130 | the count is the number of ".." names, at most the number of names |
| PrettyPathConverter.RelativeForm | anchor-launcher/src/main/java/org/anchoranalysis/launcher/executor/selectparam/path/convert/PrettyPathConverter.java:84-91 | for two absolute paths of the same root, the relative form has one ".." per working-directory name past the common prefix, is already normal, and resolves against the working directory to the path |
| PrettyPathConverter.PrettyPathIdentical | anchor-launcher/src/main/java/org/anchoranalysis/launcher/executor/selectparam/path/convert/PrettyPathConverter.java:78-82 | a path and a working directory that normalise alike are shown as "." |
| PrettyPathConverter.PrettyPathCases | anchor-launcher/src/main/java/org/anchoranalysis/launcher/executor/selectparam/path/convert/PrettyPathConverter.java:72-101 | different roots, or more than three "..", give the absolute normalised path; otherwise the "..'s" followed by the rest of the path |
| PrettyPathConverter.PrettyPathDescendant | anchor-launcher/src/main/java/org/anchoranalysis/launcher/executor/selectparam/path/convert/PrettyPathConverter.java:84-95 | a path below the working directory is shown as the names below it |
| PrettyPathConverter.PrettyPathAncestor | anchor-launcher/src/main/java/org/anchoranalysis/launcher/executor/selectparam/path/convert/PrettyPathConverter.java:84-95 | an ancestor at most three levels up is shown as that many ".." |
| PrettyPathConverter.BiggerAbsolute | anchor-launcher/src/test/java/org/anchoranalysis/launcher/executor/selectparam/path/convert/PrettyPathConverterTest.java:44-47 | /a/b/c/d/e/f seen from /a/b/c/d is "e/f" |
| PrettyPathConverter.SmallerAbsolute | anchor-launcher/src/test/java/org/anchoranalysis/launcher/executor/selectparam/path/convert/PrettyPathConverterTest.java:49-52 | /a/b/c/d seen from /a/b/c/d/e/f is "../.." |
| PrettyPathConverter.IdenticalRelative | anchor-launcher/src/test/java/org/anchoranalysis/launcher/executor/selectparam/path/convert/PrettyPathConverterTest.java:54-67 | any path seen from itself is "." |
| PrettyPathConverter.BiggerRelative | anchor-launcher/src/test/java/org/anchoranalysis/launcher/executor/selectparam/path/convert/PrettyPathConverterTest.java:59-62 | "../../../" seen from "../../" is "..", for a working directory at least three levels deep |
| InputFactory.Check | anchor-launcher/src/main/java/org/anchoranalysis/launcher/executor/selectparam/path/InputFactory.java:156-170 | fails exactly when the first condition holds and the second does not, with a CommandLineError carrying the message; otherwise yields whether the first condition held |
| InputFactory.PathsFromArguments | anchor-launcher/src/main/java/org/anchoranalysis/launcher/executor/selectparam/path/InputFactory.java:179-182 | succeeds iff every argument is a valid path, giving each argument made absolute, in order; otherwise reports the first invalid argument |
| InputFactory.SelectionStages | anchor-launcher/src/main/java/org/anchoranalysis/launcher/executor/selectparam/path/InputFactory.java:58-68 | a selection comes from the first of the wildcard, BeanXML and extension checks that selects something, or, when none does, is a directory or a list of files |
| InputFactory.WildcardCheckMeaning | anchor-launcher/src/main/java/org/anchoranalysis/launcher/executor/selectparam/path/InputFactory.java:78-85 | the wildcard check passes over the arguments only when none holds '*'; when it selects, the only argument is the glob and holds '*' |
| InputFactory.XmlCheckMeaning | anchor-launcher/src/main/java/org/anchoranalysis/launcher/executor/selectparam/path/InputFactory.java:112-119 | the BeanXML check passes iff no argument has the .xml extension; when it selects, the only argument has it and the manager's path is that argument made absolute; with a .xml argument among several it fails with the BeanXML message; with a single .xml argument it selects that argument made absolute, or reports it as an invalid path |
| InputFactory.ExtensionCheckMeaning | anchor-launcher/src/main/java/org/anchoranalysis/launcher/executor/selectparam/path/InputFactory.java:95-102 | when the extension check selects, there is an argument, all arguments are extensions and the selection holds their extension set |
| InputFactory.EarlyStagesSound | anchor-launcher/src/main/java/org/anchoranalysis/launcher/executor/selectparam/path/InputFactory.java:78-119 | what the first three checks select is never the default; a glob is the single argument with '*'; a custom manager is the single non-wildcard .xml argument made absolute; extensions come from wildcard-free, .xml-free arguments that are all extensions |
| InputFactory.LaterStagesNotEarly | anchor-launcher/src/main/java/org/anchoranalysis/launcher/executor/selectparam/path/InputFactory.java:58-68 | once the first three checks pass over the arguments, only a directory or a list of files can be selected |
| InputFactory.LateSelectionsSound | anchor-launcher/src/main/java/org/anchoranalysis/launcher/executor/selectparam/path/InputFactory.java:129-143 | a directory is the single argument, made absolute, that exists as a directory, used as input; a list of files holds each argument made absolute, in order, each an existing non-directory, and none of the arguments is a wildcard, .xml path or extension |
| InputFactory.InputSelectionSound | anchor-launcher/src/main/java/org/anchoranalysis/launcher/executor/selectparam/path/InputFactory.java:58-68 | every selection agrees with the arguments in the ways above, and the default manager is never chosen |
| InputFactory.SingleWildcardIsGlob | anchor-launcher/src/main/java/org/anchoranalysis/launcher/executor/selectparam/path/InputFactory.java:78-85 | a single argument holding '*' is always used as a glob |
| InputFactory.SeveralWithWildcardRefused | anchor-launcher/src/main/java/org/anchoranalysis/launcher/executor/selectparam/path/InputFactory.java:78-85 | a '*' among several arguments is refused with the wildcard message, whatever else is given |
| InputFactory.MixedExtensionsRefused | anchor-launcher/src/main/java/org/anchoranalysis/launcher/executor/selectparam/path/InputFactory.java:95-102 | without a wildcard or a .xml path, extensions mixed with other arguments are refused with the extension message |
| InputFactory.ExtensionsSelected | anchor-launcher/src/main/java/org/anchoranalysis/launcher/executor/selectparam/path/InputFactory.java:95-102 | without a wildcard or a .xml path, arguments that are all extensions select their extension set, whatever the disk holds |
| InputFactory.InvalidPathReported | anchor-launcher/src/main/java/org/anchoranalysis/launcher/executor/selectparam/path/InputFactory.java:179-182 | once the earlier forms are ruled out, an argument that is not a valid path gives an InvalidPathArgument error |
| InputFactory.XmlExtensionAloneIsCustomManager | anchor-launcher/src/main/java/org/anchoranalysis/launcher/executor/selectparam/path/InputFactory.java:58-68 | ".xml" is both an extension and a BeanXML path; the BeanXML check comes first, so it selects a custom manager |
| InputFactory.SingleXmlIsCustomManager | anchor-launcher/src/main/java/org/anchoranalysis/launcher/executor/selectparam/path/InputFactory.java:112-119 | a single non-wildcard .xml argument selects a custom manager on its absolute path, or is reported as an invalid path |
| InputFactory.SeveralWithXmlRefused | anchor-launcher/src/main/java/org/anchoranalysis/launcher/executor/selectparam/path/InputFactory.java:112-119 | without a wildcard, a .xml argument among several is refused with the BeanXML message |
| InputFactory.PlainPathsStages | anchor-launcher/src/main/java/org/anchoranalysis/launcher/executor/selectparam/path/InputFactory.java:58-68 | for valid arguments that are none of wildcard, .xml or extension, the paths step succeeds and the outcome is that of the directory check followed by the list of files |
| InputFactory.SingleDirectorySelected | anchor-launcher/src/main/java/org/anchoranalysis/launcher/executor/selectparam/path/InputFactory.java:129-143 | one such argument naming an existing directory selects it, made absolute, as the input directory |
| InputFactory.SeveralWithDirectoryRefused | anchor-launcher/src/main/java/org/anchoranalysis/launcher/executor/selectparam/path/InputFactory.java:129-143 | several such arguments, one an existing directory, are refused with the directory message |
| InputFactory.FileListSelected | anchor-launcher/src/main/java/org/anchoranalysis/launcher/executor/selectparam/path/InputFactory.java:58-68 | such arguments, none an existing directory, give the list of their absolute paths in order when all exist, and otherwise the error for the first missing one |
| OutputFactory.PathOrDirectory | anchor-launcher/src/main/java/org/anchoranalysis/launcher/executor/selectparam/path/OutputFactory.java:61-106 | the returned selection and the new disk are those Decide prescribes for the old disk; the outcome of Decide for each case is stated by the lemmas below |
| OutputFactory.OutputDecisionSound | anchor-launcher/src/main/java/org/anchoranalysis/launcher/executor/selectparam/path/OutputFactory.java:61-129 | a success selects the one valid argument made absolute: as BeanXML only for an existing non-directory without -oo; as an output directory otherwise, which is then a directory without -oo and did not exist with -oo; the disk changes only by mkdirs of a missing path with a trailing separator, never with -oo |
| OutputFactory.WriteIntoRootAcceptsNewDirectory | anchor-launcher/src/main/java/org/anchoranalysis/launcher/executor/selectparam/path/OutputFactory.java:109-119 | with -oo a valid path that does not exist is selected as the output directory and nothing is created |
| OutputFactory.TrailingSeparatorCreatesDirectory | anchor-launcher/src/main/java/org/anchoranalysis/launcher/executor/selectparam/path/OutputFactory.java:109-119 | without -oo a missing path with a trailing separator is created and selected when no file stands in the way |
| OutputFactory.BlockedDirectoryRefused | anchor-launcher/src/main/java/org/anchoranalysis/launcher/executor/selectparam/path/OutputFactory.java:115-119 | when a file stands in the way, nothing is created and the directory check refuses the path |
| OutputFactory.InvalidPathBecomesCommandLineError | anchor-launcher/src/main/java/org/anchoranalysis/launcher/executor/selectparam/path/OutputFactory.java:73-105 | an invalid path is reported as a CommandLineError with the same message, the disk unchanged |
| OutputFactory.SeveralArgumentsRefused | anchor-launcher/src/main/java/org/anchoranalysis/launcher/executor/selectparam/path/OutputFactory.java:64-69 | more than one argument is refused with the more-than-one message, the disk unchanged |
| OutputFactory.ExistingDirectorySelected | anchor-launcher/src/main/java/org/anchoranalysis/launcher/executor/selectparam/path/OutputFactory.java:76-87 | an existing directory is refused with -oo and otherwise selected as the output directory, the disk unchanged |
| OutputFactory.ExistingFileSelected | anchor-launcher/src/main/java/org/anchoranalysis/launcher/executor/selectparam/path/OutputFactory.java:88-99 | an existing non-directory is refused with -oo and otherwise selected as BeanXML for a custom manager, the disk unchanged |
| OutputFactory.MissingPlainPathRefused | anchor-launcher/src/main/java/org/anchoranalysis/launcher/executor/selectparam/path/OutputFactory.java:109-129 | without -oo, a missing path without a trailing separator is refused with a message naming the argument, the disk unchanged |
| TaskFactory.TaskNameSelected | anchor-launcher/src/main/java/org/anchoranalysis/launcher/executor/selectparam/path/TaskFactory.java:59-99 | a task is selected iff there is one argument, it is a task name and its BeanXML file exists; the selection carries the name and a custom manager for that file |
| TaskFactory.UnknownTaskRefused | anchor-launcher/src/main/java/org/anchoranalysis/launcher/executor/selectparam/path/TaskFactory.java:59-99 | a task name whose BeanXML file does not exist below the tasks directory is refused, naming the task |
| TaskFactory.OtherArgumentIsPath | anchor-launcher/src/main/java/org/anchoranalysis/launcher/executor/selectparam/path/TaskFactory.java:74-80 | an argument that is not a task name is a BeanXML path, refused only when invalid, with the exception's class name and message |
| TaskFactory.TaskSelectionReturnsPath | anchor-launcher/src/main/java/org/anchoranalysis/launcher/executor/selectparam/path/TaskFactory.java:71-80 | whatever -t selects, select returns the BeanXML path and changes no argument |
| TaskFactory.TaskInsideTasksDirectory | anchor-launcher/src/main/java/org/anchoranalysis/launcher/executor/selectparam/path/TaskFactory.java:108-123 | a task name that does not start with '/' names a file below the tasks directory |
| ExperimentFactory.ExtractPath | anchor-launcher/src/main/java/org/anchoranalysis/launcher/executor/selectparam/experiment/ExperimentFactory.java:82-99 | succeeds iff the argument holds no '*' and is a valid path, giving the path as written; otherwise the wildcard error or the invalid-path error |
| ExperimentFactory.ExperimentChoice | anchor-launcher/src/main/java/org/anchoranalysis/launcher/executor/selectparam/experiment/ExperimentFactory.java:54-73 | the default experiment is chosen exactly when there is not one positional argument, and then never refused; one argument is used as written, absolute iff it starts with '/', unless it holds '*' or is invalid |
| ExperimentFactory.SelectPassedAsPath | anchor-launcher/src/main/java/org/anchoranalysis/launcher/executor/selectparam/experiment/UseExperimentPassedAsPath.java:50-58 | the path is returned unchanged iff it is not a directory; otherwise "Please select a path to experiment FILE not a folder" |
| ExperimentFactory.PassedPathSelected | anchor-launcher/src/main/java/org/anchoranalysis/launcher/executor/selectparam/experiment/UseExperimentPassedAsPath.java:50-63 | a passed path is never the default and is returned exactly when it is not a directory |
| SelectParamFactory.ToCommandLineError | anchor-launcher/src/main/java/org/anchoranalysis/launcher/executor/selectparam/SelectParamFactory.java:96-98 | an invalid-path exception becomes a command-line error with the same message |
| SelectParamFactory.InputSelection | anchor-launcher/src/main/java/org/anchoranalysis/launcher/executor/selectparam/SelectParamFactory.java:90-99 | the input selection is the default exactly when -i is absent; every failure is a command-line error |
| SelectParamFactory.InputErrorsAreCommandLineOrPath | anchor-launcher/src/main/java/org/anchoranalysis/launcher/executor/selectparam/path/InputFactory.java:58-68 | the input factory fails only with a command-line error or an invalid-path error |
| SelectParamFactory.OutputSelectParam | anchor-launcher/src/main/java/org/anchoranalysis/launcher/executor/selectparam/SelectParamFactory.java:115-144 | the selection and the new disk are those OutputDecision prescribes |
| SelectParamFactory.OutputSelection | anchor-launcher/src/main/java/org/anchoranalysis/launcher/executor/selectparam/SelectParamFactory.java:115-144 | -o with -oo is refused without touching the disk; -oo never changes the disk and selects only an output directory; neither option gives the default; only -o creates directories; the default exactly when neither is present |
| SelectParamFactory.TaskSelection | anchor-launcher/src/main/java/org/anchoranalysis/launcher/executor/selectparam/SelectParamFactory.java:68-72 | the task selection is the default exactly when the option is absent; present without a value it is refused |
| SelectPathDescriber.ReduceIntoOneLine | anchor-launcher/src/main/java/org/anchoranalysis/launcher/executor/SelectPathDescriber.java:80-87 | the loop builds " with " and the parts joined by " and ", or "" for no parts |
| SelectPathDescriber.DescribeSelections | anchor-launcher/src/main/java/org/anchoranalysis/launcher/executor/SelectPathDescriber.java:55-68 | the line is built from the descriptions of the non-default selections, in the order input, output, task |
| SelectPathDescriber.DescriptionCount | anchor-launcher/src/main/java/org/anchoranalysis/launcher/executor/SelectPathDescriber.java:70-77 | there is one description per non-default selection |
| SelectPathDescriber.DescribeEmptyIffAllDefault | anchor-launcher/src/main/java/org/anchoranalysis/launcher/executor/SelectPathDescriber.java:55-87 | the line is empty exactly when all three selections are the default |
| SelectPathDescriber.InputDescribedFirst | anchor-launcher/src/main/java/org/anchoranalysis/launcher/executor/SelectPathDescriber.java:61-68 | a non-default input always opens the line, as " with input " |
| SelectPathDescriber.DescriptionForShape | anchor-launcher/src/main/java/org/anchoranalysis/launcher/executor/SelectPathDescriber.java:71-77 | a non-default selection gives one part, starting with its identifier and a space; a default one none |
| SelectPathDescriber.OneLineShape | anchor-launcher/src/main/java/org/anchoranalysis/launcher/executor/SelectPathDescriber.java:80-87 | the line is empty only without parts, and otherwise starts with " with " and the first part |
| SelectPathDescriber.TwoParts | anchor-launcher/src/main/java/org/anchoranalysis/launcher/executor/SelectPathDescriber.java:80-87 | two parts give " with a and b" |
| AddInputOptions.ParseAsRatio | anchor-launcher/src/main/java/org/anchoranalysis/launcher/options/process/AddInputOptions.java:163-178 | an accepted ratio lies strictly between 0 and 1; every refusal is an ExperimentExecutionException |
| AddInputOptions.LimitFrom | anchor-launcher/src/main/java/org/anchoranalysis/launcher/options/process/AddInputOptions.java:135-154 | a fixed limit is a positive 32-bit integer, a ratio limit lies strictly in (0, 1), every refusal is an ExperimentExecutionException |
| AddInputOptions.LimitOutcome | anchor-launcher/src/main/java/org/anchoranalysis/launcher/options/process/AddInputOptions.java:135-178 | a fixed limit exactly when the argument parses as a positive int, with that count; a non-positive int refused with its %d rendering; otherwise a decimal in (0, 1) becomes a ratio limit, any other decimal is refused with its %f rendering, and a non-number is an invalid number |
| AddInputOptions.PositiveIntegerIsFixedLimit | anchor-launcher/src/main/java/org/anchoranalysis/launcher/options/process/AddInputOptions.java:138-147 | every positive 32-bit integer written in decimal becomes exactly that fixed limit |
| AddInputOptions.OversizedIntegerRefused | anchor-launcher/src/main/java/org/anchoranalysis/launcher/options/process/AddInputOptions.java:138-171 | a whole number beyond the int range fails parseInt, is read as a ratio and is refused with the number followed by ".000000" |
| AddInputOptions.AssignLimitOn | anchor-launcher/src/main/java/org/anchoranalysis/launcher/options/process/AddInputOptions.java:135-154 | the outcome and the new input arguments are those of the limit function on the old state: the limit is set only on success |
| AddInputOptions.ConsumeOn | anchor-launcher/src/main/java/org/anchoranalysis/launcher/options/process/AddInputOptions.java:103-125 | -ii sets the identifier subrange (or fails when it cannot be parsed), -il sets the limit, -ir switches shuffling on and sets the limit |
| AddInputOptions.SingleAssociatedOn | anchor-launcher/src/main/java/org/anchoranalysis/launcher/options/process/AddOptionsFromCommandLine.java:83-87 | the consumer runs only when the option is present, fails when it is given more than once, and otherwise receives its value |
| AddInputOptions.AddFrom | anchor-launcher/src/main/java/org/anchoranalysis/launcher/options/process/AddInputOptions.java:64-94 | the outcome and new input arguments are those of applying the flags, then -ii, -il and -ir in turn, stopping at the first failure |
| AddInputOptions.ApplyFrame | anchor-launcher/src/main/java/org/anchoranalysis/launcher/options/process/AddInputOptions.java:70-94 | the input directory, glob, extensions and paths never change; -ic and -ip switch their flags on by presence alone; -is or -ir leave shuffling on; every failure is an ExperimentExecutionException |
| AddInputOptions.StepFrame | anchor-launcher/src/main/java/org/anchoranalysis/launcher/options/process/AddInputOptions.java:103-125 | a single-argument option changes only the subrange, the limit and (only switching it on) shuffle |
| AddInputOptions.RandomSampleWins | anchor-launcher/src/main/java/org/anchoranalysis/launcher/options/process/AddInputOptions.java:88-107 | when -ir is given once and processing succeeds, shuffling is on and the limit is the one -ir names, replacing that of -il |
| AddInputOptions.NoOptionsNoChange | anchor-launcher/src/main/java/org/anchoranalysis/launcher/options/process/AddInputOptions.java:70-94 | without any of the six input options the input arguments are left as they were, successfully |
| AddInputOptions.ApplyIdempotent | anchor-launcher/src/main/java/org/anchoranalysis/launcher/options/process/AddInputOptions.java:70-94 | applying the same command line a second time yields the same outcome and state, whether the first application succeeded or failed |
| NumberParsing.ParseInt | anchor-launcher/src/main/java/org/anchoranalysis/launcher/options/process/AddInputOptions.java:140 | Integer.parseInt accepts only values in the 32-bit range |
| NumberParsing.FractionValue | anchor-launcher/src/main/java/org/anchoranalysis/launcher/options/process/AddInputOptions.java:166 | the digits after the decimal point denote a value in [0, 1) |
| NumberParsing.ParseIntOfIntToString | anchor-launcher/src/main/java/org/anchoranalysis/launcher/options/process/AddInputOptions.java:140-144 | parseInt reads back every 32-bit integer from its decimal rendering |
| NumberParsing.ParseDecimalOfInteger | anchor-launcher/src/main/java/org/anchoranalysis/launcher/options/process/AddInputOptions.java:140-166 | whatever parseInt accepts, parseDouble reads as the same number |
| NumberParsing.ParseDecimalOfDigits | anchor-launcher/src/main/java/org/anchoranalysis/launcher/options/process/AddInputOptions.java:166 | a string of decimal digits is read by parseDouble as the number it denotes |
| NumberParsing.FormatFixedWhole | anchor-launcher/src/main/java/org/anchoranalysis/launcher/options/process/AddInputOptions.java:168-171 | %f renders a whole number as its digits followed by ".000000" |
| AddOutputOptions.EnableOn | anchor-launcher/src/main/java/org/anchoranalysis/launcher/options/process/AddOutputOptions.java:71-80 | the outcome and new output arguments are those of the enable step on the old state: -oa enables every output, otherwise -oe enables those it names or fails with the parser's error |
| AddOutputOptions.DisableOn | anchor-launcher/src/main/java/org/anchoranalysis/launcher/options/process/AddOutputOptions.java:82-84 | -od disables the outputs it names or fails with the parser's error; without -od nothing changes |
| AddOutputOptions.FormatOn | anchor-launcher/src/main/java/org/anchoranalysis/launcher/options/process/AddOutputOptions.java:86-88 | -of suggests the image format the factory creates from its value, or fails with "No file format identified by X is supported." |
| AddOutputOptions.AddFrom | anchor-launcher/src/main/java/org/anchoranalysis/launcher/options/process/AddOutputOptions.java:64-101 | the outcome and new output arguments are those of enable, disable, format, the two flags and -oo in turn, stopping at the first failure |
| AddOutputOptions.EnableAllTakesPrecedence | anchor-launcher/src/main/java/org/anchoranalysis/launcher/options/process/AddOutputOptions.java:71-80 | with -oa every additional output is enabled and the result is the same as with -oe removed from the command line |
| AddOutputOptions.EnabledOutputsNamed | anchor-launcher/src/main/java/org/anchoranalysis/launcher/options/process/AddOutputOptions.java:110-119 | without -oa, -oe enables exactly the outputs the parser reads from its values, or stops with the parser's error (a missing value refused as a missing argument) |
| AddOutputOptions.FormatSelected | anchor-launcher/src/main/java/org/anchoranalysis/launcher/options/process/AddOutputOptions.java:128-144 | a single -of identifier the factory does not know is refused with the unsupported-format message; a known one becomes the suggested format |
| AddOutputOptions.ApplyFrame | anchor-launcher/src/main/java/org/anchoranalysis/launcher/options/process/AddOutputOptions.java:70-101 | the output directory never changes; the flags stay on once on, and on success -on and -os switch them on exactly by presence; every failure is an ExperimentExecutionException |
| AddOutputOptions.AdditionalOutputsErrors | anchor-launcher/src/main/java/org/anchoranalysis/launcher/options/process/AddOutputOptions.java:110-119 | every failure while reading -oe or -od values is an ExperimentExecutionException |
| AddOutputOptions.ApplyIdempotent | anchor-launcher/src/main/java/org/anchoranalysis/launcher/options/process/AddOutputOptions.java:70-101 | applying the same command line a second time yields the same outcome and state |
| AdditionalOutputsParser.ParseFrom | anchor-launcher/src/main/java/org/anchoranalysis/launcher/options/process/AdditionalOutputsParser.java:79-95 | the loop over arguments and their comma-separated elements gives the same outcome as adding every element of every argument in order, from no outputs |
| AdditionalOutputsParser.AddElementsMeaning | anchor-launcher/src/main/java/org/anchoranalysis/launcher/options/process/AdditionalOutputsParser.java:104-133 | a run of elements is accepted exactly when each has no colon or exactly two non-empty parts around its colon; first-level names and second-level pairs are then added and nothing else |
| AdditionalOutputsParser.SplitAround | anchor-launcher/src/main/java/org/anchoranalysis/launcher/options/process/AdditionalOutputsParser.java:126 | splitting around the only separator yields the two sides |
| AdditionalOutputsParser.SecondLevelPair | anchor-launcher/src/main/java/org/anchoranalysis/launcher/options/process/AdditionalOutputsParser.java:120-133 | "first:second" with non-empty colon-free parts adds the pair (first, second) |
| AdditionalOutputsParser.NamesOfConcatenation | anchor-launcher/src/main/java/org/anchoranalysis/launcher/options/process/AdditionalOutputsParser.java:84-93 | the names of concatenated element runs are the unions of their names |
| AdditionalOutputsParser.ParseFromMeaning | anchor-launcher/src/main/java/org/anchoranalysis/launcher/options/process/AdditionalOutputsParser.java:79-95 | parsing succeeds exactly when no argument is empty and every element is valid, and then holds exactly the named first-level outputs and second-level pairs |
| AdditionalOutputsParser.EmptyArgumentRefused | anchor-launcher/src/main/java/org/anchoranalysis/launcher/options/process/AdditionalOutputsParser.java:85-88 | an empty argument is refused with "The -X option requires an argument." |
| AdditionalOutputsParser.AddArgumentsErrors | anchor-launcher/src/main/java/org/anchoranalysis/launcher/options/process/AdditionalOutputsParser.java:79-95 | every refusal is an ExperimentExecutionException |
| AdditionalOutputsParser.AddElementsErrors | anchor-launcher/src/main/java/org/anchoranalysis/launcher/options/process/AdditionalOutputsParser.java:104-146 | every refusal of an element is an ExperimentExecutionException |
| FindTasks.WithoutLeadingPeriods | anchor-launcher/src/main/java/org/anchoranalysis/launcher/run/tasks/FindTasks.java:127-140 | the result is a suffix of the names, everything dropped is "." or "..", and it starts with a plain name and is non-empty when there is one |
| FindTasks.RemoveLeadingPeriods | anchor-launcher/src/main/java/org/anchoranalysis/launcher/run/tasks/FindTasks.java:127-140 | the loop returns the relative sub-path from the first element that is neither "." nor "..", which is a plain name |
| FindTasks.FirstPlainElement | anchor-launcher/src/main/java/org/anchoranalysis/launcher/run/tasks/FindTasks.java:130-139 | the sub-path starts at the first plain element the loop finds |
| FindTasks.RemoveXmlExtension | anchor-launcher/src/main/java/org/anchoranalysis/launcher/run/tasks/FindTasks.java:116-119 | the result is the identifier with its last four characters (period and extension) removed |
| FindTasks.TasksDirectoryNormalized | anchor-launcher/src/main/java/org/anchoranalysis/launcher/run/tasks/FindTasks.java:76 | the tasks directory is taken normal and absolute |
| FindTasks.RelativeTaskPath | anchor-launcher/src/main/java/org/anchoranalysis/launcher/run/tasks/FindTasks.java:103-107 | relativised against the tasks directory, a task file's path is non-empty, starts with a plain name and ends with the XML file |
| FindTasks.TaskIdentifierMeaning | anchor-launcher/src/main/java/org/anchoranalysis/launcher/run/tasks/FindTasks.java:103-107 | a task's identifier followed by ".xml" is its path below the tasks directory, joined with '/' |
| FindTasks.RelativeIdentifierMeaning | anchor-launcher/src/main/java/org/anchoranalysis/launcher/run/tasks/FindTasks.java:103-107 | for a relative path starting with a plain name, the identifier followed by ".xml" is the '/'-joined path |
| FindTasks.RemoveXmlExtensionOfAppended | anchor-launcher/src/main/java/org/anchoranalysis/launcher/run/tasks/FindTasks.java:116-119 | removing the extension undoes appending ".xml" |
| FindTasks.TaskNamesMeaning | anchor-launcher/src/main/java/org/anchoranalysis/launcher/run/tasks/FindTasks.java:71-81 | a name is listed exactly when it does not start with "include/" and names, with ".xml" appended, a regular XML file below the tasks directory |
| FindTasks.IdentifierDeterminedByJoin | anchor-launcher/src/main/java/org/anchoranalysis/launcher/run/tasks/FindTasks.java:103-107 | two names whose ".xml" paths agree are the same name |
| TasksIndexer.Put | anchor-launcher/src/main/java/org/anchoranalysis/launcher/run/tasks/TasksIndexer.java:59 | putting adds the value to its key's values, adding the key if absent, and leaves the other keys as they were |
| TasksIndexer.IndexBySubdirectory | anchor-launcher/src/main/java/org/anchoranalysis/launcher/run/tasks/TasksIndexer.java:54-62 | the loop builds the same multimap as putting each identifier in turn |
| TasksIndexer.PutPairs | anchor-launcher/src/main/java/org/anchoranalysis/launcher/run/tasks/TasksIndexer.java:59 | the pairs after a put are the pairs before plus the new one |
| TasksIndexer.IndexMeaning | anchor-launcher/src/main/java/org/anchoranalysis/launcher/run/tasks/TasksIndexer.java:54-62 | the index holds exactly the (directory, file name) pair of each identifier, and no key without a value |
| TasksIndexer.ComponentsAppend | anchor-launcher/src/main/java/org/anchoranalysis/launcher/run/tasks/TasksIndexer.java:56-60 | the pairs of a sequence are those of all but its last plus the last's |
| TasksIndexer.IndexSize | anchor-launcher/src/main/java/org/anchoranalysis/launcher/run/tasks/TasksIndexer.java:54-62 | the index holds at most as many pairs as there are identifiers |
| TasksIndexer.ComponentsRebuildIdentifier | anchor-launcher/src/main/java/org/anchoranalysis/launcher/run/tasks/TasksIndexer.java:71-88 | directory component, '/' and file name give back the identifier's path; a single relative name has the directory "" |
| TasksIndexer.ComponentsRebuildPath | anchor-launcher/src/main/java/org/anchoranalysis/launcher/run/tasks/TasksIndexer.java:71-88 | the parent, '/' and the last name give back a path of two or more names |
| DescribeTaskNames.RootTasksExcluding | anchor-launcher/src/main/java/org/anchoranalysis/launcher/run/tasks/DescribeTaskNames.java:83-88 | sorted and duplicate-free, holding exactly the root tasks that are not also a key |
| DescribeTaskNames.DescribeSubdirectory | anchor-launcher/src/main/java/org/anchoranalysis/launcher/run/tasks/DescribeTaskNames.java:112-121 | the line starts with "directory -or- " exactly when a root task has its name, and ends with the directory, a slash and its file names in braces |
| DescribeTaskNames.PrintTaskNames | anchor-launcher/src/main/java/org/anchoranalysis/launcher/run/tasks/DescribeTaskNames.java:53-77 | the lines printed are the header, a blank, the root line, a blank when subdirectories exist, then one line per subdirectory in key order |
| DescribeTaskNames.PrintSubdirectories | anchor-launcher/src/main/java/org/anchoranalysis/launcher/run/tasks/DescribeTaskNames.java:71-76 | the loop prints the line of every key except the root key, in order |
| DescribeTaskNames.SubdirectoryLinesCount | anchor-launcher/src/main/java/org/anchoranalysis/launcher/run/tasks/DescribeTaskNames.java:71-76 | distinct keys give one line per key other than the root key |
| DescribeTaskNames.SubdirectoryLinesMembers | anchor-launcher/src/main/java/org/anchoranalysis/launcher/run/tasks/DescribeTaskNames.java:71-76 | a line is printed exactly when it is the line of some key other than the root key |
| DescribeTaskNames.TaskNameLinesOpening | anchor-launcher/src/main/java/org/anchoranalysis/launcher/run/tasks/DescribeTaskNames.java:54-69 | the output opens with "There are N predefined tasks:", a blank line, the remaining root tasks joined by ", ", and a blank line when more than one key exists |
| DescribeTaskNames.TaskNameLinesCount | anchor-launcher/src/main/java/org/anchoranalysis/launcher/run/tasks/DescribeTaskNames.java:53-77 | the number of lines is three, plus one when more than one key exists, plus one per subdirectory |
| DescribeTaskNames.SubdirectoryLinesListed | anchor-launcher/src/main/java/org/anchoranalysis/launcher/run/tasks/DescribeTaskNames.java:71-76 | every subdirectory has its line, and every subdirectory line belongs to one |
| DescribeTaskNames.RootTaskShown | anchor-launcher/src/main/java/org/anchoranalysis/launcher/run/tasks/DescribeTaskNames.java:57-74 | a non-empty root task is on the root line or announced at the head of the line of the subdirectory with its name |
| DescribeTaskNames.SubdirectoryLineAnnounces | anchor-launcher/src/main/java/org/anchoranalysis/launcher/run/tasks/DescribeTaskNames.java:74 | a subdirectory's line starts with "key -or- " exactly when a root task has the key's name, and ends with the key's sorted file names |
| DescribeTaskNames.HeaderCountsIdentifiers | anchor-launcher/src/main/java/org/anchoranalysis/launcher/run/tasks/DescribeTaskNames.java:54 | for the index of some identifiers, the header counts their distinct (directory, file name) pairs, at most the number of identifiers |
| Ordering.SortedElements | anchor-launcher/src/main/java/org/anchoranalysis/launcher/run/tasks/TasksIndexer.java:55 | the elements of a set in strictly increasing lexicographic order, none missing |

## Left out

- InputFactory.InputSelectionSound: states only what a selection agrees with. The outcome for each form of input is stated by SingleWildcardIsGlob, SeveralWithWildcardRefused, SingleXmlIsCustomManager, SeveralWithXmlRefused, ExtensionsSelected, MixedExtensionsRefused, InvalidPathReported, SingleDirectorySelected, SeveralWithDirectoryRefused and FileListSelected, which together cover every input.
- InputFactory.LateSelectionsSound: states only what a directory or file-list selection agrees with. Which of them, or which error, a given input produces is stated by SingleDirectorySelected, SeveralWithDirectoryRefused and FileListSelected.
- InputFactory.XmlCheckMeaning: states the check alone. The outcome of the whole input classifier for a .xml argument is stated by SingleXmlIsCustomManager and SeveralWithXmlRefused.
- OutputFactory.OutputDecisionSound: states only what a success and a disk change agree with. The outcome for each case is stated by SeveralArgumentsRefused, InvalidPathBecomesCommandLineError, ExistingDirectorySelected, ExistingFileSelected, WriteIntoRootAcceptsNewDirectory, TrailingSeparatorCreatesDirectory, BlockedDirectoryRefused and MissingPlainPathRefused.
- OutputFactory.PathOrDirectory: its contract ties the method to Decide; the case lemmas above state what Decide gives.
- `FormatExtensions.removeAnyLeadingPeriod` and `FormatExtensions.normalizeToLowerCase` belong to another library. The model takes the first to remove a single leading period (a second leading period is kept) and the second to lower-case ASCII letters only (no other Unicode case mapping).
- `..` elements are resolved lexically before a path is looked up in the snapshot. So `missing/../file` is found when `file` exists, where `File.exists` and `File.isDirectory` would look for `missing` first.
- The BeanXML file of a task name is looked up relative to the working directory when the tasks directory is relative, as `File.exists` does; the selected path itself stays as built from the tasks directory.
- Windows paths, drive letters and backslash separators: paths follow Unix rules only.
- Symbolic links and filesystem permissions: `mkdirs` fails only where an ancestor, or the path itself, is a regular file.
- Filesystem changes made by anyone other than the output classifier: the snapshot is fixed while one command line is resolved.
- `GlobExtractor.extract`, `FileFormatFactory.createImageFormat` and `IndexRangeNegativeFactory.parse` belong to other libraries. They are parameters of the model.
- `hasXmlExtension` is taken to be "the lower-cased name ends with `.xml`". `NonImageFileFormat` is not part of this model.
- `Double.parseDouble` accepts only plain decimals here: an optional sign, digits, and an optional fraction. Exponents, hexadecimal, `NaN`, `Infinity` and type suffixes are left out, and the ratio is an exact real rather than a rounded double.
- Digits are ASCII only. Java's parsers also accept other Unicode digits.
- `%f` is modelled as rounding half up to six decimals.
- The internals of the default selections are not part of this model. This covers the default input manager, the default experiment and the task-name wrapper. Only their default status, their empty result and their delegation are modelled.
- The Guava `checkArgument` preconditions of `removeLeadingPeriods` and `removeXmlExtension` become `requires` clauses. The model never calls these functions with arguments that would throw.
- `SelectParamFactory` options and the `-oo` option are declared with a required argument. The members of `SelectParamFactory` therefore require a value wherever such an option is present. Commons CLI would refuse the command line before this layer runs.
- DescribeTaskNames.RootTaskShown: a root task whose name is the empty string is excluded. It would be listed under the key `""`, which is never printed as a subdirectory, so the source loses it.
- TasksIndexer.ComponentsRebuildIdentifier: says nothing about an absolute identifier with a single name, such as `/a`. Its directory component is the root itself.
- `System.lineSeparator()` is taken to be a single line break. Printed output is a sequence of lines.
- The order of `StringSetTrie` values and of the sorted multimap's keys and values is taken to be plain lexicographic order of the characters.
- FindTasks.TasksDirectoryNormalized: makes the tasks directory absolute and then normalises it. The source normalises first and then makes the directory absolute, so a relative directory starting with `..` keeps those elements there. The model does not capture that case, or the leading `..` elements it can put into task identifiers.
- Which files the recursive XML file matcher finds is modelled as every regular file in the snapshot whose name ends with `.xml` and which lies strictly inside the tasks directory. Hidden files and directories are not treated specially.
- The selection and option processors are modelled as working in sequence. Concurrency, logging and the rest of the launcher (configuration loading, the experiment executor, resources, console output) are not part of this model.
