/**
 * CommandLineExtracter: queries on a parsed command line. An option that is
 * present maps to the values that followed its occurrences, in order; an
 * option present without any value maps to the empty sequence.
 */
module CommandLineExtracter {
  import opened Base

  type CommandLine = map<string, seq<string>>

  predicate HasOption(line: CommandLine, option: string)
  {
    option in line
  }

  /** getOptionValues: None (null) when the option is absent or carries no value. */
  function OptionValues(line: CommandLine, option: string): (r: Option<seq<string>>)
    ensures r.Some? ==> |r.value| > 0
  {
    if option in line && |line[option]| > 0 then Some(line[option]) else None
  }

  /** getOptionValue: the first value, if any. */
  function OptionValue(line: CommandLine, option: string): Option<string>
  {
    if option in line && |line[option]| > 0 then Some(line[option][0]) else None
  }

  /** hasOptionWithoutArgument: present, and its value is missing or empty. */
  predicate HasOptionWithoutArgument(line: CommandLine, option: string)
  {
    HasOption(line, option) && (OptionValue(line, option).None? || OptionValue(line, option).value == "")
  }

  function OnlyOnceMessage(option: string): string
  {
    "The option -" + option + " may only be used once!"
  }

  function MaybeConvertNullString(convertNullToEmptyString: bool): Option<string>
  {
    if convertNullToEmptyString then Some("") else None
  }

  /** single: the one value of an option that may occur once. */
  function Single(line: CommandLine, option: string, convertNullToEmptyString: bool): Result<Option<string>>
  {
    if HasOption(line, option) then
      match OptionValues(line, option)
      case Some(elements) =>
        if |elements| == 1 then Ok(Some(elements[0]))
        else Err(ExperimentExecution(OnlyOnceMessage(option)))
      case None => Ok(MaybeConvertNullString(convertNullToEmptyString))
    else Ok(None)
  }

  /** multiple: all values of an option that may occur several times. */
  function Multiple(line: CommandLine, option: string, convertNullToEmptyString: bool): Option<seq<string>>
  {
    if HasOption(line, option) then
      match OptionValues(line, option)
      case Some(elements) => Some(elements)
      case None =>
        var converted := MaybeConvertNullString(convertNullToEmptyString);
        if converted.Some? then Some([converted.value]) else None
    else None
  }

  /** ifPresentSingle: what the consumer is given, if it is called at all. */
  function IfPresentSingle(line: CommandLine, option: string): Result<Option<string>>
  {
    Single(line, option, true)
  }

  /** ifPresentMultiple: what the consumer is given, if it is called at all. */
  function IfPresentMultiple(line: CommandLine, option: string): Option<seq<string>>
  {
    Multiple(line, option, true)
  }

  // ---------------------------------------------------------------------
  // Properties
  // ---------------------------------------------------------------------

  /**
   * ifPresentSingle calls its consumer exactly when the option is present with
   * at most one value, passing that value or the empty string; it fails
   * exactly when the option carries several values.
   */
  lemma SingleMeaning(line: CommandLine, option: string)
    ensures var r := IfPresentSingle(line, option);
            && (r == Ok(None) <==> option !in line)
            && (r.Err? <==> option in line && |line[option]| > 1)
            && (r.Err? ==> r.error == ExperimentExecution(OnlyOnceMessage(option)))
            && (r.Ok? && r.value.Some? ==>
                  line[option] == [r.value.value] || (line[option] == [] && r.value.value == ""))
  {
  }

  /**
   * ifPresentMultiple calls its consumer exactly when the option is present,
   * with all its values, or with the one empty string when it has none.
   */
  lemma MultipleMeaning(line: CommandLine, option: string)
    ensures var r := IfPresentMultiple(line, option);
            && (r.Some? <==> option in line)
            && (r.Some? ==> |r.value| > 0 && (r.value == line[option] || (line[option] == [] && r.value == [""])))
  {
  }

  /** Where single accepts the option, multiple sees the very same one value. */
  lemma SingleAgreesWithMultiple(line: CommandLine, option: string)
    requires IfPresentSingle(line, option).Ok? && IfPresentSingle(line, option).value.Some?
    ensures IfPresentMultiple(line, option) == Some([IfPresentSingle(line, option).value.value])
  {
    if |line[option]| == 1 {
      assert line[option] == [line[option][0]];
    }
  }

  /** An option without an argument is the option whose single value, if present, is empty. */
  lemma WithoutArgumentMeansEmpty(line: CommandLine, option: string)
    ensures HasOptionWithoutArgument(line, option) <==>
              option in line && (|line[option]| == 0 || line[option][0] == "")
    ensures HasOptionWithoutArgument(line, option) && |line[option]| <= 1 ==> IfPresentSingle(line, option) == Ok(Some(""))
  {
  }
}
