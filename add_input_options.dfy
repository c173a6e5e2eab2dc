/**
 * AddInputOptions: the command-line options that adjust the inputs (-ic, -ip,
 * -is, -ii, -il, -ir), applied in order to the input arguments. A failing
 * option stops the processing, and whatever the earlier options changed stays
 * changed.
 */
module AddInputOptions {
  import opened Base
  import opened Strings
  import opened NumberParsing
  import opened CommandLineExtracter
  import opened ExecutionArguments

  const CopyNonInputsOption := "ic"
  const RelativePathOption := "ip"
  const ShuffleOption := "is"
  const SubsetIdentifierOption := "ii"
  const LimitOption := "il"
  const RandomSampleOption := "ir"

  const LimitMessagePrefix :=
    "The -il option must be either a positive integer or a ratio in the interval (0.0, 1.0), but is"
  const InvalidNumberMessage := "The -il option is an invalid number"
  const SubrangeMessage := "Cannot set parameter for subsetting names."

  /** How processing ended, and the input arguments as it left them. */
  datatype Applied = Applied(outcome: Result<()>, state: InputState)

  /** The consumers that take the single argument of an option. */
  datatype Consumer = IdentifierSubrange | FixedOrRatioLimit | RandomSample

  /** parseAsRatio: a decimal strictly between zero and one. */
  function ParseAsRatio(parameter: string): (r: Result<real>)
    ensures r.Ok? ==> 0.0 < r.value < 1.0
    ensures r.Err? ==> r.error.ExperimentExecution?
  {
    match ParseDecimal(parameter)
    case None => Err(ExperimentExecution(InvalidNumberMessage))
    case Some(ratio) =>
      if ratio <= 0.0 || ratio >= 1.0 then Err(ExperimentExecution(LimitMessagePrefix + " " + FormatFixed(ratio)))
      else Ok(ratio)
  }

  /** The limit of assignLimit: a positive 32-bit integer first, otherwise a ratio. */
  function LimitFrom(parameter: string): (r: Result<Limit>)
    ensures r.Ok? && r.value.FixedLimit? ==> 0 < r.value.count <= MaxInt32
    ensures r.Ok? && r.value.RatioLimit? ==> 0.0 < r.value.ratio < 1.0
    ensures r.Err? ==> r.error.ExperimentExecution?
  {
    match ParseInt(parameter)
    case Some(limit) =>
      if limit <= 0 then Err(ExperimentExecution(LimitMessagePrefix + " " + IntToString(limit)))
      else Ok(FixedLimit(limit))
    case None =>
      var ratio :- ParseAsRatio(parameter);
      Ok(RatioLimit(ratio))
  }

  /** assignLimit */
  function AssignLimit(s: InputState, parameter: string): Applied
  {
    match LimitFrom(parameter)
    case Ok(limit) => Applied(Ok(()), s.(limit := Some(limit)))
    case Err(e) => Applied(Err(e), s)
  }

  /** assignIdentifierSubrange; `parseSubrange` is IndexRangeNegativeFactory.parse, None when it fails. */
  function AssignIdentifierSubrange(s: InputState, parameter: string,
                                    parseSubrange: string -> Option<IndexRange>): Applied
  {
    match parseSubrange(parameter)
    case Some(range) => Applied(Ok(()), s.(identifierSubrange := Some(range)))
    case None => Applied(Err(ExperimentExecution(SubrangeMessage)), s)
  }

  /** What each consumer does with the argument. assignRandomSample shuffles before assigning the limit. */
  function Consume(c: Consumer, s: InputState, parameter: string,
                   parseSubrange: string -> Option<IndexRange>): Applied
  {
    match c
    case IdentifierSubrange => AssignIdentifierSubrange(s, parameter, parseSubrange)
    case FixedOrRatioLimit => AssignLimit(s, parameter)
    case RandomSample => AssignLimit(s.(shuffle := true), parameter)
  }

  /** ifPresentSingleAssociated: the consumer runs when the option is present once. */
  function SingleAssociated(line: CommandLine, option: string, c: Consumer, s: InputState,
                            parseSubrange: string -> Option<IndexRange>): Applied
  {
    match IfPresentSingle(line, option)
    case Err(e) => Applied(Err(e), s)
    case Ok(value) =>
      if value.Some? then Consume(c, s, value.value, parseSubrange) else Applied(Ok(()), s)
  }

  /** The three flags, each switched on by the mere presence of its option. */
  function WithFlags(line: CommandLine, s: InputState): InputState
  {
    s.(copyNonInputs := s.copyNonInputs || HasOption(line, CopyNonInputsOption),
       relativeForIdentifier := s.relativeForIdentifier || HasOption(line, RelativePathOption),
       shuffle := s.shuffle || HasOption(line, ShuffleOption))
  }

  /** addOptionsFromCommandLine: the options in order, stopping at the first failure. */
  function ApplyInputOptions(line: CommandLine, s: InputState,
                             parseSubrange: string -> Option<IndexRange>): Applied
  {
    var subset := SingleAssociated(line, SubsetIdentifierOption, IdentifierSubrange, WithFlags(line, s), parseSubrange);
    if subset.outcome.Err? then subset
    else
      var limited := SingleAssociated(line, LimitOption, FixedOrRatioLimit, subset.state, parseSubrange);
      if limited.outcome.Err? then limited
      else SingleAssociated(line, RandomSampleOption, RandomSample, limited.state, parseSubrange)
  }

  // ---------------------------------------------------------------------
  // The processor on the input arguments
  // ---------------------------------------------------------------------

  method AssignLimitOn(arguments: InputArguments, parameter: string) returns (r: Result<()>)
    modifies arguments
    ensures Applied(r, arguments.State()) == AssignLimit(old(arguments.State()), parameter)
  {
    var limit := LimitFrom(parameter);
    if limit.Err? {
      return Err(limit.error);
    }
    arguments.limit := Some(limit.value);
    r := Ok(());
  }

  method ConsumeOn(c: Consumer, arguments: InputArguments, parameter: string,
                   parseSubrange: string -> Option<IndexRange>) returns (r: Result<()>)
    modifies arguments
    ensures Applied(r, arguments.State()) == Consume(c, old(arguments.State()), parameter, parseSubrange)
  {
    match c {
      case IdentifierSubrange =>
        var range := parseSubrange(parameter);
        if range.None? {
          return Err(ExperimentExecution(SubrangeMessage));
        }
        arguments.identifierSubrange := Some(range.value);
        r := Ok(());
      case FixedOrRatioLimit =>
        r := AssignLimitOn(arguments, parameter);
      case RandomSample =>
        arguments.shuffle := true;
        r := AssignLimitOn(arguments, parameter);
    }
  }

  method SingleAssociatedOn(line: CommandLine, option: string, c: Consumer, arguments: InputArguments,
                            parseSubrange: string -> Option<IndexRange>) returns (r: Result<()>)
    modifies arguments
    ensures Applied(r, arguments.State()) ==
            SingleAssociated(line, option, c, old(arguments.State()), parseSubrange)
  {
    var value := IfPresentSingle(line, option);
    if value.Err? {
      return Err(value.error);
    }
    if value.value.Some? {
      r := ConsumeOn(c, arguments, value.value.value, parseSubrange);
    } else {
      r := Ok(());
    }
  }

  /** addFrom: applies the input options to `arguments`. */
  method AddFrom(line: CommandLine, arguments: InputArguments,
                 parseSubrange: string -> Option<IndexRange>) returns (r: Result<()>)
    modifies arguments
    ensures Applied(r, arguments.State()) == ApplyInputOptions(line, old(arguments.State()), parseSubrange)
  {
    if HasOption(line, CopyNonInputsOption) {
      arguments.copyNonInputs := true;
    }
    if HasOption(line, RelativePathOption) {
      arguments.relativeForIdentifier := true;
    }
    if HasOption(line, ShuffleOption) {
      arguments.shuffle := true;
    }
    r := SingleAssociatedOn(line, SubsetIdentifierOption, IdentifierSubrange, arguments, parseSubrange);
    if r.Err? {
      return;
    }
    r := SingleAssociatedOn(line, LimitOption, FixedOrRatioLimit, arguments, parseSubrange);
    if r.Err? {
      return;
    }
    r := SingleAssociatedOn(line, RandomSampleOption, RandomSample, arguments, parseSubrange);
  }

  // ---------------------------------------------------------------------
  // Properties
  // ---------------------------------------------------------------------

  /**
   * An integer is a fixed limit exactly when it is positive; a non-positive
   * one is refused with its `%d` rendering; anything else must be a ratio in
   * (0, 1), refused with its `%f` rendering, or is an invalid number.
   */
  lemma LimitOutcome(parameter: string)
    ensures var r := LimitFrom(parameter);
            && (r.Ok? && r.value.FixedLimit? <==> ParseInt(parameter).Some? && ParseInt(parameter).value > 0)
            && (r.Ok? && r.value.FixedLimit? ==> r.value.count == ParseInt(parameter).value)
            && (ParseInt(parameter).Some? && ParseInt(parameter).value <= 0 ==>
                  r == Err(ExperimentExecution(LimitMessagePrefix + " " + IntToString(ParseInt(parameter).value))))
            && (ParseInt(parameter).None? && ParseDecimal(parameter).None? ==>
                  r == Err(ExperimentExecution(InvalidNumberMessage)))
            && (ParseInt(parameter).None? && ParseDecimal(parameter).Some? ==>
                  var x := ParseDecimal(parameter).value;
                  (r.Ok? <==> 0.0 < x < 1.0)
                  && (r.Ok? ==> r.value == RatioLimit(x))
                  && (r.Err? ==> r.error == ExperimentExecution(LimitMessagePrefix + " " + FormatFixed(x))))
  {
  }

  /** Every positive 32-bit integer, written in decimal, becomes that fixed limit. */
  lemma PositiveIntegerIsFixedLimit(n: int)
    requires 0 < n <= MaxInt32
    ensures LimitFrom(IntToString(n)) == Ok(FixedLimit(n))
  {
    ParseIntOfIntToString(n);
  }

  /**
   * A whole number beyond the 32-bit range is not an integer to parseInt; it
   * is then read as a ratio, and refused with six zero decimals.
   */
  lemma OversizedIntegerRefused(n: nat)
    requires n > MaxInt32
    ensures LimitFrom(NatToString(n)) ==
            Err(ExperimentExecution(LimitMessagePrefix + " " + NatToString(n) + ".000000"))
  {
    var s := NatToString(n);
    DigitsOfNatToString(n);
    NatToStringDigits(n);
    assert !IsDigit('-') && !IsDigit('+') && IsDigit(s[0]);
    assert Unsigned(s) == s && !Negative(s);
    assert ParseInt(s).None?;
    ParseDecimalOfDigits(s);
    FormatFixedWhole(n);
    assert ParseAsRatio(s) == Err(ExperimentExecution(LimitMessagePrefix + " " + FormatFixed(n as real)));
  }

  /**
   * Only the fields the options name change; each flag is switched on when
   * its option is present (even when a later option fails), and every
   * failure is an ExperimentExecutionException.
   */
  lemma ApplyFrame(line: CommandLine, s: InputState, parseSubrange: string -> Option<IndexRange>)
    ensures var a := ApplyInputOptions(line, s, parseSubrange);
            && a.state.inputDirectory == s.inputDirectory
            && a.state.filterGlob == s.filterGlob
            && a.state.filterExtensions == s.filterExtensions
            && a.state.paths == s.paths
            && a.state.copyNonInputs == (s.copyNonInputs || CopyNonInputsOption in line)
            && a.state.relativeForIdentifier == (s.relativeForIdentifier || RelativePathOption in line)
            && (s.shuffle || ShuffleOption in line ==> a.state.shuffle)
            && (a.outcome.Err? ==> a.outcome.error.ExperimentExecution?)
  {
    var f := WithFlags(line, s);
    StepFrame(line, SubsetIdentifierOption, IdentifierSubrange, f, parseSubrange);
    var subset := SingleAssociated(line, SubsetIdentifierOption, IdentifierSubrange, f, parseSubrange);
    StepFrame(line, LimitOption, FixedOrRatioLimit, subset.state, parseSubrange);
    var limited := SingleAssociated(line, LimitOption, FixedOrRatioLimit, subset.state, parseSubrange);
    StepFrame(line, RandomSampleOption, RandomSample, limited.state, parseSubrange);
  }

  /** One option changes only the subrange, the limit and (switching it on) shuffle. */
  lemma StepFrame(line: CommandLine, option: string, c: Consumer, s: InputState,
                  parseSubrange: string -> Option<IndexRange>)
    ensures var a := SingleAssociated(line, option, c, s, parseSubrange);
            && a.state == s.(identifierSubrange := a.state.identifierSubrange, limit := a.state.limit,
                             shuffle := a.state.shuffle)
            && (s.shuffle ==> a.state.shuffle)
            && (a.outcome.Err? ==> a.outcome.error.ExperimentExecution?)
  {
  }

  /** -ir given once with a valid limit switches shuffling on, and its limit replaces that of -il. */
  lemma RandomSampleWins(line: CommandLine, s: InputState, parseSubrange: string -> Option<IndexRange>)
    requires RandomSampleOption in line && |line[RandomSampleOption]| == 1
    requires ApplyInputOptions(line, s, parseSubrange).outcome.Ok?
    ensures var a := ApplyInputOptions(line, s, parseSubrange);
            && a.state.shuffle
            && a.state.limit == Some(LimitFrom(line[RandomSampleOption][0]).value)
  {
  }

  /** Without any of the six options, nothing changes. */
  lemma NoOptionsNoChange(line: CommandLine, s: InputState, parseSubrange: string -> Option<IndexRange>)
    requires CopyNonInputsOption !in line && RelativePathOption !in line && ShuffleOption !in line
    requires SubsetIdentifierOption !in line && LimitOption !in line && RandomSampleOption !in line
    ensures ApplyInputOptions(line, s, parseSubrange) == Applied(Ok(()), s)
  {
  }

  /**
   * Applying the same options a second time changes nothing more, whether
   * the first application succeeded or stopped at a failing option.
   */
  lemma ApplyIdempotent(line: CommandLine, s: InputState, parseSubrange: string -> Option<IndexRange>)
    ensures var a := ApplyInputOptions(line, s, parseSubrange);
            ApplyInputOptions(line, a.state, parseSubrange) == a
  {
    var a := ApplyInputOptions(line, s, parseSubrange);
    ApplyFrame(line, s, parseSubrange);
    assert WithFlags(line, a.state) == a.state;
    var f := WithFlags(line, s);
    var s1 := SingleAssociated(line, SubsetIdentifierOption, IdentifierSubrange, f, parseSubrange);
    if s1.outcome.Err? {
      StepOutcomeOfLine(line, SubsetIdentifierOption, IdentifierSubrange, f, a.state, parseSubrange);
    } else {
      var s2 := SingleAssociated(line, LimitOption, FixedOrRatioLimit, s1.state, parseSubrange);
      StepAgain(line, SubsetIdentifierOption, IdentifierSubrange, s1.state, parseSubrange);
      if s2.outcome.Err? {
        assert a == s2;
        assert SingleAssociated(line, SubsetIdentifierOption, IdentifierSubrange, s1.state, parseSubrange)
               == Applied(Ok(()), s1.state);
      } else {
        SubsetThenRest(line, s1.state, parseSubrange);
      }
    }
  }

  /** Whether an option succeeds depends on the command line only, not on the state it is applied to. */
  lemma StepOutcomeOfLine(line: CommandLine, option: string, c: Consumer, s: InputState, t: InputState,
                          parseSubrange: string -> Option<IndexRange>)
    ensures SingleAssociated(line, option, c, s, parseSubrange).outcome
            == SingleAssociated(line, option, c, t, parseSubrange).outcome
  {
  }

  /** An option that succeeded, applied again to its own result, changes nothing. */
  lemma StepAgain(line: CommandLine, option: string, c: Consumer, s: InputState,
                  parseSubrange: string -> Option<IndexRange>)
    ensures var a := SingleAssociated(line, option, c, s, parseSubrange);
            a.outcome.Ok? ==> SingleAssociated(line, option, c, a.state, parseSubrange) == a
  {
  }

  /**
   * After a successful -ii, applying -il and -ir to their own result gives
   * it back: -ii touches only the subrange, and -ir overwrites the limit of
   * -il again.
   */
  lemma SubsetThenRest(line: CommandLine, s1: InputState, parseSubrange: string -> Option<IndexRange>)
    requires SingleAssociated(line, LimitOption, FixedOrRatioLimit, s1, parseSubrange).outcome.Ok?
    requires SingleAssociated(line, SubsetIdentifierOption, IdentifierSubrange, s1, parseSubrange) == Applied(Ok(()), s1)
    ensures var s2 := SingleAssociated(line, LimitOption, FixedOrRatioLimit, s1, parseSubrange);
            var a := SingleAssociated(line, RandomSampleOption, RandomSample, s2.state, parseSubrange);
            var t1 := SingleAssociated(line, SubsetIdentifierOption, IdentifierSubrange, a.state, parseSubrange);
            var t2 := SingleAssociated(line, LimitOption, FixedOrRatioLimit, t1.state, parseSubrange);
            t1 == Applied(Ok(()), a.state) && t2.outcome.Ok?
            && SingleAssociated(line, RandomSampleOption, RandomSample, t2.state, parseSubrange) == a
  {
    var s2 := SingleAssociated(line, LimitOption, FixedOrRatioLimit, s1, parseSubrange);
    var a := SingleAssociated(line, RandomSampleOption, RandomSample, s2.state, parseSubrange);
    StepFrame(line, RandomSampleOption, RandomSample, s2.state, parseSubrange);
    StepFrame(line, LimitOption, FixedOrRatioLimit, s1, parseSubrange);
    assert a.state.identifierSubrange == s1.identifierSubrange;
    var t1 := SingleAssociated(line, SubsetIdentifierOption, IdentifierSubrange, a.state, parseSubrange);
    assert t1 == Applied(Ok(()), a.state);
    var t2 := SingleAssociated(line, LimitOption, FixedOrRatioLimit, a.state, parseSubrange);
    StepOutcomeOfLine(line, LimitOption, FixedOrRatioLimit, s1, a.state, parseSubrange);
    if LimitOption in line {
      assert t2.state == a.state.(limit := s2.state.limit);
    } else {
      assert t2.state == a.state;
    }
  }
}
