/**
 * AdditionalOutputsParser: reads the values of -oe / -od, each a
 * comma-separated list of output names, first-level ("name") or second-level
 * ("first:second"), into the set of outputs to enable or disable.
 */
module AdditionalOutputsParser {
  import opened Base
  import opened Strings

  /** The outputs named so far: first-level names and (first, second) pairs. */
  datatype OutputNames = OutputNames(first: set<string>, second: set<(string, string)>)

  const NoOutputs := OutputNames({}, {})

  const ElementSeparator: char := ':'

  const ExceptionMessageSnippet := "It must be in the format of either outputName or firstLevelOutputName:secondLevelOutputName."

  function CreateException(prefix: string, element: string): Error
  {
    ExperimentExecution(prefix + "\n" + ExceptionMessageSnippet + "\n" + element)
  }

  function MissingArgument(optionName: string): Error
  {
    ExperimentExecution("The -" + optionName + " option requires an argument.")
  }

  /** addSecondLevelElement: exactly two non-empty parts around a single colon. */
  function AddSecondLevelElement(outputs: OutputNames, element: string): Result<OutputNames>
  {
    if StartsWith(element, [ElementSeparator]) || EndsWith(element, [ElementSeparator]) then
      Err(CreateException("An output-name may not start or end with a colon.", element))
    else
      var split := JavaSplit(element, ElementSeparator);
      if |split| != 2 then Err(CreateException("Invalid output-name.", element))
      else Ok(outputs.(second := outputs.second + {(split[0], split[1])}))
  }

  /** addElement: a name with a colon is second-level, any other first-level. */
  function AddElement(outputs: OutputNames, element: string): Result<OutputNames>
  {
    if ElementSeparator in element then AddSecondLevelElement(outputs, element)
    else Ok(outputs.(first := outputs.first + {element}))
  }

  function AddElements(outputs: OutputNames, elements: seq<string>): Result<OutputNames>
    decreases |elements|
  {
    if |elements| == 0 then Ok(outputs)
    else
      var next :- AddElement(outputs, elements[0]);
      AddElements(next, elements[1..])
  }

  /** The arguments still to read, the elements of each split on ','; an empty argument is refused. */
  function AddArguments(outputs: OutputNames, arguments: seq<string>, optionName: string): Result<OutputNames>
    decreases |arguments|
  {
    if |arguments| == 0 then Ok(outputs)
    else if arguments[0] == "" then Err(MissingArgument(optionName))
    else
      var next :- AddElements(outputs, JavaSplit(arguments[0], ','));
      AddArguments(next, arguments[1..], optionName)
  }

  /** What is left once some elements of the current argument are still to add. */
  function AfterElements(outputs: OutputNames, elements: seq<string>, arguments: seq<string>, optionName: string): Result<OutputNames>
  {
    var next :- AddElements(outputs, elements);
    AddArguments(next, arguments, optionName)
  }

  /** parseFrom: every element of every argument, in order, into a fresh set of outputs. */
  method ParseFrom(arguments: seq<string>, optionName: string) returns (r: Result<OutputNames>)
    ensures r == AddArguments(NoOutputs, arguments, optionName)
  {
    var outputs := NoOutputs;
    var i := 0;
    while i < |arguments|
      invariant 0 <= i <= |arguments|
      invariant AddArguments(outputs, arguments[i..], optionName) == AddArguments(NoOutputs, arguments, optionName)
    {
      var argument := arguments[i];
      assert arguments[i..][1..] == arguments[i + 1..];
      if argument == "" {
        return Err(MissingArgument(optionName));
      }
      var elements := JavaSplit(argument, ',');
      var j := 0;
      while j < |elements|
        invariant 0 <= j <= |elements|
        invariant AfterElements(outputs, elements[j..], arguments[i + 1..], optionName)
                  == AddArguments(NoOutputs, arguments, optionName)
      {
        assert elements[j..][1..] == elements[j + 1..];
        var added := AddElement(outputs, elements[j]);
        if added.Err? {
          return Err(added.error);
        }
        outputs := added.value;
        j := j + 1;
      }
      assert elements[j..] == [];
      i := i + 1;
    }
    assert arguments[i..] == [];
    return Ok(outputs);
  }

  // ---------------------------------------------------------------------
  // Properties
  // ---------------------------------------------------------------------

  /** An element is accepted when it has no colon, or exactly two non-empty parts around its colons. */
  predicate ValidElement(element: string)
  {
    ElementSeparator !in element
    || (!StartsWith(element, [ElementSeparator]) && !EndsWith(element, [ElementSeparator])
        && |JavaSplit(element, ElementSeparator)| == 2)
  }

  ghost function FirstLevelNames(elements: seq<string>): set<string>
  {
    set i | 0 <= i < |elements| && ElementSeparator !in elements[i] :: elements[i]
  }

  ghost function SecondLevelNames(elements: seq<string>): set<(string, string)>
  {
    set i | 0 <= i < |elements| && ElementSeparator in elements[i] && |JavaSplit(elements[i], ElementSeparator)| == 2
      :: (JavaSplit(elements[i], ElementSeparator)[0], JavaSplit(elements[i], ElementSeparator)[1])
  }

  /**
   * The elements are accepted exactly when each is valid, and then the first-level
   * names are added as they are and each second-level element as its pair of parts.
   */
  lemma {:induction false} AddElementsMeaning(outputs: OutputNames, elements: seq<string>)
    ensures AddElements(outputs, elements).Ok? <==> forall i :: 0 <= i < |elements| ==> ValidElement(elements[i])
    ensures AddElements(outputs, elements).Ok? ==>
              AddElements(outputs, elements).value
              == OutputNames(outputs.first + FirstLevelNames(elements), outputs.second + SecondLevelNames(elements))
    decreases |elements|
  {
    if |elements| > 0 {
      var e := elements[0];
      var rest := elements[1..];
      assert forall i :: 0 <= i < |rest| ==> rest[i] == elements[i + 1];
      var added := AddElement(outputs, e);
      assert added.Ok? <==> ValidElement(e);
      if added.Ok? {
        AddElementsMeaning(added.value, rest);
        if ElementSeparator in e {
          assert added.value.first == outputs.first;
          assert FirstLevelNames(elements) == FirstLevelNames(rest) by {
            forall x | x in FirstLevelNames(elements) ensures x in FirstLevelNames(rest) {
              var i :| 0 <= i < |elements| && ElementSeparator !in elements[i] && elements[i] == x;
              assert i != 0;
              assert rest[i - 1] == x;
            }
          }
          var split := JavaSplit(e, ElementSeparator);
          assert SecondLevelNames(elements) == {(split[0], split[1])} + SecondLevelNames(rest) by {
            forall x | x in SecondLevelNames(elements)
              ensures x in {(split[0], split[1])} + SecondLevelNames(rest)
            {
              var i :| 0 <= i < |elements| && ElementSeparator in elements[i]
                       && |JavaSplit(elements[i], ElementSeparator)| == 2
                       && x == (JavaSplit(elements[i], ElementSeparator)[0], JavaSplit(elements[i], ElementSeparator)[1]);
              if i > 0 {
                assert rest[i - 1] == elements[i];
              }
            }
            forall x | x in SecondLevelNames(rest)
              ensures x in SecondLevelNames(elements)
            {
              var i :| 0 <= i < |rest| && ElementSeparator in rest[i] && |JavaSplit(rest[i], ElementSeparator)| == 2
                       && x == (JavaSplit(rest[i], ElementSeparator)[0], JavaSplit(rest[i], ElementSeparator)[1]);
              assert elements[i + 1] == rest[i];
            }
            assert 0 <= 0 < |elements|;
          }
        } else {
          assert added.value.second == outputs.second;
          assert SecondLevelNames(elements) == SecondLevelNames(rest) by {
            forall x | x in SecondLevelNames(elements) ensures x in SecondLevelNames(rest) {
              var i :| 0 <= i < |elements| && ElementSeparator in elements[i]
                       && |JavaSplit(elements[i], ElementSeparator)| == 2
                       && x == (JavaSplit(elements[i], ElementSeparator)[0], JavaSplit(elements[i], ElementSeparator)[1]);
              assert i != 0;
              assert rest[i - 1] == elements[i];
            }
            forall x | x in SecondLevelNames(rest) ensures x in SecondLevelNames(elements) {
              var i :| 0 <= i < |rest| && ElementSeparator in rest[i] && |JavaSplit(rest[i], ElementSeparator)| == 2
                       && x == (JavaSplit(rest[i], ElementSeparator)[0], JavaSplit(rest[i], ElementSeparator)[1]);
              assert elements[i + 1] == rest[i];
            }
          }
          assert FirstLevelNames(elements) == {e} + FirstLevelNames(rest) by {
            forall x | x in FirstLevelNames(elements) ensures x in {e} + FirstLevelNames(rest) {
              var i :| 0 <= i < |elements| && ElementSeparator !in elements[i] && elements[i] == x;
              if i > 0 {
                assert rest[i - 1] == x;
              }
            }
            forall x | x in FirstLevelNames(rest) ensures x in FirstLevelNames(elements) {
              var i :| 0 <= i < |rest| && ElementSeparator !in rest[i] && rest[i] == x;
              assert elements[i + 1] == x;
            }
            assert 0 <= 0 < |elements|;
          }
        }
      } else {
        assert !ValidElement(elements[0]);
      }
    }
  }

  /** Splitting around a single separator yields the two parts on either side of it. */
  lemma {:induction false} SplitAround(before: string, after: string, c: char)
    requires c !in before && c !in after
    ensures SplitAll(before + [c] + after, c) == [before, after]
    decreases |before|
  {
    var s := before + [c] + after;
    if |before| == 0 {
      assert s == [c] + after;
      assert s[1..] == after;
      SplitAllWithoutSeparator(after, c);
    } else {
      assert s[1..] == before[1..] + [c] + after;
      SplitAround(before[1..], after, c);
      assert [before[0]] + before[1..] == before;
    }
  }

  /** "first:second" with non-empty parts free of colons names the pair (first, second). */
  lemma SecondLevelPair(outputs: OutputNames, first: string, second: string)
    requires |first| > 0 && |second| > 0
    requires ElementSeparator !in first && ElementSeparator !in second
    ensures AddElement(outputs, first + [ElementSeparator] + second)
            == Ok(outputs.(second := outputs.second + {(first, second)}))
  {
    var e := first + [ElementSeparator] + second;
    assert e[|first|] == ElementSeparator;
    SplitAround(first, second, ElementSeparator);
    assert e[..1] == first[..1];
    assert e[|e| - 1..] == second[|second| - 1..];
  }

  /** Every element of every argument, in order. */
  ghost function Elements(arguments: seq<string>): seq<string>
  {
    if |arguments| == 0 then [] else JavaSplit(arguments[0], ',') + Elements(arguments[1..])
  }

  lemma NamesOfConcatenation(a: seq<string>, b: seq<string>)
    ensures FirstLevelNames(a + b) == FirstLevelNames(a) + FirstLevelNames(b)
    ensures SecondLevelNames(a + b) == SecondLevelNames(a) + SecondLevelNames(b)
  {
    var ab := a + b;
    assert forall i :: 0 <= i < |a| ==> ab[i] == a[i];
    assert forall i :: 0 <= i < |b| ==> ab[|a| + i] == b[i];
    forall x | x in FirstLevelNames(ab) ensures x in FirstLevelNames(a) + FirstLevelNames(b) {
      var i :| 0 <= i < |ab| && ElementSeparator !in ab[i] && ab[i] == x;
      if i >= |a| {
        assert b[i - |a|] == x;
      }
    }
    forall x | x in SecondLevelNames(ab) ensures x in SecondLevelNames(a) + SecondLevelNames(b) {
      var i :| 0 <= i < |ab| && ElementSeparator in ab[i] && |JavaSplit(ab[i], ElementSeparator)| == 2
               && x == (JavaSplit(ab[i], ElementSeparator)[0], JavaSplit(ab[i], ElementSeparator)[1]);
      if i >= |a| {
        assert b[i - |a|] == ab[i];
      }
    }
  }

  /**
   * parseFrom succeeds exactly when no argument is empty and every element is
   * valid; it then holds every first-level name and every second-level pair
   * named by the arguments, and nothing else.
   */
  lemma {:induction false} ParseFromMeaning(outputs: OutputNames, arguments: seq<string>, optionName: string)
    ensures AddArguments(outputs, arguments, optionName).Ok? <==>
              (forall i :: 0 <= i < |arguments| ==> arguments[i] != "")
              && (forall i :: 0 <= i < |Elements(arguments)| ==> ValidElement(Elements(arguments)[i]))
    ensures AddArguments(outputs, arguments, optionName).Ok? ==>
              AddArguments(outputs, arguments, optionName).value
              == OutputNames(outputs.first + FirstLevelNames(Elements(arguments)),
                             outputs.second + SecondLevelNames(Elements(arguments)))
    decreases |arguments|
  {
    if |arguments| > 0 {
      var head := JavaSplit(arguments[0], ',');
      var rest := arguments[1..];
      assert Elements(arguments) == head + Elements(rest);
      assert forall i :: 0 <= i < |rest| ==> rest[i] == arguments[i + 1];
      var all := head + Elements(rest);
      assert forall i :: 0 <= i < |head| ==> all[i] == head[i];
      assert forall i :: 0 <= i < |Elements(rest)| ==> all[|head| + i] == Elements(rest)[i];
      if arguments[0] != "" {
        AddElementsMeaning(outputs, head);
        var added := AddElements(outputs, head);
        if added.Ok? {
          ParseFromMeaning(added.value, rest, optionName);
          NamesOfConcatenation(head, Elements(rest));
        } else {
          var i :| 0 <= i < |head| && !ValidElement(head[i]);
          assert !ValidElement(all[i]);
        }
      }
    }
  }

  /** An empty argument is refused with the option's name in the message. */
  lemma EmptyArgumentRefused(optionName: string)
    ensures AddArguments(NoOutputs, [""], optionName)
            == Err(ExperimentExecution("The -" + optionName + " option requires an argument."))
  {
  }

  /** Every refusal of the parser is an ExperimentExecutionException. */
  lemma {:induction false} AddArgumentsErrors(outputs: OutputNames, arguments: seq<string>, optionName: string)
    ensures var r := AddArguments(outputs, arguments, optionName);
            r.Err? ==> r.error.ExperimentExecution?
    decreases |arguments|
  {
    if |arguments| > 0 && arguments[0] != "" {
      var next := AddElements(outputs, JavaSplit(arguments[0], ','));
      AddElementsErrors(outputs, JavaSplit(arguments[0], ','));
      if next.Ok? {
        AddArgumentsErrors(next.value, arguments[1..], optionName);
      }
    }
  }

  lemma {:induction false} AddElementsErrors(outputs: OutputNames, elements: seq<string>)
    ensures var r := AddElements(outputs, elements);
            r.Err? ==> r.error.ExperimentExecution?
    decreases |elements|
  {
    if |elements| > 0 {
      var next := AddElement(outputs, elements[0]);
      if next.Ok? {
        AddElementsErrors(next.value, elements[1..]);
      }
    }
  }
}
