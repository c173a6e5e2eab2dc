/**
 * SelectPathDescriber: one line naming the input, output and task
 * selections that differ from the default, as " with input ... and task ...".
 */
module SelectPathDescriber {
  import opened Base
  import opened Strings
  import opened Paths
  import opened SelectParam

  /** The line the parts make: nothing for no parts, otherwise " with " then the parts joined by " and ". */
  function OneLine(parts: seq<string>): string
  {
    if |parts| == 0 then "" else " with " + Join(" and ", parts)
  }

  /** maybeAddDescriptionFor: the identifier and the description, for a non-default selection only. */
  function DescriptionFor(selection: Selection, identifier: string, cwd: Path): seq<string>
  {
    match Describe(selection, cwd)
    case Some(description) => [identifier + " " + description]
    case None => []
  }

  function Descriptions(input: Selection, output: Selection, task: Selection, cwd: Path): seq<string>
  {
    DescriptionFor(input, "input", cwd) + DescriptionFor(output, "output", cwd) + DescriptionFor(task, "task", cwd)
  }

  /** reduceIntoOneLine: " with " before the first part, " and " before each later one. */
  method ReduceIntoOneLine(parts: seq<string>) returns (line: string)
    ensures line == OneLine(parts)
  {
    line := "";
    for i := 0 to |parts|
      invariant line == OneLine(parts[..i])
    {
      OneLineStep(parts, i);
      line := line + (if i == 0 then " with " else " and ") + parts[i];
    }
    assert parts[..|parts|] == parts;
  }

  /** describe: the non-default selections, in the order input, output, task, on one line. */
  method DescribeSelections(input: Selection, output: Selection, task: Selection, cwd: Path) returns (line: string)
    ensures line == OneLine(Descriptions(input, output, task, cwd))
  {
    var list: seq<string> := [];
    list := list + DescriptionFor(input, "input", cwd);
    list := list + DescriptionFor(output, "output", cwd);
    list := list + DescriptionFor(task, "task", cwd);
    assert list == Descriptions(input, output, task, cwd);
    line := ReduceIntoOneLine(list);
  }

  // ---------------------------------------------------------------------
  // Properties
  // ---------------------------------------------------------------------

  /** There is one description per non-default selection. */
  lemma DescriptionCount(input: Selection, output: Selection, task: Selection, cwd: Path)
    ensures |Descriptions(input, output, task, cwd)|
            == (if IsDefault(input) then 0 else 1) + (if IsDefault(output) then 0 else 1)
               + (if IsDefault(task) then 0 else 1)
  {
    DescribedIffNotDefault(input, cwd);
    DescribedIffNotDefault(output, cwd);
    DescribedIffNotDefault(task, cwd);
  }

  /** The line is empty exactly when all three selections are the default. */
  lemma DescribeEmptyIffAllDefault(input: Selection, output: Selection, task: Selection, cwd: Path)
    ensures OneLine(Descriptions(input, output, task, cwd)) == "" <==>
              IsDefault(input) && IsDefault(output) && IsDefault(task)
  {
    DescriptionCount(input, output, task, cwd);
    OneLineShape(Descriptions(input, output, task, cwd));
  }

  /** A non-default input always comes first. */
  lemma InputDescribedFirst(input: Selection, output: Selection, task: Selection, cwd: Path)
    requires !IsDefault(input)
    ensures StartsWith(OneLine(Descriptions(input, output, task, cwd)), " with input ")
  {
    DescriptionsSplit(input, output, task, cwd);
    DescriptionForShape(input, "input", cwd);
    LeadingPart(DescriptionFor(input, "input", cwd),
                DescriptionFor(output, "output", cwd) + DescriptionFor(task, "task", cwd), "input ");
  }

  lemma DescriptionsSplit(input: Selection, output: Selection, task: Selection, cwd: Path)
    ensures Descriptions(input, output, task, cwd)
            == DescriptionFor(input, "input", cwd) + (DescriptionFor(output, "output", cwd) + DescriptionFor(task, "task", cwd))
  {
  }

  /** The line of a single part and more starts with " with " and that part. */
  lemma LeadingPart(first: seq<string>, rest: seq<string>, prefix: string)
    requires |first| == 1 && StartsWith(first[0], prefix)
    ensures StartsWith(OneLine(first + rest), " with " + prefix)
    ensures prefix == "input " ==> StartsWith(OneLine(first + rest), " with input ")
  {
    var parts := first + rest;
    assert parts[0] == first[0];
    OneLineShape(parts);
    StartsWithThrough(OneLine(parts), " with ", parts[0], prefix);
  }

  /** A non-default selection gives one description, starting with its identifier and a space. */
  lemma DescriptionForShape(selection: Selection, identifier: string, cwd: Path)
    ensures |DescriptionFor(selection, identifier, cwd)| == (if IsDefault(selection) then 0 else 1)
    ensures !IsDefault(selection) ==> StartsWith(DescriptionFor(selection, identifier, cwd)[0], identifier + " ")
  {
    DescribedIffNotDefault(selection, cwd);
  }

  lemma StartsWithThrough(s: string, lead: string, part: string, prefix: string)
    requires StartsWith(s, lead + part) && StartsWith(part, prefix)
    ensures StartsWith(s, lead + prefix)
  {
    assert s[..|lead| + |prefix|] == (lead + part)[..|lead| + |prefix|];
  }

  /** Appending one more part adds " with " (for the first) or " and " and the part. */
  lemma OneLineStep(parts: seq<string>, i: nat)
    requires i < |parts|
    ensures OneLine(parts[..i + 1]) == OneLine(parts[..i]) + (if i == 0 then " with " else " and ") + parts[i]
  {
    assert parts[..i + 1] == parts[..i] + [parts[i]];
    if i == 0 {
      assert parts[..1] == [parts[0]];
    } else {
      JoinAppend(" and ", parts[..i], parts[i]);
    }
  }

  /** The line is empty only without parts, and otherwise starts with " with " and the first part. */
  lemma OneLineShape(parts: seq<string>)
    ensures OneLine(parts) == "" <==> |parts| == 0
    ensures |parts| > 0 ==> StartsWith(OneLine(parts), " with " + parts[0])
  {
    if |parts| > 0 {
      JoinStartsWithFirst(" and ", parts);
      var line := OneLine(parts);
      assert |line| >= 6;
      assert line[..6 + |parts[0]|] == " with " + Join(" and ", parts)[..|parts[0]|];
    }
  }

  lemma {:induction false} JoinStartsWithFirst(separator: string, parts: seq<string>)
    requires |parts| > 0
    ensures StartsWith(Join(separator, parts), parts[0])
  {
  }

  /** Two parts are joined as " with a and b". */
  lemma TwoParts(a: string, b: string)
    ensures OneLine([a, b]) == " with " + a + " and " + b
  {
    assert [a, b][1..] == [b];
    assert Join(" and ", [a, b]) == a + " and " + b;
  }
}
