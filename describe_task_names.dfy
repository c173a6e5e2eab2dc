/**
 * DescribeTaskNames: the lines that list the predefined tasks, from their
 * index by subdirectory. A header with the number of tasks, a blank line,
 * the tasks of the root directory, then (after a blank line when there are
 * subdirectories) one line per subdirectory, in key order. A root task that
 * has the same name as a subdirectory is shown on that subdirectory's line
 * instead of the root line. Printing is modelled as the sequence of lines.
 */
module DescribeTaskNames {
  import opened Strings
  import opened Ordering
  import opened TasksIndexer

  const RootKey := ""
  const OrSeparator := " -or- "

  /** Multimap.keySet: the keys that hold at least one value. */
  function KeySet(tasks: TaskIndex): set<string>
  {
    set k | k in tasks && tasks[k] != {}
  }

  /** Multimap.get: the values of a key, none when it is absent. */
  function Get(tasks: TaskIndex, key: string): set<string>
  {
    if key in tasks then tasks[key] else {}
  }

  /** Multimap.size: the number of key-value pairs. */
  function Size(tasks: TaskIndex): nat
  {
    |Pairs(tasks)|
  }

  /** The header, as `printf("There are %d predefined tasks:%n", size)` writes it. */
  function HeaderLine(size: nat): string
  {
    "There are " + NatToString(size) + " predefined tasks:"
  }

  /** removeTasksWithSubdirectory: the root tasks that are not also a key, sorted. */
  function RootTasksExcluding(tasks: TaskIndex): (r: seq<string>)
    ensures StrictlySorted(r)
    ensures forall t :: t in r <==> t in Get(tasks, RootKey) && t !in KeySet(tasks)
  {
    SortedElements(set t | t in Get(tasks, RootKey) && t !in KeySet(tasks))
  }

  /** describeDirectoryRoot */
  function DescribeDirectoryRoot(filenames: seq<string>): string
  {
    Join(", ", filenames)
  }

  /** describeSubdirectory */
  function DescribeSubdirectory(directory: string, filenames: seq<string>, taskInRoot: bool): (r: string)
    ensures StartsWith(r, directory + OrSeparator) <==> taskInRoot
    ensures EndsWith(r, directory + "/{" + Join(" | ", filenames) + "}")
  {
    var listing := directory + "/{" + Join(" | ", filenames) + "}";
    var r := (if taskInRoot then directory + OrSeparator else "") + listing;
    assert !taskInRoot ==> r[|directory|] == '/';
    assert StartsWith(r, directory + OrSeparator) ==> r[|directory|] == ' ';
    r
  }

  /** The line of the subdirectory `key`: its file names in order, and the root task of the same name if any. */
  function SubdirectoryLine(tasks: TaskIndex, key: string): string
  {
    DescribeSubdirectory(key, SortedElements(Get(tasks, key)), key in Get(tasks, RootKey))
  }

  /** The lines of the keys in turn, the root key skipped. */
  function SubdirectoryLines(tasks: TaskIndex, keys: seq<string>): seq<string>
  {
    if |keys| == 0 then []
    else
      var key := keys[|keys| - 1];
      SubdirectoryLines(tasks, keys[..|keys| - 1]) + (if key == RootKey then [] else [SubdirectoryLine(tasks, key)])
  }

  /** The lines before the subdirectories: header, blank, root tasks, and a blank when subdirectories follow. */
  function OpeningLines(tasks: TaskIndex): seq<string>
  {
    [HeaderLine(Size(tasks)), "", DescribeDirectoryRoot(RootTasksExcluding(tasks))]
    + (if |KeySet(tasks)| > 1 then [""] else [])
  }

  /** Everything printTaskNames prints, line by line. */
  function TaskNameLines(tasks: TaskIndex): seq<string>
  {
    OpeningLines(tasks) + SubdirectoryLines(tasks, SortedElements(KeySet(tasks)))
  }

  /** printTaskNames: the lines, the subdirectories visited in key order. */
  method PrintTaskNames(tasks: TaskIndex) returns (lines: seq<string>)
    ensures lines == TaskNameLines(tasks)
  {
    var rootTasks := Get(tasks, RootKey);
    var header := HeaderLine(Size(tasks));
    var rootLine := DescribeDirectoryRoot(RootTasksExcluding(tasks));
    lines := [header, ""];
    lines := lines + [rootLine];
    if |KeySet(tasks)| > 1 {
      lines := lines + [""];
    }
    assert lines == OpeningLines(tasks);
    var subdirectories := PrintSubdirectories(tasks, SortedElements(KeySet(tasks)), rootTasks);
    lines := lines + subdirectories;
  }

  /** The loop of printTaskNames over the keys: one line per key other than the root key. */
  method PrintSubdirectories(tasks: TaskIndex, keys: seq<string>, rootTasks: set<string>) returns (lines: seq<string>)
    requires rootTasks == Get(tasks, RootKey)
    ensures lines == SubdirectoryLines(tasks, keys)
  {
    lines := [];
    for i := 0 to |keys|
      invariant lines == SubdirectoryLines(tasks, keys[..i])
    {
      var key := keys[i];
      SubdirectoryLinesStep(tasks, keys, i);
      if key != RootKey {
        lines := lines + [DescribeSubdirectory(key, SortedElements(Get(tasks, key)), key in rootTasks)];
      }
    }
    assert keys[..|keys|] == keys;
  }

  // ---------------------------------------------------------------------
  // Properties
  // ---------------------------------------------------------------------

  lemma SubdirectoryLinesStep(tasks: TaskIndex, keys: seq<string>, i: nat)
    requires i < |keys|
    ensures SubdirectoryLines(tasks, keys[..i + 1])
         == SubdirectoryLines(tasks, keys[..i]) + (if keys[i] == RootKey then [] else [SubdirectoryLine(tasks, keys[i])])
  {
    assert keys[..i + 1][..i] == keys[..i];
  }

  /** Distinct keys give one line per key other than the root key. */
  lemma {:induction false} SubdirectoryLinesCount(tasks: TaskIndex, keys: seq<string>)
    requires forall i, j :: 0 <= i < j < |keys| ==> keys[i] != keys[j]
    ensures |SubdirectoryLines(tasks, keys)| == |keys| - (if RootKey in keys then 1 else 0)
  {
    if |keys| > 0 {
      var n := |keys| - 1;
      SubdirectoryLinesCount(tasks, keys[..n]);
      assert keys == keys[..n] + [keys[n]];
      if keys[n] == RootKey {
        assert RootKey !in keys[..n];
      }
    }
  }

  /** The lines are exactly those of the keys other than the root key. */
  lemma {:induction false} SubdirectoryLinesMembers(tasks: TaskIndex, keys: seq<string>, line: string)
    ensures line in SubdirectoryLines(tasks, keys) <==>
            exists k :: k in keys && k != RootKey && line == SubdirectoryLine(tasks, k)
  {
    if |keys| > 0 {
      var n := |keys| - 1;
      SubdirectoryLinesMembers(tasks, keys[..n], line);
      assert keys == keys[..n] + [keys[n]];
      if exists k :: k in keys && k != RootKey && line == SubdirectoryLine(tasks, k) {
        var k :| k in keys && k != RootKey && line == SubdirectoryLine(tasks, k);
        if k != keys[n] {
          assert k in keys[..n];
        }
      }
    }
  }

  /**
   * The output opens with the header counting every (subdirectory, task)
   * pair, a blank line, the root tasks left joined by ", ", and a blank line
   * when subdirectories follow.
   */
  lemma TaskNameLinesOpening(tasks: TaskIndex)
    ensures |TaskNameLines(tasks)| >= 3
    ensures TaskNameLines(tasks)[0] == HeaderLine(Size(tasks)) && TaskNameLines(tasks)[1] == ""
    ensures TaskNameLines(tasks)[2] == Join(", ", RootTasksExcluding(tasks))
    ensures |KeySet(tasks)| > 1 ==> TaskNameLines(tasks)[3] == ""
  {
    var opening := OpeningLines(tasks);
    var lines := TaskNameLines(tasks);
    assert lines[..|opening|] == opening;
    assert opening[1] == "";
  }

  /** After the opening lines, there is one line per subdirectory. */
  lemma TaskNameLinesCount(tasks: TaskIndex)
    ensures |TaskNameLines(tasks)| == 3 + (if |KeySet(tasks)| > 1 then 1 else 0) + |KeySet(tasks) - {RootKey}|
  {
    var keySet := KeySet(tasks);
    var keys := SortedElements(keySet);
    assert |keys| == |keySet| && (RootKey in keys <==> RootKey in keySet);
    SubdirectoryLinesCount(tasks, keys);
    assert |OpeningLines(tasks)| == 3 + (if |keySet| > 1 then 1 else 0);
    assert |keySet - {RootKey}| == |keySet| - (if RootKey in keySet then 1 else 0);
  }

  /** Every subdirectory has its line, and every subdirectory line is one's. */
  lemma SubdirectoryLinesListed(tasks: TaskIndex, line: string)
    ensures line in SubdirectoryLines(tasks, SortedElements(KeySet(tasks))) <==>
            exists k :: k in KeySet(tasks) && k != RootKey && line == SubdirectoryLine(tasks, k)
  {
    SubdirectoryLinesMembers(tasks, SortedElements(KeySet(tasks)), line);
  }

  /**
   * No root task is lost: a non-empty root task is either on the root line
   * or, when a subdirectory has its name, announced at the head of that
   * subdirectory's line. A subdirectory's line is announced so only then.
   */
  lemma RootTaskShown(tasks: TaskIndex, t: string)
    requires t in Get(tasks, RootKey) && t != RootKey
    ensures t in RootTasksExcluding(tasks) || (t in KeySet(tasks) && StartsWith(SubdirectoryLine(tasks, t), t + OrSeparator))
  {
  }

  /** A subdirectory line starts with "<key> -or- " exactly when a root task has the key's name. */
  lemma SubdirectoryLineAnnounces(tasks: TaskIndex, key: string)
    ensures StartsWith(SubdirectoryLine(tasks, key), key + OrSeparator) <==> key in Get(tasks, RootKey)
    ensures EndsWith(SubdirectoryLine(tasks, key), key + "/{" + Join(" | ", SortedElements(Get(tasks, key))) + "}")
  {
  }

  /** For an index of identifiers, the header counts their distinct (directory, file name) pairs. */
  lemma HeaderCountsIdentifiers(identifiers: seq<string>)
    ensures TaskNameLines(Index(identifiers))[0] == HeaderLine(|Components(identifiers)|)
    ensures |Components(identifiers)| <= |identifiers|
  {
    IndexMeaning(identifiers);
    IndexSize(identifiers);
  }
}
