/**
 * TasksIndexer: indexes the task names by their directory component, as a
 * multimap with sorted keys and sorted, duplicate-free values. The multimap
 * is a map from each key to the set of its values.
 */
module TasksIndexer {
  import opened Strings
  import opened Paths

  type TaskIndex = map<string, set<string>>

  /** directoryComponent: the parent, '/'-separated, or "" when there is none. */
  function DirectoryComponent(identifier: string): string
  {
    ParentString(Parse(identifier))
  }

  /** fileNameComponent: the last name. */
  function FileNameComponent(identifier: string): string
  {
    LastName(Parse(identifier))
  }

  /** Path.getParent, as a string ("" when there is no parent). */
  function ParentString(path: Path): string
  {
    if |path.names| == 0 then ""
    else if |path.names| == 1 then path.root
    else ToString(Path(path.root, path.names[..|path.names| - 1]))
  }

  /** Path.getFileName, as a string ("" for a path without names). */
  function LastName(path: Path): string
  {
    if |path.names| == 0 then "" else path.names[|path.names| - 1]
  }

  /** Multimap.put */
  function Put(index: TaskIndex, key: string, value: string): (r: TaskIndex)
    ensures r.Keys == index.Keys + {key}
    ensures forall k :: k in index && k != key ==> r[k] == index[k]
    ensures r[key] == (if key in index then index[key] else {}) + {value}
  {
    index[key := (if key in index then index[key] else {}) + {value}]
  }

  /** The index of the identifiers, each put in turn. */
  function Index(identifiers: seq<string>): TaskIndex
    decreases |identifiers|
  {
    if |identifiers| == 0 then map[]
    else
      var last := identifiers[|identifiers| - 1];
      Put(Index(identifiers[..|identifiers| - 1]), DirectoryComponent(last), FileNameComponent(last))
  }

  /** indexBySubdirectory: puts each identifier under its directory component. */
  method IndexBySubdirectory(identifiers: seq<string>) returns (index: TaskIndex)
    ensures index == Index(identifiers)
  {
    index := map[];
    for i := 0 to |identifiers|
      invariant index == Index(identifiers[..i])
    {
      var identifier := identifiers[i];
      assert identifiers[..i + 1][..i] == identifiers[..i];
      index := Put(index, DirectoryComponent(identifier), FileNameComponent(identifier));
    }
    assert identifiers[..|identifiers|] == identifiers;
  }

  /** The key-value pairs of the multimap. */
  function Pairs(index: TaskIndex): set<(string, string)>
  {
    set k, v | k in index && v in index[k] :: (k, v)
  }

  /** The (directory, file name) pair of each identifier. */
  function Components(identifiers: seq<string>): set<(string, string)>
  {
    set i | 0 <= i < |identifiers| :: (DirectoryComponent(identifiers[i]), FileNameComponent(identifiers[i]))
  }

  // ---------------------------------------------------------------------
  // Properties
  // ---------------------------------------------------------------------

  lemma PutPairs(index: TaskIndex, key: string, value: string)
    ensures Pairs(Put(index, key, value)) == Pairs(index) + {(key, value)}
  {
    var r := Put(index, key, value);
    forall x | x in Pairs(r) ensures x in Pairs(index) + {(key, value)} {
      var (k, v) := x;
      assert k in r && v in r[k];
    }
    forall x | x in Pairs(index) + {(key, value)} ensures x in Pairs(r) {
      var (k, v) := x;
      if x != (key, value) {
        assert k in index && v in index[k];
        assert k in r && v in r[k];
      } else {
        assert k in r && v in r[k];
      }
    }
  }

  /**
   * The index holds exactly the (directory, file name) pair of each
   * identifier, whatever their order and however often they repeat, and
   * no key without a value.
   */
  lemma {:induction false} IndexMeaning(identifiers: seq<string>)
    ensures Pairs(Index(identifiers)) == Components(identifiers)
    ensures forall k :: k in Index(identifiers) ==> Index(identifiers)[k] != {}
    decreases |identifiers|
  {
    if |identifiers| > 0 {
      var n := |identifiers| - 1;
      var init := identifiers[..n];
      var last := identifiers[n];
      IndexMeaning(init);
      PutPairs(Index(init), DirectoryComponent(last), FileNameComponent(last));
      ComponentsAppend(identifiers);
    }
  }

  lemma ComponentsAppend(identifiers: seq<string>)
    requires |identifiers| > 0
    ensures var n := |identifiers| - 1;
            Components(identifiers)
            == Components(identifiers[..n]) + {(DirectoryComponent(identifiers[n]), FileNameComponent(identifiers[n]))}
  {
    var n := |identifiers| - 1;
    var init := identifiers[..n];
    var last := identifiers[n];
    forall x | x in Components(identifiers)
      ensures x in Components(init) + {(DirectoryComponent(last), FileNameComponent(last))}
    {
      var i :| 0 <= i < |identifiers| && x == (DirectoryComponent(identifiers[i]), FileNameComponent(identifiers[i]));
      if i < n {
        assert init[i] == identifiers[i];
      }
    }
    forall x | x in Components(init) ensures x in Components(identifiers) {
      var i :| 0 <= i < |init| && x == (DirectoryComponent(init[i]), FileNameComponent(init[i]));
      assert identifiers[i] == init[i];
    }
  }

  /** The size of the index (its number of pairs) is at most the number of identifiers. */
  lemma {:induction false} IndexSize(identifiers: seq<string>)
    ensures |Pairs(Index(identifiers))| <= |identifiers|
    decreases |identifiers|
  {
    if |identifiers| > 0 {
      var n := |identifiers| - 1;
      var last := identifiers[n];
      IndexSize(identifiers[..n]);
      PutPairs(Index(identifiers[..n]), DirectoryComponent(last), FileNameComponent(last));
    }
  }

  /**
   * The directory component, a '/' and the file name give back the
   * identifier as a path prints it; a single name has no directory.
   */
  lemma ComponentsRebuildIdentifier(identifier: string)
    ensures var path := Parse(identifier);
            && (|path.names| >= 2 ==>
                  DirectoryComponent(identifier) + "/" + FileNameComponent(identifier) == ToString(path))
            && (|path.names| == 1 && !IsAbsolute(path) ==>
                  DirectoryComponent(identifier) == "" && FileNameComponent(identifier) == ToString(path))
  {
    ComponentsRebuildPath(Parse(identifier));
  }

  lemma ComponentsRebuildPath(path: Path)
    ensures |path.names| >= 2 ==> ParentString(path) + "/" + LastName(path) == ToString(path)
    ensures |path.names| == 1 && !IsAbsolute(path) ==> ParentString(path) == "" && LastName(path) == ToString(path)
  {
    if |path.names| >= 2 {
      var n := |path.names| - 1;
      assert path.names == path.names[..n] + [path.names[n]];
      JoinAppend("/", path.names[..n], path.names[n]);
    }
  }
}
