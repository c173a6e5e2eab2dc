/**
 * FindTasks: the names of the predefined tasks, one per BeanXML file found
 * (recursively) in the tasks directory. A name is the file's path relative to
 * that directory, with '/' between elements and without the XML extension;
 * names under "include/" are left out.
 */
module FindTasks {
  import opened Base
  import opened Strings
  import opened Paths

  const XmlExtension := "xml"
  const IgnoreSubdirectory := "include/"

  predicate IsPeriodElement(name: string)
  {
    name == "." || name == ".."
  }

  /** The names after any leading run of "." and ".." elements. */
  function WithoutLeadingPeriods(names: seq<string>): (r: seq<string>)
    ensures |r| <= |names| && r == names[|names| - |r|..]
    ensures forall i :: 0 <= i < |names| - |r| ==> IsPeriodElement(names[i])
    ensures |r| > 0 ==> !IsPeriodElement(r[0])
    ensures (exists i :: 0 <= i < |names| && !IsPeriodElement(names[i])) ==> |r| > 0
  {
    if |names| > 0 && IsPeriodElement(names[0]) then
      var r := WithoutLeadingPeriods(names[1..]);
      assert forall i :: 1 <= i < |names| ==> names[i] == names[1..][i - 1];
      r
    else names
  }

  /**
   * removeLeadingPeriods: the sub-path from the first element that is
   * neither "." nor "..". The path must be relative and hold such an element.
   */
  method RemoveLeadingPeriods(path: Path) returns (r: Path)
    requires !IsAbsolute(path) && |path.names| > 0
    requires exists i :: 0 <= i < |path.names| && !IsPeriodElement(path.names[i])
    ensures r == Path("", WithoutLeadingPeriods(path.names))
    ensures |r.names| > 0 && !IsPeriodElement(r.names[0])
  {
    ghost var plain :| 0 <= plain < |path.names| && !IsPeriodElement(path.names[plain]);
    var firstNonPeriod := -1;
    var i := 0;
    while i < |path.names|
      invariant 0 <= i <= plain && firstNonPeriod == -1
      invariant forall j :: 0 <= j < i ==> IsPeriodElement(path.names[j])
    {
      if !IsPeriodElement(path.names[i]) {
        firstNonPeriod := i;
        break;
      }
      i := i + 1;
    }
    if firstNonPeriod == -1 {
      assert false;
    }
    FirstPlainElement(path.names, firstNonPeriod);
    r := Path("", path.names[firstNonPeriod..]);
  }

  /** When the first element that is not "." or ".." is at `i`, the names without leading periods start there. */
  lemma {:induction false} FirstPlainElement(names: seq<string>, i: nat)
    requires i < |names| && !IsPeriodElement(names[i])
    requires forall j :: 0 <= j < i ==> IsPeriodElement(names[j])
    ensures WithoutLeadingPeriods(names) == names[i..]
    decreases i
  {
    if i > 0 {
      assert names[1..][i - 1] == names[i];
      assert forall j :: 0 <= j < i - 1 ==> names[1..][j] == names[j + 1];
      FirstPlainElement(names[1..], i - 1);
      assert names[1..][i - 1..] == names[i..];
    }
  }

  /**
   * removeXmlExtension: drops the extension and the period before it. The
   * identifier must end with the extension and have a character before it.
   */
  function RemoveXmlExtension(identifier: string): (r: string)
    requires EndsWith(identifier, XmlExtension) && |identifier| > |XmlExtension|
    ensures |r| == |identifier| - |XmlExtension| - 1
    ensures r == identifier[..|r|]
  {
    identifier[..|identifier| - |XmlExtension| - 1]
  }

  /** A BeanXML file strictly inside the (normal, absolute) tasks directory `d`. */
  predicate IsTaskFile(d: Path, p: Path)
  {
    IsNormal(p) && p.root == d.root && |p.names| > |d.names| && p.names[..|d.names|] == d.names
    && EndsWith(p.names[|p.names| - 1], "." + XmlExtension)
  }

  /** taskIdentifier: relative to `d`, leading periods removed, '/'-separated, extension removed. */
  function TaskIdentifier(d: Path, p: Path): string
    requires IsNormal(d) && IsAbsolute(d) && IsTaskFile(d, p)
  {
    RelativeTaskPath(d, p);
    IdentifierOfRelative(Relativize(d, p))
  }

  /** The identifier of a relative path to a BeanXML file that has an element other than "." or "..". */
  function IdentifierOfRelative(relative: Path): string
    requires |relative.names| > 0 && EndsWith(relative.names[|relative.names| - 1], "." + XmlExtension)
    requires exists i :: 0 <= i < |relative.names| && !IsPeriodElement(relative.names[i])
  {
    var names := WithoutLeadingPeriods(relative.names);
    assert names[|names| - 1] == relative.names[|relative.names| - 1];
    UnixEndsWithExtension(names);
    RemoveXmlExtension(Join("/", names))
  }

  /** taskNames: the identifier of each BeanXML file under the tasks directory, except those under "include/". */
  function TaskNames(fs: Snapshot, tasksDirectory: Path, cwd: Path): set<string>
    requires IsAbsolute(cwd)
  {
    var d := TasksDirectoryNormalized(tasksDirectory, cwd);
    set p | p in fs && fs[p] == RegularFile && IsTaskFile(d, p) && !StartsWith(TaskIdentifier(d, p), IgnoreSubdirectory)
      :: TaskIdentifier(d, p)
  }

  /** The tasks directory, normalised and made absolute. */
  function TasksDirectoryNormalized(tasksDirectory: Path, cwd: Path): (d: Path)
    requires IsAbsolute(cwd)
    ensures IsNormal(d) && IsAbsolute(d)
  {
    NormalizeIsNormal(ToAbsolute(tasksDirectory, cwd));
    Normalize(ToAbsolute(tasksDirectory, cwd))
  }

  // ---------------------------------------------------------------------
  // Properties
  // ---------------------------------------------------------------------

  /** Relativised against the tasks directory, a task file's path meets what taskIdentifier demands. */
  lemma RelativeTaskPath(d: Path, p: Path)
    requires IsNormal(d) && IsAbsolute(d) && IsTaskFile(d, p)
    ensures var names := Relativize(d, p).names;
            |names| > 0 && EndsWith(names[|names| - 1], "." + XmlExtension) && !IsPeriodElement(names[0])
  {
    RelativizeDescendant(d, p);
    BelowStartsPlain(d, p);
    var below := p.names[|d.names|..];
    assert below[0] == p.names[|d.names|];
    assert below[|below| - 1] == p.names[|p.names| - 1];
  }

  /** Below the tasks directory, a task file's path starts with a plain name. */
  lemma BelowStartsPlain(d: Path, p: Path)
    requires IsAbsolute(d) && IsTaskFile(d, p)
    ensures !IsPeriodElement(p.names[|d.names|])
  {
    assert IsAbsolute(p);
  }

  /** Joining names whose last one carries the extension gives a string that carries it too. */
  lemma UnixEndsWithExtension(names: seq<string>)
    requires |names| > 0 && EndsWith(names[|names| - 1], "." + XmlExtension)
    ensures var unix := Join("/", names);
            EndsWith(unix, "." + XmlExtension) && EndsWith(unix, XmlExtension) && |unix| > |XmlExtension|
  {
    JoinEndsWithLast("/", names);
    var unix := Join("/", names);
    var last := names[|names| - 1];
    assert unix[|unix| - |last|..] == last;
    assert unix[|unix| - 4..] == last[|last| - 4..];
    assert unix[|unix| - 3..] == unix[|unix| - 4..][1..];
  }

  lemma RelativizeDescendant(d: Path, p: Path)
    requires IsNormal(d) && IsNormal(p) && |d.names| <= |p.names| && p.names[..|d.names|] == d.names
    ensures Relativize(d, p) == Path("", p.names[|d.names|..])
  {
    NormalizeOfNormal(d);
    NormalizeOfNormal(p);
    assert CommonPrefixLength(d.names, p.names) == |d.names|;
    assert Repeat("..", 0) == [];
  }

  lemma JoinEndsWithLast(separator: string, parts: seq<string>)
    requires |parts| > 0
    ensures EndsWith(Join(separator, parts), parts[|parts| - 1])
  {
    if |parts| > 1 {
      var init := parts[..|parts| - 1];
      assert parts == init + [parts[|parts| - 1]];
      JoinAppend(separator, init, parts[|parts| - 1]);
    }
  }

  /**
   * The identifier of a task file is its path below the tasks directory,
   * '/'-separated, with the extension and its period removed.
   */
  lemma TaskIdentifierMeaning(d: Path, p: Path)
    requires IsNormal(d) && IsAbsolute(d) && IsTaskFile(d, p)
    ensures TaskIdentifier(d, p) + "." + XmlExtension == Join("/", p.names[|d.names|..])
  {
    RelativizeDescendant(d, p);
    BelowStartsPlain(d, p);
    var below := p.names[|d.names|..];
    assert below[0] == p.names[|d.names|];
    assert below[|below| - 1] == p.names[|p.names| - 1];
    assert TaskIdentifier(d, p) == IdentifierOfRelative(Path("", below));
    RelativeIdentifierMeaning(below);
  }

  lemma RelativeIdentifierMeaning(names: seq<string>)
    requires |names| > 0 && EndsWith(names[|names| - 1], "." + XmlExtension) && !IsPeriodElement(names[0])
    ensures IdentifierOfRelative(Path("", names)) + "." + XmlExtension == Join("/", names)
  {
    var relative := Path("", names);
    assert !IsPeriodElement(relative.names[0]);
    assert WithoutLeadingPeriods(names) == names;
    UnixEndsWithExtension(names);
    var unix := Join("/", names);
    var r := RemoveXmlExtension(unix);
    assert IdentifierOfRelative(relative) == r;
    var suffix := "." + XmlExtension;
    assert unix[|r|..] == suffix;
    assert r == unix[..|r|];
    assert unix == unix[..|r|] + unix[|r|..];
    assert r + "." + XmlExtension == r + suffix;
  }

  /** Removing the extension undoes appending it. */
  lemma RemoveXmlExtensionOfAppended(name: string)
    ensures RemoveXmlExtension(name + "." + XmlExtension) == name
  {
    var s := name + "." + XmlExtension;
    assert s[|s| - |XmlExtension|..] == XmlExtension;
  }

  /**
   * A name is listed exactly when it names a BeanXML file below the tasks
   * directory (as a '/'-separated path without the extension) outside
   * "include/".
   */
  lemma TaskNamesMeaning(fs: Snapshot, tasksDirectory: Path, cwd: Path, name: string)
    requires IsAbsolute(cwd)
    ensures var d := TasksDirectoryNormalized(tasksDirectory, cwd);
            name in TaskNames(fs, tasksDirectory, cwd) <==>
              !StartsWith(name, IgnoreSubdirectory)
              && exists p :: p in fs && fs[p] == RegularFile && IsTaskFile(d, p)
                             && name + "." + XmlExtension == Join("/", p.names[|d.names|..])
  {
    var d := TasksDirectoryNormalized(tasksDirectory, cwd);
    if name in TaskNames(fs, tasksDirectory, cwd) {
      var p :| p in fs && fs[p] == RegularFile && IsTaskFile(d, p)
               && !StartsWith(TaskIdentifier(d, p), IgnoreSubdirectory) && name == TaskIdentifier(d, p);
      TaskIdentifierMeaning(d, p);
    }
    if !StartsWith(name, IgnoreSubdirectory)
       && exists p :: p in fs && fs[p] == RegularFile && IsTaskFile(d, p)
                      && name + "." + XmlExtension == Join("/", p.names[|d.names|..]) {
      var p :| p in fs && fs[p] == RegularFile && IsTaskFile(d, p)
               && name + "." + XmlExtension == Join("/", p.names[|d.names|..]);
      TaskIdentifierMeaning(d, p);
      IdentifierDeterminedByJoin(TaskIdentifier(d, p), name);
    }
  }

  lemma IdentifierDeterminedByJoin(a: string, b: string)
    requires a + "." + XmlExtension == b + "." + XmlExtension
    ensures a == b
  {
    assert |a| == |b|;
    assert a == (a + "." + XmlExtension)[..|a|];
    assert b == (b + "." + XmlExtension)[..|b|];
  }
}
