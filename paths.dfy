/**
 * Unix file-system paths as java.nio.file.Path treats them (parsing,
 * making absolute, lexical normalisation, relativisation, resolution), a
 * snapshot of the file system, and the conversion of a command-line argument
 * into an absolute path.
 */
module Paths {
  import opened Base
  import opened Strings

  /** A root ("" for a relative path, "/" on Unix) and the name elements. */
  datatype Path = Path(root: string, names: seq<string>)

  predicate IsAbsolute(p: Path)
  {
    p.root != ""
  }

  /** Paths.get rejects, on Unix, exactly the strings that hold a NUL character. */
  predicate ValidPathString(s: string)
  {
    '\0' !in s
  }

  function NonEmptyNames(pieces: seq<string>): (r: seq<string>)
    ensures forall i :: 0 <= i < |r| ==> r[i] != ""
  {
    if |pieces| == 0 then []
    else if pieces[0] == "" then NonEmptyNames(pieces[1..])
    else [pieces[0]] + NonEmptyNames(pieces[1..])
  }

  /** Paths.get(s): a leading '/' makes the path absolute; repeated and trailing '/' are dropped. */
  function Parse(s: string): Path
  {
    Path(if |s| > 0 && s[0] == '/' then "/" else "", NonEmptyNames(SplitAll(s, '/')))
  }

  /** Path.toAbsolutePath: a relative path is resolved against the working directory. */
  function ToAbsolute(p: Path, workingDirectory: Path): Path
  {
    if IsAbsolute(p) then p else Path(workingDirectory.root, workingDirectory.names + p.names)
  }

  /** Path.resolve(other): an absolute `other` replaces the base. */
  function Resolve(base: Path, other: string): Path
  {
    var q := Parse(other);
    if IsAbsolute(q) then q else Path(base.root, base.names + q.names)
  }

  /** Path.toString: the root followed by the names joined by '/'. */
  function ToString(p: Path): string
  {
    p.root + Join("/", p.names)
  }

  // ---------------------------------------------------------------------
  // Normalisation
  // ---------------------------------------------------------------------

  /** One name of Path.normalize: "." vanishes, ".." removes the preceding name where there is one. */
  function Step(absolute: bool, acc: seq<string>, name: string): seq<string>
  {
    if name == "" || name == "." then acc
    else if name == ".." then
      if |acc| > 0 && acc[|acc| - 1] != ".." then acc[..|acc| - 1]
      else if absolute then acc
      else acc + [".."]
    else acc + [name]
  }

  function NormalizeFrom(absolute: bool, acc: seq<string>, names: seq<string>): seq<string>
    decreases |names|
  {
    if |names| == 0 then acc else NormalizeFrom(absolute, Step(absolute, acc, names[0]), names[1..])
  }

  /** Path.normalize. */
  function Normalize(p: Path): Path
  {
    Path(p.root, NormalizeFrom(IsAbsolute(p), [], p.names))
  }

  /** A name that is neither empty, "." nor "..". */
  predicate PlainName(name: string)
  {
    name != "" && name != "." && name != ".."
  }

  /** Normal names: no "." and no empty name; ".." only in a leading run, and never in an absolute path. */
  predicate NormalNames(absolute: bool, names: seq<string>)
  {
    (forall i :: 0 <= i < |names| ==> names[i] != "" && names[i] != ".")
    && (forall i :: 0 <= i < |names| && names[i] == ".." ==> !absolute)
    && (forall i, j :: 0 <= j < i < |names| && names[i] == ".." ==> names[j] == "..")
  }

  predicate IsNormal(p: Path)
  {
    NormalNames(IsAbsolute(p), p.names)
  }

  function CommonPrefixLength(a: seq<string>, b: seq<string>): (k: nat)
    ensures k <= |a| && k <= |b| && a[..k] == b[..k]
    ensures k < |a| && k < |b| ==> a[k] != b[k]
  {
    if |a| == 0 || |b| == 0 || a[0] != b[0] then 0
    else
      var k := 1 + CommonPrefixLength(a[1..], b[1..]);
      assert a[..k] == [a[0]] + a[1..][..k - 1];
      assert b[..k] == [b[0]] + b[1..][..k - 1];
      k
  }

  function Repeat(name: string, n: nat): (r: seq<string>)
    ensures |r| == n && forall i :: 0 <= i < n ==> r[i] == name
  {
    if n == 0 then [] else [name] + Repeat(name, n - 1)
  }

  /**
   * base.relativize(target) for two paths of the same root: one ".." for each
   * name of the base beyond the common prefix, then the rest of the target.
   * Both operands are normalised first.
   */
  function Relativize(base: Path, target: Path): Path
  {
    var b := Normalize(base).names;
    var t := Normalize(target).names;
    var k := CommonPrefixLength(b, t);
    Path("", Repeat("..", |b| - k) + t[k..])
  }

  // ---------------------------------------------------------------------
  // File system and argument conversion
  // ---------------------------------------------------------------------

  datatype Kind = RegularFile | Directory

  /** What exists on disk, keyed by normalised absolute paths. */
  type Snapshot = map<Path, Kind>

  predicate Exists(fs: Snapshot, p: Path)
  {
    Normalize(p) in fs
  }

  predicate IsDirectory(fs: Snapshot, p: Path)
  {
    Normalize(p) in fs && fs[Normalize(p)] == Directory
  }

  /** The path itself and each of its ancestors up to the root. */
  function AncestorsOrSelf(p: Path): set<Path>
  {
    set i | 0 <= i <= |p.names| :: Path(p.root, p.names[..i])
  }

  predicate HasFileAncestorOrSelf(fs: Snapshot, p: Path)
  {
    exists q :: q in AncestorsOrSelf(p) && q in fs && fs[q] == RegularFile
  }

  /**
   * File.mkdirs: nothing changes when the path exists or when the path or an
   * ancestor is a regular file; otherwise the path and every missing
   * ancestor become directories.
   */
  function Mkdirs(fs: Snapshot, p: Path): Snapshot
  {
    var n := Normalize(p);
    if n in fs || HasFileAncestorOrSelf(fs, n) then fs
    else fs + map q | q in AncestorsOrSelf(n) :: Directory
  }

  /** The disk, as the output factory sees and changes it. */
  class FileSystem {
    var entries: Snapshot

    constructor (initial: Snapshot)
      ensures entries == initial
    {
      entries := initial;
    }

    method MakeDirectories(p: Path)
      modifies this
      ensures entries == Mkdirs(old(entries), p)
    {
      entries := Mkdirs(entries, p);
    }
  }

  function InvalidPathMessage(argument: string): string
  {
    "A path passed as an argument is invalid.\nArgument:\t" + argument
      + "\nError:\t\tNul character not allowed: " + argument
  }

  /** ArgumentConverter.pathFromArgument: Paths.get(argument).toAbsolutePath(). */
  function PathFromArgument(argument: string, workingDirectory: Path): (r: Result<Path>)
    ensures r.Ok? <==> ValidPathString(argument)
    ensures r.Ok? && IsAbsolute(workingDirectory) ==> IsAbsolute(r.value)
    ensures r.Err? ==> r.error == InvalidPathArgument(InvalidPathMessage(argument))
  {
    if ValidPathString(argument) then Ok(ToAbsolute(Parse(argument), workingDirectory))
    else Err(InvalidPathArgument(InvalidPathMessage(argument)))
  }

  // ---------------------------------------------------------------------
  // Properties of normalisation
  // ---------------------------------------------------------------------

  lemma {:induction false} StepKeepsNormal(absolute: bool, acc: seq<string>, name: string)
    requires NormalNames(absolute, acc)
    ensures NormalNames(absolute, Step(absolute, acc, name))
  {
    if name == ".." && !(|acc| > 0 && acc[|acc| - 1] != "..") && !absolute {
      var r := acc + [".."];
      forall i | 0 <= i < |acc| ensures acc[i] == ".." {
        assert acc[|acc| - 1] == "..";
      }
      assert forall i :: 0 <= i < |r| ==> r[i] == "..";
    }
  }

  lemma {:induction false} NormalizeFromKeepsNormal(absolute: bool, acc: seq<string>, names: seq<string>)
    requires NormalNames(absolute, acc)
    ensures NormalNames(absolute, NormalizeFrom(absolute, acc, names))
    decreases |names|
  {
    if |names| > 0 {
      StepKeepsNormal(absolute, acc, names[0]);
      NormalizeFromKeepsNormal(absolute, Step(absolute, acc, names[0]), names[1..]);
    }
  }

  /** Normalisation yields a normal path of the same root. */
  lemma NormalizeIsNormal(p: Path)
    ensures IsNormal(Normalize(p)) && Normalize(p).root == p.root
  {
    NormalizeFromKeepsNormal(IsAbsolute(p), [], p.names);
  }

  /** Normalising in two pieces is normalising the whole. */
  lemma {:induction false} NormalizeFromAppend(absolute: bool, acc: seq<string>, a: seq<string>, b: seq<string>)
    ensures NormalizeFrom(absolute, acc, a + b) == NormalizeFrom(absolute, NormalizeFrom(absolute, acc, a), b)
    decreases |a|
  {
    if |a| > 0 {
      assert (a + b)[0] == a[0] && (a + b)[1..] == a[1..] + b;
      NormalizeFromAppend(absolute, Step(absolute, acc, a[0]), a[1..], b);
    } else {
      assert a + b == b;
    }
  }

  /** Appending names that keep the sequence normal leaves them untouched. */
  lemma {:induction false} NormalizeFromNormal(absolute: bool, acc: seq<string>, names: seq<string>)
    requires NormalNames(absolute, acc + names)
    ensures NormalizeFrom(absolute, acc, names) == acc + names
    decreases |names|
  {
    var all := acc + names;
    if |names| > 0 {
      var x := names[0];
      assert all[|acc|] == x;
      if x == ".." {
        assert !absolute;
        assert forall j :: 0 <= j < |acc| ==> acc[j] == all[j] == "..";
      }
      assert Step(absolute, acc, x) == acc + [x];
      assert (acc + [x]) + names[1..] == all;
      NormalizeFromNormal(absolute, acc + [x], names[1..]);
    } else {
      assert all == acc;
    }
  }

  /** Normalising a normal path changes nothing; in particular normalising is idempotent. */
  lemma NormalizeOfNormal(p: Path)
    requires IsNormal(p)
    ensures Normalize(p) == p
  {
    assert [] + p.names == p.names;
    NormalizeFromNormal(IsAbsolute(p), [], p.names);
  }

  lemma NormalizeIdempotent(p: Path)
    ensures Normalize(Normalize(p)) == Normalize(p)
  {
    NormalizeIsNormal(p);
    NormalizeOfNormal(Normalize(p));
  }

  /** In an absolute normal path, each ".." removes the last name. */
  lemma {:induction false} ClimbAbsolute(acc: seq<string>, m: nat)
    requires NormalNames(true, acc) && m <= |acc|
    ensures NormalizeFrom(true, acc, Repeat("..", m)) == acc[..|acc| - m]
    decreases m
  {
    if m > 0 {
      var rest := Repeat("..", m);
      assert rest[0] == ".." && rest[1..] == Repeat("..", m - 1);
      assert acc[|acc| - 1] != "..";
      var shorter := acc[..|acc| - 1];
      assert Step(true, acc, "..") == shorter;
      ClimbAbsolute(shorter, m - 1);
      assert shorter[..|shorter| - (m - 1)] == acc[..|acc| - m];
    } else {
      assert acc[..|acc|] == acc;
    }
  }

  /** The relativised names: a run of ".." followed by the plain rest of the target. */
  lemma RelativizeShape(base: Path, target: Path)
    requires IsAbsolute(base) && IsAbsolute(target)
    ensures var b := Normalize(base).names;
            var t := Normalize(target).names;
            var k := CommonPrefixLength(b, t);
            Relativize(base, target).names == Repeat("..", |b| - k) + t[k..]
            && NormalNames(false, Relativize(base, target).names)
  {
    NormalizeIsNormal(base);
    NormalizeIsNormal(target);
    var b := Normalize(base).names;
    var t := Normalize(target).names;
    var k := CommonPrefixLength(b, t);
    var r := Repeat("..", |b| - k) + t[k..];
    assert forall i :: |b| - k <= i < |r| ==> r[i] == t[k + i - (|b| - k)];
  }

  /**
   * Resolving the relativised path against the base gives the target back:
   * relativisation inverts resolution for absolute paths of the same root.
   */
  lemma {:induction false} ResolveRelativize(base: Path, target: Path)
    requires IsAbsolute(base) && IsAbsolute(target) && base.root == target.root
    ensures Normalize(Path(base.root, Normalize(base).names + Relativize(base, target).names)) == Normalize(target)
  {
    NormalizeIsNormal(base);
    NormalizeIsNormal(target);
    RelativizeShape(base, target);
    var b := Normalize(base).names;
    var t := Normalize(target).names;
    var k := CommonPrefixLength(b, t);
    var dots := Repeat("..", |b| - k);
    var rest := t[k..];
    assert b + (dots + rest) == (b + dots) + rest;
    NormalizeFromAppend(true, [], b + dots, rest);
    NormalizeFromAppend(true, [], b, dots);
    assert [] + b == b;
    NormalizeFromNormal(true, [], b);
    ClimbAbsolute(b, |b| - k);
    assert b[..k] == t[..k];
    assert t[..k] + rest == t;
    NormalizeFromNormal(true, t[..k], rest);
  }

  /** After a successful mkdirs the path is a directory; a failed one changes nothing. */
  lemma MkdirsMakesDirectory(fs: Snapshot, p: Path)
    ensures !Exists(fs, p) && !HasFileAncestorOrSelf(fs, Normalize(p)) ==> IsDirectory(Mkdirs(fs, p), p)
    ensures HasFileAncestorOrSelf(fs, Normalize(p)) ==> Mkdirs(fs, p) == fs
  {
    var n := Normalize(p);
    assert n.names[..|n.names|] == n.names;
    assert n in AncestorsOrSelf(n);
    NormalizeIdempotent(p);
  }
}
