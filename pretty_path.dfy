/**
 * PrettyPathConverter: renders a path for display relative to a working
 * directory when that takes few enough "..", absolutely otherwise.
 */
module PrettyPathConverter {
  import opened Strings
  import opened Paths

  /** More ".." than this in the relative form and the absolute form is shown instead. */
  const MaxDoubleDotsCount: nat := 3

  function DoubleDotCount(names: seq<string>): nat
  {
    if |names| == 0 then 0
    else (if names[0] == ".." then 1 else 0) + DoubleDotCount(names[1..])
  }

  /** countDoubleDotsInRelativePath: walks the names, counting those equal to "..". */
  method CountDoubleDotsInRelativePath(path: Path) returns (count: nat)
    ensures count == DoubleDotCount(path.names)
    ensures count <= |path.names|
  {
    count := 0;
    var i := 0;
    while i < |path.names|
      invariant 0 <= i <= |path.names|
      invariant count + DoubleDotCount(path.names[i..]) == DoubleDotCount(path.names)
      invariant count <= i
    {
      assert path.names[i..][1..] == path.names[i + 1..];
      if path.names[i] == ".." {
        count := count + 1;
      }
      i := i + 1;
    }
    assert path.names[i..] == [];
  }

  /**
   * prettyPath(path, workingDirectory): both made absolute (against the
   * process directory `cwd`) and normalised; "." when they coincide; the
   * relative form when they share a root and it needs at most three "..";
   * the absolute normalised path otherwise.
   */
  function PrettyPath(path: Path, workingDirectory: Path, cwd: Path): string
  {
    var p := Normalize(ToAbsolute(path, cwd));
    var w := Normalize(ToAbsolute(workingDirectory, cwd));
    if w == p then "."
    else if w.root == p.root then
      var relative := Normalize(Relativize(w, p));
      if DoubleDotCount(relative.names) > MaxDoubleDotsCount then ToString(p) else ToString(relative)
    else ToString(p)
  }

  /** The public prettyPath(path): relative to the process working directory. */
  function PrettyPathFromWorkingDirectory(path: Path, cwd: Path): string
  {
    PrettyPath(path, cwd, cwd)
  }

  // ---------------------------------------------------------------------
  // Properties
  // ---------------------------------------------------------------------

  lemma {:induction false} DoubleDotCountAppend(a: seq<string>, b: seq<string>)
    ensures DoubleDotCount(a + b) == DoubleDotCount(a) + DoubleDotCount(b)
    decreases |a|
  {
    if |a| > 0 {
      assert (a + b)[1..] == a[1..] + b;
      DoubleDotCountAppend(a[1..], b);
    } else {
      assert a + b == b;
    }
  }

  lemma {:induction false} DoubleDotCountRepeat(n: nat)
    ensures DoubleDotCount(Repeat("..", n)) == n
  {
    if n > 0 {
      assert Repeat("..", n)[1..] == Repeat("..", n - 1);
      DoubleDotCountRepeat(n - 1);
    }
  }

  lemma {:induction false} DoubleDotCountNone(names: seq<string>)
    requires forall i :: 0 <= i < |names| ==> names[i] != ".."
    ensures DoubleDotCount(names) == 0
  {
    if |names| > 0 {
      DoubleDotCountNone(names[1..]);
    }
  }

  /**
   * For two absolute paths of the same root, the relative form climbs one ".."
   * per name of the working directory beyond the common prefix, and resolving
   * it against the working directory gives the path back.
   */
  lemma RelativeForm(path: Path, workingDirectory: Path)
    requires IsAbsolute(path) && IsAbsolute(workingDirectory) && path.root == workingDirectory.root
    ensures var p := Normalize(path).names;
            var w := Normalize(workingDirectory).names;
            var relative := Normalize(Relativize(workingDirectory, path));
            DoubleDotCount(relative.names) == |w| - CommonPrefixLength(w, p)
            && relative == Relativize(workingDirectory, path)
            && Normalize(Path(path.root, w + relative.names)) == Normalize(path)
  {
    NormalizeIsNormal(path);
    NormalizeIsNormal(workingDirectory);
    RelativizeShape(workingDirectory, path);
    var p := Normalize(path).names;
    var w := Normalize(workingDirectory).names;
    var k := CommonPrefixLength(w, p);
    var relative := Relativize(workingDirectory, path);
    NormalizeOfNormal(relative);
    DoubleDotCountAppend(Repeat("..", |w| - k), p[k..]);
    DoubleDotCountRepeat(|w| - k);
    DoubleDotCountNone(p[k..]);
    ResolveRelativize(workingDirectory, path);
  }

  /** A path and a working directory that normalise alike are shown as ".". */
  lemma PrettyPathIdentical(path: Path, workingDirectory: Path, cwd: Path)
    requires Normalize(ToAbsolute(path, cwd)) == Normalize(ToAbsolute(workingDirectory, cwd))
    ensures PrettyPath(path, workingDirectory, cwd) == "."
  {
  }

  /**
   * Paths of different roots, or needing more than three "..", are shown as
   * the absolute normalised path; otherwise as the relative form, which
   * resolves against the working directory to the same path.
   */
  lemma {:induction false} PrettyPathCases(path: Path, workingDirectory: Path, cwd: Path)
    requires IsAbsolute(cwd) || (IsAbsolute(path) && IsAbsolute(workingDirectory))
    ensures var p := Normalize(ToAbsolute(path, cwd));
            var w := Normalize(ToAbsolute(workingDirectory, cwd));
            var k := CommonPrefixLength(w.names, p.names);
            var r := PrettyPath(path, workingDirectory, cwd);
            && (w != p && w.root != p.root ==> r == ToString(p))
            && (w != p && w.root == p.root && |w.names| - k > MaxDoubleDotsCount ==> r == ToString(p))
            && (w != p && w.root == p.root && |w.names| - k <= MaxDoubleDotsCount ==>
                  r == Join("/", Repeat("..", |w.names| - k) + p.names[k..]))
  {
    var pa := ToAbsolute(path, cwd);
    var wa := ToAbsolute(workingDirectory, cwd);
    var p := Normalize(pa);
    var w := Normalize(wa);
    if w != p && w.root == p.root {
      NormalizeIsNormal(pa);
      NormalizeIsNormal(wa);
      NormalizeOfNormal(p);
      NormalizeOfNormal(w);
      RelativeForm(p, w);
      var k := CommonPrefixLength(w.names, p.names);
      var relative := Relativize(w, p);
    }
  }

  /** A path below the working directory is shown as the names below it. */
  lemma {:induction false} PrettyPathDescendant(workingDirectory: Path, below: seq<string>, cwd: Path)
    requires IsAbsolute(workingDirectory) && IsNormal(workingDirectory)
    requires |below| > 0 && forall i :: 0 <= i < |below| ==> PlainName(below[i])
    ensures PrettyPath(Path(workingDirectory.root, workingDirectory.names + below), workingDirectory, cwd)
            == Join("/", below)
  {
    var w := workingDirectory;
    var p := Path(w.root, w.names + below);
    assert NormalNames(true, p.names);
    NormalizeOfNormal(p);
    NormalizeOfNormal(w);
    var k := CommonPrefixLength(w.names, p.names);
    assert forall i :: 0 <= i < |w.names| ==> p.names[i] == w.names[i];
    assert k == |w.names|;
    assert p != w by {
      assert |p.names| != |w.names|;
    }
    PrettyPathCases(p, w, cwd);
    assert Repeat("..", 0) + p.names[k..] == below;
  }

  /** An ancestor at most three levels up is shown as that many "..". */
  lemma {:induction false} PrettyPathAncestor(path: Path, above: seq<string>, cwd: Path)
    requires IsAbsolute(path) && IsNormal(path)
    requires 0 < |above| <= MaxDoubleDotsCount && forall i :: 0 <= i < |above| ==> PlainName(above[i])
    ensures PrettyPath(path, Path(path.root, path.names + above), cwd) == Join("/", Repeat("..", |above|))
  {
    var p := path;
    var w := Path(p.root, p.names + above);
    assert NormalNames(true, w.names);
    NormalizeOfNormal(p);
    NormalizeOfNormal(w);
    var k := CommonPrefixLength(w.names, p.names);
    assert forall i :: 0 <= i < |p.names| ==> w.names[i] == p.names[i];
    assert k == |p.names|;
    assert p != w by {
      assert |p.names| != |w.names|;
    }
    PrettyPathCases(p, w, cwd);
    assert Repeat("..", |above|) + p.names[k..] == Repeat("..", |above|);
  }

  // ---------------------------------------------------------------------
  // The documented examples
  // ---------------------------------------------------------------------

  /** /a/b/c/d/e/f seen from /a/b/c/d is "e/f". */
  lemma BiggerAbsolute(cwd: Path)
    ensures PrettyPath(Path("/", ["a", "b", "c", "d", "e", "f"]), Path("/", ["a", "b", "c", "d"]), cwd) == "e/f"
  {
    var w := Path("/", ["a", "b", "c", "d"]);
    assert NormalNames(true, w.names);
    assert w.names + ["e", "f"] == ["a", "b", "c", "d", "e", "f"];
    PrettyPathDescendant(w, ["e", "f"], cwd);
    assert Join("/", ["e", "f"]) == "e/f";
  }

  /** /a/b/c/d seen from /a/b/c/d/e/f is "../..". */
  lemma SmallerAbsolute(cwd: Path)
    ensures PrettyPath(Path("/", ["a", "b", "c", "d"]), Path("/", ["a", "b", "c", "d", "e", "f"]), cwd) == "../.."
  {
    var p := Path("/", ["a", "b", "c", "d"]);
    assert NormalNames(true, p.names);
    assert p.names + ["e", "f"] == ["a", "b", "c", "d", "e", "f"];
    PrettyPathAncestor(p, ["e", "f"], cwd);
    assert Repeat("..", 2) == ["..", ".."];
    assert Join("/", ["..", ".."]) == "../..";
  }

  /** A path is shown as "." from itself, whatever its form. */
  lemma IdenticalRelative(path: Path, cwd: Path)
    ensures PrettyPath(path, path, cwd) == "."
  {
  }

  /** A relative run of ".." made absolute climbs that many levels from the process directory. */
  lemma {:induction false} ClimbFromWorkingDirectory(cwd: Path, m: nat)
    requires IsAbsolute(cwd) && IsNormal(cwd) && m <= |cwd.names|
    ensures Normalize(ToAbsolute(Path("", Repeat("..", m)), cwd)) == Path(cwd.root, cwd.names[..|cwd.names| - m])
  {
    NormalizeFromAppend(true, [], cwd.names, Repeat("..", m));
    assert [] + cwd.names == cwd.names;
    NormalizeFromNormal(true, [], cwd.names);
    ClimbAbsolute(cwd.names, m);
  }

  /**
   * "../../../" seen from "../../" is "..", when the process directory lies at
   * least three levels below the root.
   */
  lemma BiggerRelative(cwd: Path)
    requires IsAbsolute(cwd) && IsNormal(cwd) && |cwd.names| >= 3
    ensures PrettyPath(Path("", Repeat("..", 3)), Path("", Repeat("..", 2)), cwd) == ".."
  {
    var n := |cwd.names|;
    var up3 := Path(cwd.root, cwd.names[..n - 3]);
    var up2 := Path(cwd.root, cwd.names[..n - 2]);
    ClimbFromWorkingDirectory(cwd, 3);
    ClimbFromWorkingDirectory(cwd, 2);
    assert NormalNames(true, up3.names);
    assert up3.names + [cwd.names[n - 3]] == up2.names;
    PrettyPathAncestor(up3, [cwd.names[n - 3]], cwd);
    NormalizeOfNormal(up3);
    NormalizeOfNormal(up2);
    assert Repeat("..", 1) == [".."];
  }
}
