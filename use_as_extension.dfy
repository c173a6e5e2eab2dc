/**
 * UseAsExtension: the -i arguments taken as file extensions that filter the
 * input files. Each argument may hold several extensions separated by commas.
 */
module UseAsExtension {
  import opened Strings
  import opened Ordering

  function RemoveAnyLeadingPeriod(piece: string): string
  {
    if |piece| > 0 && piece[0] == '.' then piece[1..] else piece
  }

  /** Trimmed, without its leading period, lower-cased. */
  function NormalizeExtension(piece: string): string
  {
    ToLowerAscii(RemoveAnyLeadingPeriod(Trim(piece)))
  }

  function NormalizedPieces(pieces: seq<string>): set<string>
  {
    if |pieces| == 0 then {} else {NormalizeExtension(pieces[0])} + NormalizedPieces(pieces[1..])
  }

  /** The set of extensions the arguments name. */
  function ExtensionsOf(arguments: seq<string>): set<string>
  {
    if |arguments| == 0 then {}
    else NormalizedPieces(JavaSplit(arguments[0], ',')) + ExtensionsOf(arguments[1..])
  }

  /** splitAndNormalize: adds each normalised piece of each argument to a set, in order. */
  method SplitAndNormalize(arguments: seq<string>) returns (trie: set<string>)
    ensures trie == ExtensionsOf(arguments)
  {
    trie := {};
    var i := 0;
    while i < |arguments|
      invariant 0 <= i <= |arguments|
      invariant trie + ExtensionsOf(arguments[i..]) == ExtensionsOf(arguments)
    {
      assert arguments[i..][1..] == arguments[i + 1..];
      var pieces := JavaSplit(arguments[i], ',');
      var j := 0;
      while j < |pieces|
        invariant 0 <= j <= |pieces|
        invariant trie + NormalizedPieces(pieces[j..]) + ExtensionsOf(arguments[i + 1..]) == ExtensionsOf(arguments)
      {
        assert pieces[j..][1..] == pieces[j + 1..];
        trie := trie + {NormalizeExtension(pieces[j])};
        j := j + 1;
      }
      assert pieces[j..] == [];
      i := i + 1;
    }
    assert arguments[i..] == [];
  }

  /** describe: the extensions joined by ", ", in the set's sorted order. */
  function Describe(extensions: set<string>): string
  {
    Join(", ", SortedElements(extensions))
  }

  // ---------------------------------------------------------------------
  // Properties
  // ---------------------------------------------------------------------

  lemma {:induction false} NormalizedPiecesMembership(pieces: seq<string>, x: string)
    ensures x in NormalizedPieces(pieces) <==> exists j :: 0 <= j < |pieces| && x == NormalizeExtension(pieces[j])
  {
    if |pieces| > 0 {
      NormalizedPiecesMembership(pieces[1..], x);
      if x in NormalizedPieces(pieces[1..]) {
        var j :| 0 <= j < |pieces[1..]| && x == NormalizeExtension(pieces[1..][j]);
        assert pieces[j + 1] == pieces[1..][j];
      }
      if exists j :: 0 <= j < |pieces| && x == NormalizeExtension(pieces[j]) {
        var j :| 0 <= j < |pieces| && x == NormalizeExtension(pieces[j]);
        if j > 0 {
          assert pieces[1..][j - 1] == pieces[j];
        }
      }
    }
  }

  /** An extension is in the set exactly when some comma-separated piece of some argument normalises to it. */
  lemma {:induction false} ExtensionsMembership(arguments: seq<string>, x: string)
    ensures x in ExtensionsOf(arguments) <==>
              exists i, j :: 0 <= i < |arguments| && 0 <= j < |JavaSplit(arguments[i], ',')|
                             && x == NormalizeExtension(JavaSplit(arguments[i], ',')[j])
  {
    if |arguments| > 0 {
      ExtensionsMembership(arguments[1..], x);
      NormalizedPiecesMembership(JavaSplit(arguments[0], ','), x);
      if x in ExtensionsOf(arguments[1..]) {
        var i, j :| 0 <= i < |arguments[1..]| && 0 <= j < |JavaSplit(arguments[1..][i], ',')|
                    && x == NormalizeExtension(JavaSplit(arguments[1..][i], ',')[j]);
        assert arguments[i + 1] == arguments[1..][i];
      }
      if exists i, j :: 0 <= i < |arguments| && 0 <= j < |JavaSplit(arguments[i], ',')|
                        && x == NormalizeExtension(JavaSplit(arguments[i], ',')[j]) {
        var i, j :| 0 <= i < |arguments| && 0 <= j < |JavaSplit(arguments[i], ',')|
                    && x == NormalizeExtension(JavaSplit(arguments[i], ',')[j]);
        if i > 0 {
          assert arguments[1..][i - 1] == arguments[i];
        }
      }
    }
  }

  /** Upper case and a leading period do not matter: ".PNG" and "png" name the same extension. */
  lemma CaseAndPeriodInsensitive()
    ensures NormalizeExtension(".PNG") == NormalizeExtension("png") == "png"
  {
    assert Trim(".PNG") == ".PNG";
    assert Trim("png") == "png";
    assert RemoveAnyLeadingPeriod(".PNG") == "PNG";
  }
}
