/**
 * ExtensionHelper: how an argument to -i is recognised as a file extension
 * or as a path to a BeanXML file.
 */
module ExtensionHelper {
  import opened Strings

  /**
   * The BeanXML file format's test of a path: the name ends with ".xml",
   * ignoring ASCII case.
   */
  predicate HasXmlExtension(argument: string)
  {
    EndsWith(ToLowerAscii(argument), ".xml")
  }

  predicate StartsWithPeriod(argument: string)
  {
    StartsWith(argument, ".")
  }

  predicate IsDirectoryChange(argument: string)
  {
    argument == "." || argument == ".."
  }

  predicate IsFileSeparator(argument: string)
  {
    '/' in argument || '\\' in argument
  }

  /** Starts with a period, is not "." or "..", and holds no file separator. */
  predicate IsFileExtension(argument: string)
  {
    StartsWithPeriod(argument) && !IsFileSeparator(argument) && !IsDirectoryChange(argument)
  }

  /** An extension is a period followed by at least one character, none of them a separator. */
  lemma FileExtensionShape(argument: string)
    ensures IsFileExtension(argument) <==>
              |argument| >= 2 && argument[0] == '.' && argument != ".."
              && forall i :: 0 <= i < |argument| ==> argument[i] != '/' && argument[i] != '\\'
  {
    if |argument| == 1 && argument[0] == '.' {
      assert argument == ".";
    }
  }
}
