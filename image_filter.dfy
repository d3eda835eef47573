/**
 * `ImageSelectionFilter`: the file chooser filter of the open dialog. A directory is
 * always shown; a file is shown when its name matches the Java regular expression
 * `.*(.png)` as a whole, where `.` is any character but a line terminator.
 */
module ImageFilter {
  import opened Text

  /** The characters `.` does not match without the DOTALL flag. */
  predicate LineTerminator(c: char) {
    c == '\n' || c == '\r' || c == '\U{85}' || c == '\U{2028}' || c == '\U{2029}'
  }

  predicate Dot(c: char) { !LineTerminator(c) }

  /** `name.matches(".*(.png)")` by the regex's own reading: the name splits into a part
      `.*` matches, one character `.` matches, and the literal "png". */
  predicate RegexMatches(name: string) {
    exists k | 0 <= k && k + 4 <= |name| ::
      && (forall i | 0 <= i < k :: Dot(name[i]))
      && Dot(name[k])
      && name[k + 1..] == "png"
  }

  /** `accept(f)`: directories always; files by the name predicate, stated directly. */
  function Accept(isDirectory: bool, name: string): (b: bool)
  {
    isDirectory || (|name| >= 4 && EndsWith(name, "png") && forall i | 0 <= i < |name| - 3 :: Dot(name[i]))
  }

  /** The direct statement is the regular expression: a name is accepted exactly when it is
      at least four characters, ends in "png" and has no line terminator before that. */
  lemma AcceptIsRegex(name: string)
    ensures Accept(false, name) <==> RegexMatches(name)
  {
    if Accept(false, name) {
      var k := |name| - 4;
      assert name[k + 1..] == name[|name| - 3..];
      assert (forall i | 0 <= i < k :: Dot(name[i])) && Dot(name[k]) && name[k + 1..] == "png";
    }
    if RegexMatches(name) {
      var k :| 0 <= k && k + 4 <= |name| && (forall i | 0 <= i < k :: Dot(name[i])) && Dot(name[k])
               && name[k + 1..] == "png";
      assert |name[k + 1..]| == 3;
      assert k == |name| - 4;
      assert name[|name| - 3..] == name[k + 1..];
    }
  }

  /** Directories are always shown. */
  lemma DirectoriesAccepted(name: string)
    ensures Accept(true, name)
  {
  }

  /** The character before "png" can be anything but a line terminator, the bare "png" is
      too short, and matching is case-sensitive. */
  lemma AcceptExamples()
    ensures Accept(false, "a.png") && Accept(false, "xpng")
    ensures !Accept(false, "png") && !Accept(false, "A.PNG") && !Accept(false, "a\npng")
  {
    assert "A.PNG"[2..] == "PNG";
    assert "a\npng"[0..2][1] == '\n';
  }

  /** `getDescription()`. */
  function Description(): (d: string)
    ensures |d| > 0
  {
    "PNG Image files"
  }
}
