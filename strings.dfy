/** The one piece of .NET string handling the core relies on: `s.Split(sep)[0]`,
    the text before the first separator (or all of it when there is none). */
module Strings {

  /** `s.Split(sep)[0]`. */
  function FirstField(s: string, sep: char): (r: string)
    ensures sep !in r
    ensures r <= s
    ensures |r| < |s| ==> s[|r|] == sep
  {
    if |s| == 0 || s[0] == sep then [] else [s[0]] + FirstField(s[1..], sep)
  }

  /** The three properties above pin the field down: a separator-free prefix
      followed by the separator (or by the end of `s`) is the first field. */
  lemma {:induction false} FirstFieldUnique(s: string, sep: char, r: string)
    requires sep !in r && r <= s && (|r| < |s| ==> s[|r|] == sep)
    ensures FirstField(s, sep) == r
  {
    if |r| > 0 {
      assert r[1..] <= s[1..];
      FirstFieldUnique(s[1..], sep, r[1..]);
    }
  }

  /** Whatever follows a separator never changes the first field. */
  lemma FirstFieldIgnoresTail(a: string, rest: string, sep: char)
    requires |rest| > 0 && rest[0] == sep
    ensures FirstField(a + rest, sep) == FirstField(a, sep)
  {
    var r := FirstField(a, sep);
    assert (a + rest)[|a|] == sep;
    FirstFieldUnique(a + rest, sep, r);
  }

  /** A string without the separator is its own first field. */
  lemma WholeWhenNoSeparator(s: string, sep: char)
    requires sep !in s
    ensures FirstField(s, sep) == s
  {
    FirstFieldUnique(s, sep, s);
  }
}
