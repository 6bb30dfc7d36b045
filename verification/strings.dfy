/** The two `java.lang.String` operations the finder relies on. */
module Strings {

  /** `s.startsWith(prefix)`. */
  predicate StartsWith(s: string, prefix: string)
  {
    |prefix| <= |s| && s[..|prefix|] == prefix
  }

  /** `s.substring(prefix.length())` for a string known to start with `prefix`:
      the text that follows the prefix. */
  function After(s: string, prefix: string): (rest: string)
    requires StartsWith(s, prefix)
    ensures prefix + rest == s
    ensures |rest| == |s| - |prefix|
  {
    s[|prefix|..]
  }

  /** Putting a prefix in front of any text and then taking it off again
      gives back that text. */
  lemma AfterConcat(prefix: string, rest: string)
    ensures StartsWith(prefix + rest, prefix)
    ensures After(prefix + rest, prefix) == rest
  {
    assert (prefix + rest)[..|prefix|] == prefix;
  }
}
