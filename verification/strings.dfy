/** Facts about strings used to state what error messages mention. */
module Strings {

  /** `prefix` is an initial segment of `s`. */
  predicate StartsWith(s: string, prefix: string) {
    |prefix| <= |s| && s[..|prefix|] == prefix
  }

  /** `needle` occurs somewhere in `s` as a contiguous piece. */
  ghost predicate Contains(s: string, needle: string) {
    exists i :: 0 <= i <= |s| && StartsWith(s[i..], needle)
  }

  /** A string built around `needle` contains it. */
  lemma ContainsInfix(prefix: string, needle: string, suffix: string)
    ensures Contains(prefix + needle + suffix, needle)
  {
    var s := prefix + needle + suffix;
    assert s[|prefix|..][..|needle|] == needle;
    assert StartsWith(s[|prefix|..], needle);
  }

  /** A string ending in `needle` contains it. */
  lemma ContainsSuffix(prefix: string, needle: string)
    ensures Contains(prefix + needle, needle)
  {
    ContainsInfix(prefix, needle, "");
    assert prefix + needle + "" == prefix + needle;
  }
}
