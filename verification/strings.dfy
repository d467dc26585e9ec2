/** The two string helpers of Go's `strings` package the controller relies on:
    `HasSuffix` and `TrimSuffix`. Strings are sequences of characters. */
module Strings {

  predicate HasSuffix(s: string, suffix: string) {
    |suffix| <= |s| && s[|s| - |suffix|..] == suffix
  }

  /** `strings.TrimSuffix`: strip `suffix` once when present, otherwise
      return `s` unchanged. */
  function TrimSuffix(s: string, suffix: string): (r: string)
    ensures HasSuffix(s, suffix) ==> r + suffix == s
    ensures !HasSuffix(s, suffix) ==> r == s
    ensures |r| <= |s|
  {
    if HasSuffix(s, suffix) then s[..|s| - |suffix|] else s
  }

  /** Trimming undoes appending. */
  lemma TrimAfterAppend(s: string, suffix: string)
    ensures TrimSuffix(s + suffix, suffix) == s
  {
  }
}
