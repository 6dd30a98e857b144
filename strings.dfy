/** String predicates shared by the preset checks and the key renaming. */
module Strings {
  /** Python's `s.startswith(p)`. */
  predicate StartsWith(s: string, p: string) {
    |p| <= |s| && s[..|p|] == p
  }
}
