/**
 * String predicates shared by the modules: JavaScript truthiness of an
 * optional string, prefixes and absent characters.
 */
module Strings {
  import opened Wrappers

  /**
   * JavaScript truthiness of an optional string, as used by `!path` and
   * `field && <jsx>`: an absent value and the empty string are both falsy.
   */
  predicate Truthy(s: Option<string>) {
    s.Some? && s.value != ""
  }

  /** No character of `s` is `c`. */
  predicate Excludes(s: string, c: char) {
    forall k | 0 <= k < |s| :: s[k] != c
  }

  /** `prefix` is an initial segment of `s`. */
  predicate HasPrefix(s: string, prefix: string) {
    |prefix| <= |s| && s[..|prefix|] == prefix
  }
}
