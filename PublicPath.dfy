/**
 * Public-asset path resolution (src/utils/resolvePublicPath.ts): an absent or
 * empty path resolves to the empty string; any other path loses its leading
 * slashes and is placed under the build's base URL.
 */
module PublicPath {
  import opened Wrappers
  import opened Strings

  /**
   * The `base` option of vite.config.ts, which Vite exposes to the code as
   * `import.meta.env.BASE_URL`. It is the single literal
   * "/https://github.com/brady-world2024/cosmic-portfolio.git/", written here
   * in two pieces so that the verifier can index into it.
   */
  const BaseUrl: string := "/https://github.com/" + "brady-world2024/cosmic-portfolio.git/"

  predicate StartsWithSlash(s: string) {
    |s| > 0 && s[0] == '/'
  }

  predicate AllSlashes(s: string) {
    forall i | 0 <= i < |s| :: s[i] == '/'
  }

  /** `n` slash characters. */
  function Slashes(n: nat): (r: string)
    ensures |r| == n && AllSlashes(r)
  {
    if n == 0 then "" else "/" + Slashes(n - 1)
  }

  /**
   * `t` is what is left of `s` once its whole run of leading slashes is
   * removed: a suffix of `s`, the part before it made of slashes only, and
   * itself not starting with a slash.
   */
  ghost predicate IsSlashStripped(s: string, t: string) {
    && |t| <= |s|
    && t == s[|s| - |t|..]
    && AllSlashes(s[..|s| - |t|])
    && !StartsWithSlash(t)
  }

  /** The regular-expression replacement of `^\/+` by the empty string. */
  function StripLeadingSlashes(s: string): (r: string)
    ensures IsSlashStripped(s, r)
  {
    if StartsWithSlash(s) then StripLeadingSlashes(s[1..]) else s
  }

  /** Only one string is `s` with its leading slashes removed. */
  lemma {:induction false} SlashStrippedUnique(s: string, t: string)
    requires IsSlashStripped(s, t)
    ensures t == StripLeadingSlashes(s)
  {
  }

  /** Removing leading slashes from a string that has none changes nothing. */
  lemma {:induction false} StripKeepsUnslashed(s: string)
    requires !StartsWithSlash(s)
    ensures StripLeadingSlashes(s) == s
  {
    SlashStrippedUnique(s, s);
  }

  /** The strip is idempotent. */
  lemma {:induction false} StripIdempotent(s: string)
    ensures StripLeadingSlashes(StripLeadingSlashes(s)) == StripLeadingSlashes(s)
  {
    StripKeepsUnslashed(StripLeadingSlashes(s));
  }

  /** One more leading slash does not change the strip. */
  lemma StripConsSlash(t: string)
    ensures StripLeadingSlashes("/" + t) == StripLeadingSlashes(t)
  {
    assert StartsWithSlash("/" + t) && ("/" + t)[1..] == t;
  }

  /** Peels one slash off the front of `n` slashes followed by `s`. */
  lemma SlashesUnfold(n: nat, s: string)
    requires n > 0
    ensures Slashes(n) + s == "/" + (Slashes(n - 1) + s)
  {
    assert Slashes(n) == "/" + Slashes(n - 1);
  }

  /** However many slashes precede `s`, the strip gives the same string. */
  lemma {:induction false} StripIgnoresSlashCount(n: nat, s: string)
    ensures StripLeadingSlashes(Slashes(n) + s) == StripLeadingSlashes(s)
  {
    if n == 0 {
      assert Slashes(n) + s == s;
    } else {
      var t := Slashes(n - 1) + s;
      calc {
        StripLeadingSlashes(Slashes(n) + s);
        { SlashesUnfold(n, s); }
        StripLeadingSlashes("/" + t);
        { StripConsSlash(t); }
        StripLeadingSlashes(t);
        { StripIgnoresSlashCount(n - 1, s); }
        StripLeadingSlashes(s);
      }
    }
  }

  /** A string of slashes only strips to the empty string. */
  lemma {:induction false} StripAllSlashes(s: string)
    requires AllSlashes(s)
    ensures StripLeadingSlashes(s) == ""
  {
    SlashStrippedUnique(s, "");
  }

  /** Interior and trailing characters survive: the strip removes exactly the leading run of slashes. */
  lemma {:induction false} StripPreservesRest(s: string, k: nat)
    requires k <= |s| && AllSlashes(s[..k]) && !StartsWithSlash(s[k..])
    ensures StripLeadingSlashes(s) == s[k..]
  {
    SlashStrippedUnique(s, s[k..]);
  }

  /**
   * `resolvePublicPath(path)` under the base URL `base`. `path` is `None` for
   * `undefined`; `!path` holds for `undefined` and for "".
   */
  function ResolvePublicPath(base: string, path: Option<string>): (r: string)
    ensures !Truthy(path) ==> r == ""
    ensures Truthy(path) ==> HasPrefix(r, base) && IsSlashStripped(path.value, r[|base|..])
  {
    if !Truthy(path) then ""
    else
      var clean := StripLeadingSlashes(path.value);
      assert (base + clean)[|base|..] == clean;
      base + clean
  }

  /** For a non-empty path, the result is the base followed by the path without its leading slashes. */
  lemma ResolveIsBaseThenStripped(base: string, s: string)
    requires s != ""
    ensures ResolvePublicPath(base, Some(s)) == base + StripLeadingSlashes(s)
  {
    var r := ResolvePublicPath(base, Some(s));
    SlashStrippedUnique(s, r[|base|..]);
    assert r == r[..|base|] + r[|base|..];
  }

  /** "a", "/a", "//a", ... all resolve alike. */
  lemma ResolveIgnoresSlashCount(base: string, n: nat, s: string)
    requires s != ""
    ensures ResolvePublicPath(base, Some(Slashes(n) + s)) == ResolvePublicPath(base, Some(s))
  {
    ResolveIsBaseThenStripped(base, s);
    ResolveIsBaseThenStripped(base, Slashes(n) + s);
    StripIgnoresSlashCount(n, s);
  }

  /**
   * A non-empty path of slashes only resolves to the base itself, unlike the
   * empty path, which resolves to "".
   */
  lemma ResolveOnlySlashes(base: string, s: string)
    requires s != "" && AllSlashes(s)
    ensures ResolvePublicPath(base, Some(s)) == base
  {
    ResolveIsBaseThenStripped(base, s);
    StripAllSlashes(s);
  }

  /** A non-empty path without a leading slash is appended to the base unchanged. */
  lemma ResolveUnslashed(base: string, s: string)
    requires s != "" && !StartsWithSlash(s)
    ensures ResolvePublicPath(base, Some(s)) == base + s
  {
    ResolveIsBaseThenStripped(base, s);
    StripKeepsUnslashed(s);
  }

  /** Resolving an already-stripped non-empty path gives the same result as resolving the original. */
  lemma ResolveOfStripped(base: string, s: string)
    requires StripLeadingSlashes(s) != ""
    ensures ResolvePublicPath(base, Some(StripLeadingSlashes(s))) == ResolvePublicPath(base, Some(s))
  {
    ResolveIsBaseThenStripped(base, s);
    ResolveIsBaseThenStripped(base, StripLeadingSlashes(s));
    StripIdempotent(s);
  }

  /**
   * Under the configured base, which ends in a slash, a resolved path has
   * exactly one slash where the base and the stripped path meet.
   */
  lemma ResolvedJoinHasOneSlash(path: Option<string>)
    requires Truthy(path)
    ensures var r := ResolvePublicPath(BaseUrl, path);
      HasPrefix(r, BaseUrl) && r[|BaseUrl| - 1] == '/' && !StartsWithSlash(r[|BaseUrl|..])
  {
  }
}
