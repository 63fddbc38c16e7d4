/**
 The public-route matcher: a fixed list of path patterns, and the test that a
 request path matches one of them.

 Modelling assumption: the library matcher compiles each pattern to a path
 regular expression whose internals are not part of this model. Here a plain
 pattern matches exactly its own path, and a pattern ending in `(.*)` matches
 every path that starts with the text before `(.*)`.
 */
module RouteMatcher {

  /** A route pattern: `Exact("/")` for "/", `AnySuffix("/sign-in")` for "/sign-in(.*)". */
  datatype Pattern = Exact(path: string) | AnySuffix(prefix: string)

  /** JavaScript's `s.startsWith(prefix)`. */
  predicate StartsWith(s: string, prefix: string) {
    |prefix| <= |s| && s[..|prefix|] == prefix
  }

  predicate Matches(pattern: Pattern, path: string) {
    match pattern
    case Exact(p) => path == p
    case AnySuffix(p) => StartsWith(path, p)
  }

  /** True when some pattern of the list matches the path. */
  function MatchesAny(patterns: seq<Pattern>, path: string): (b: bool)
    ensures b <==> exists i :: 0 <= i < |patterns| && Matches(patterns[i], path)
  {
    if patterns == [] then false
    else if Matches(patterns[0], path) then true
    else
      var rest := MatchesAny(patterns[1..], path);
      assert forall i :: 1 <= i < |patterns| ==> patterns[i] == patterns[1..][i - 1];
      rest
  }

  /** The public routes, in the order they are listed. */
  const PublicPatterns: seq<Pattern> := [
    Exact("/"),
    AnySuffix("/sign-in"),
    AnySuffix("/sign-up"),
    Exact("/api/webhook/register")
  ]

  /** A path is public when one of the public route patterns matches it. */
  function IsPublic(path: string): (b: bool)
    ensures b <==> path == "/" || StartsWith(path, "/sign-in") || StartsWith(path, "/sign-up")
                   || path == "/api/webhook/register"
  {
    assert Matches(PublicPatterns[0], path) <==> path == "/";
    assert Matches(PublicPatterns[1], path) <==> StartsWith(path, "/sign-in");
    assert Matches(PublicPatterns[2], path) <==> StartsWith(path, "/sign-up");
    assert Matches(PublicPatterns[3], path) <==> path == "/api/webhook/register";
    MatchesAny(PublicPatterns, path)
  }

  /** No path beginning with "/admin" is public; in particular no admin page is reachable unauthenticated. */
  lemma AdminPrefixNotPublic(path: string)
    requires StartsWith(path, "/admin")
    ensures !IsPublic(path)
  {
    assert path[1] == "/admin"[1] == 'a';
    assert path[2] == "/admin"[2] == 'd';
    assert path != "/" by { assert |path| >= 6; }
    assert path != "/api/webhook/register" by { assert "/api/webhook/register"[2] == 'p'; }
    assert !StartsWith(path, "/sign-in") by { assert "/sign-in"[1] == 's'; }
    assert !StartsWith(path, "/sign-up") by { assert "/sign-up"[1] == 's'; }
  }
}
