/**
 * The request middleware: it classifies a path as public or protected, lets
 * every request through either way (authentication is left to the client),
 * and runs only on paths its matcher pattern selects.
 */
module Middleware {
  import opened Constants

  predicate StartsWith(s: string, prefix: string)
  {
    |prefix| <= |s| && s[..|prefix|] == prefix
  }

  /** The middleware's own list of public paths. */
  const PublicPaths: seq<string> := ["/", "/login"]

  /** `paths.some(p => path === p || path.startsWith('/api/'))`, element by element. */
  function AnyPublic(paths: seq<string>, path: string): bool
  {
    if paths == [] then false
    else path == paths[0] || StartsWith(path, "/api/") || AnyPublic(paths[1..], path)
  }

  /** isPublic */
  function IsPublic(path: string): bool
  {
    AnyPublic(PublicPaths, path)
  }

  /** The test over a list holds exactly for its members, and for every API path when the list is not empty. */
  lemma {:induction false} AnyPublicMeaning(paths: seq<string>, path: string)
    ensures AnyPublic(paths, path) <==> path in paths || (paths != [] && StartsWith(path, "/api/"))
  {
    if paths != [] {
      AnyPublicMeaning(paths[1..], path);
      assert paths == [paths[0]] + paths[1..];
    }
  }

  /** A path is public exactly when it is "/" or "/login", or begins with "/api/". */
  lemma IsPublicMeaning(path: string)
    ensures IsPublic(path) <==> path == "/" || path == "/login" || StartsWith(path, "/api/")
  {
    AnyPublicMeaning(PublicPaths, path);
  }

  /** The comparison is exact: a trailing slash, or the API prefix without its slash, is not public. */
  lemma PublicIsExact()
    ensures !IsPublic("/login/") && !IsPublic("/api") && !IsPublic("/dashboard")
    ensures IsPublic("/api/transactions") && IsPublic("/login")
  {
    IsPublicMeaning("/login/");
    IsPublicMeaning("/api");
    IsPublicMeaning("/dashboard");
    IsPublicMeaning("/api/transactions");
    IsPublicMeaning("/login");
    assert "/login/"[..5][1] == 'l';
    assert "/dashboard"[..5][1] == 'd';
    assert "/api/transactions"[..5] == "/api/";
  }

  /** The middleware's public list is the application's public route table. */
  lemma PublicPathsAgree()
    ensures PublicPaths == PublicRoutes
  {
  }

  /** What the middleware does with a request. */
  datatype Outcome = Next | Redirect(location: string)

  /** The middleware: public or not, the request goes on unchanged. */
  function Handle(path: string): (r: Outcome)
    ensures r == Next
  {
    if IsPublic(path) then Next else Next
  }

  /** The alternatives of the matcher's negative lookahead. */
  const ExcludedPatterns: seq<string> := ["_next/static", "_next/image", "favicon.ico", "public", "icons", "manifest.json"]

  /** Characters a regular-expression dot does not match. */
  predicate IsLineTerminator(c: char)
  {
    c == '\n' || c == '\r' || c == '\U{2028}' || c == '\U{2029}'
  }

  /** The pattern matches at the start of s; an unescaped '.' in the pattern matches any character but a line terminator. */
  predicate PatternAt(pattern: string, s: string)
  {
    |pattern| <= |s| &&
    forall i :: 0 <= i < |pattern| ==>
      if pattern[i] == '.' then !IsLineTerminator(s[i]) else s[i] == pattern[i]
  }

  /**
   * The matcher `/((?!_next/static|...|manifest.json).*)`, anchored at both
   * ends: a leading slash, no excluded pattern right after it, and a rest
   * without line terminators.
   */
  predicate Matches(path: string)
  {
    |path| >= 1 && path[0] == '/' &&
    (forall k :: 0 <= k < |ExcludedPatterns| ==> !PatternAt(ExcludedPatterns[k], path[1..])) &&
    (forall i :: 1 <= i < |path| ==> !IsLineTerminator(path[i]))
  }

  /**
   * Skipping is decided by how a path begins: whatever follows a skipped
   * path, it stays skipped, so everything under '/_next/static/' is.
   */
  lemma SkippedPrefixClosed(path: string, rest: string)
    requires path != [] && !Matches(path)
    ensures !Matches(path + rest)
  {
    var p := path + rest;
    assert p[0] == path[0];
    if path[0] == '/' {
      if k :| 0 <= k < |ExcludedPatterns| && PatternAt(ExcludedPatterns[k], path[1..]) {
        var pat := ExcludedPatterns[k];
        forall i | 0 <= i < |pat| ensures p[1..][i] == path[1..][i] {
        }
        assert PatternAt(pat, p[1..]);
      } else {
        var i :| 1 <= i < |path| && IsLineTerminator(path[i]);
        assert p[i] == path[i];
      }
    }
  }

  /** No excluded pattern starts with a character other than '_', 'f', 'p', 'i' or 'm'. */
  lemma OtherFirstCharacter(s: string)
    requires s != [] && s[0] !in {'_', 'f', 'p', 'i', 'm'}
    ensures forall k :: 0 <= k < |ExcludedPatterns| ==> !PatternAt(ExcludedPatterns[k], s)
  {
    forall k | 0 <= k < |ExcludedPatterns| ensures !PatternAt(ExcludedPatterns[k], s) {
      assert ExcludedPatterns[k][0] in {'_', 'f', 'p', 'i', 'm'};
    }
  }

  /** Pages and API routes run through the middleware. */
  lemma MatcherRunsOnPages()
    ensures Matches("/dashboard") && Matches("/api/transactions")
  {
    OtherFirstCharacter("/dashboard"[1..]);
    OtherFirstCharacter("/api/transactions"[1..]);
  }

  /** Static assets do not. */
  lemma MatcherSkipsAssets()
    ensures !Matches("/_next/static/chunk.js") && !Matches("/favicon.ico") && !Matches("/icons/icon-192.png")
  {
    assert PatternAt(ExcludedPatterns[0], "/_next/static/chunk.js"[1..]);
    assert PatternAt(ExcludedPatterns[2], "/favicon.ico"[1..]);
    assert PatternAt(ExcludedPatterns[4], "/icons/icon-192.png"[1..]);
  }

  /**
   * The exclusion is a prefix test with unescaped dots: "/publicity" and
   * "/favicon-ico" are skipped too.
   */
  lemma MatcherIsPrefixTest()
    ensures !Matches("/publicity") && !Matches("/favicon-ico")
  {
    assert PatternAt(ExcludedPatterns[3], "/publicity"[1..]);
    assert PatternAt(ExcludedPatterns[2], "/favicon-ico"[1..]);
  }
}
