/**
 * The request gate (middleware.ts): every request whose path the matcher
 * routes to it gets one of two outcomes, let through (`Next`) or sent to the
 * login page.  The credential is the value of the `eden-auth` cookie, the
 * secret the `DASHBOARD_SECRET` environment variable; either may be absent,
 * and they are compared as optional strings, exactly as the strict
 * equality `authCookie?.value === process.env.DASHBOARD_SECRET` compares
 * `undefined` with `undefined`.
 */
module Gate {
  import opened Wrappers

  datatype Decision = Next | Redirect(target: string)

  const ApiPrefix: string := "/api/"
  const LoginPath: string := "/login"

  /** `s` begins with `prefix` (`String.prototype.startsWith`). */
  predicate StartsWith(s: string, prefix: string)
  {
    |prefix| <= |s| && s[..|prefix|] == prefix
  }

  /**
   * The gate as written: the API prefix first, then the cookie comparison,
   * then the login path, and a redirect to the login page otherwise.
   */
  function Middleware(path: string, cookie: Option<string>, secret: Option<string>): (d: Decision)
    ensures d == Next <==> StartsWith(path, ApiPrefix) || path == LoginPath || cookie == secret
    ensures d == Next || d == Redirect(LoginPath)
  {
    if StartsWith(path, ApiPrefix) then Next
    else if cookie == secret then Next
    else if path == LoginPath then Next
    else Redirect(LoginPath)
  }

  /** The exemptions checked before the credential: the order a reader would expect. */
  function ExemptionsFirst(path: string, cookie: Option<string>, secret: Option<string>): (d: Decision)
    ensures d.Redirect? ==> d.target == LoginPath
  {
    if StartsWith(path, ApiPrefix) || path == LoginPath then Next
    else if cookie == secret then Next
    else Redirect(LoginPath)
  }

  /** Testing the cookie before the login path changes no outcome. */
  lemma RuleOrderIrrelevant(path: string, cookie: Option<string>, secret: Option<string>)
    ensures Middleware(path, cookie, secret) == ExemptionsFirst(path, cookie, secret)
  {
  }

  /** Every path under `/api/` passes, whatever the cookie and the secret. */
  lemma ApiPathsPass(path: string, cookie: Option<string>, secret: Option<string>)
    requires StartsWith(path, ApiPrefix)
    ensures Middleware(path, cookie, secret) == Next
  {
  }

  /** The login page is reachable with any cookie or none. */
  lemma LoginPathPasses(cookie: Option<string>, secret: Option<string>)
    ensures Middleware(LoginPath, cookie, secret) == Next
  {
  }

  /** Any other path passes exactly when the cookie equals the secret, and is otherwise sent to `/login`. */
  lemma ProtectedPathsNeedSecret(path: string, cookie: Option<string>, secret: Option<string>)
    requires !StartsWith(path, ApiPrefix) && path != LoginPath
    ensures Middleware(path, cookie, secret) == Next <==> cookie == secret
    ensures cookie != secret ==> Middleware(path, cookie, secret) == Redirect(LoginPath)
  {
  }

  /**
   * The exemptions are exact: `/api` without its slash and `/login/` with one
   * are protected paths.
   */
  lemma ExemptionsAreExact(cookie: Option<string>, secret: Option<string>)
    requires cookie != secret
    ensures Middleware("/api", cookie, secret) == Redirect(LoginPath)
    ensures Middleware("/login/", cookie, secret) == Redirect(LoginPath)
    ensures Middleware("/apix/status", cookie, secret) == Redirect(LoginPath)
  {
    assert !StartsWith("/api", ApiPrefix);
    assert "/apix/status"[..5][4] != ApiPrefix[4];
  }

  /**
   * As written the gate fails open: with no cookie sent and no secret
   * configured, both sides of the comparison are absent and every path passes.
   */
  lemma FailOpenWhenSecretUnset(path: string)
    ensures Middleware(path, None, None) == Next
  {
  }

  /** An empty cookie matches an empty configured secret. */
  lemma EmptySecretMatchesEmptyCookie(path: string)
    ensures Middleware(path, Some(""), Some("")) == Next
  {
  }

  /**
   * The gate as evidently intended: a credential only counts when a
   * non-empty secret is configured and the cookie carries exactly that value.
   */
  function MiddlewareFailClosed(path: string, cookie: Option<string>, secret: Option<string>): (d: Decision)
    ensures d == Next || d == Redirect(LoginPath)
  {
    if StartsWith(path, ApiPrefix) then Next
    else if secret.Some? && secret.value != "" && cookie == secret then Next
    else if path == LoginPath then Next
    else Redirect(LoginPath)
  }

  /** With no usable secret, no cookie at all opens a protected path. */
  lemma FailClosedWithoutSecret(path: string, cookie: Option<string>, secret: Option<string>)
    requires secret == None || secret == Some("")
    requires !StartsWith(path, ApiPrefix) && path != LoginPath
    ensures MiddlewareFailClosed(path, cookie, secret) == Redirect(LoginPath)
  {
  }

  /** Once a non-empty secret is configured the corrected gate decides exactly as the original. */
  lemma FailClosedAgreesWhenConfigured(path: string, cookie: Option<string>, s: string)
    requires s != ""
    ensures MiddlewareFailClosed(path, cookie, Some(s)) == Middleware(path, cookie, Some(s))
  {
  }

  /** The corrected gate never lets through a request the original refuses. */
  lemma FailClosedIsStricter(path: string, cookie: Option<string>, secret: Option<string>)
    ensures MiddlewareFailClosed(path, cookie, secret) == Next ==> Middleware(path, cookie, secret) == Next
  {
  }

  /** A character the regular-expression wildcard `.` matches (any but a line terminator). */
  predicate Wildcard(c: char)
  {
    c != '\n' && c != '\r' && c != '\U{2028}' && c != '\U{2029}'
  }

  /**
   * The lookahead `(?!_next/static|_next/image|favicon.ico)` rejects `rest`.
   * The dot of `favicon.ico` is not escaped, so it stands for any character.
   */
  predicate ExcludedAsset(rest: string)
  {
    || StartsWith(rest, "_next/static")
    || StartsWith(rest, "_next/image")
    || (|rest| >= 11 && rest[..7] == "favicon" && Wildcard(rest[7]) && rest[8..11] == "ico")
  }

  /**
   * The matcher `/((?!_next/static|_next/image|favicon.ico).*)`, anchored at
   * both ends: the requests that reach `Middleware` at all.
   */
  predicate Routed(path: string)
    ensures Routed(path) ==> |path| >= 1 && path[0] == '/'
    ensures Routed(path) ==> !StartsWith(path, "/_next/static")
    ensures Routed(path) ==> !StartsWith(path, "/_next/image")
    ensures Routed(path) ==> !StartsWith(path, "/favicon.ico")
  {
    AssetPrefixesExcluded(path);
    && |path| >= 1 && path[0] == '/'
    && !ExcludedAsset(path[1..])
    && forall i :: 1 <= i < |path| ==> Wildcard(path[i])
  }

  /** A path beginning with one of the three asset prefixes is excluded after its slash. */
  lemma AssetPrefixesExcluded(path: string)
    ensures StartsWith(path, "/_next/static") ==> ExcludedAsset(path[1..])
    ensures StartsWith(path, "/_next/image") ==> ExcludedAsset(path[1..])
    ensures StartsWith(path, "/favicon.ico") ==> ExcludedAsset(path[1..])
  {
    if |path| >= 1 {
      SlashThenPrefix(path, "_next/static");
      SlashThenPrefix(path, "_next/image");
      SlashThenPrefix(path, "favicon.ico");
      FaviconExcluded(path[1..]);
      assert "/" + "_next/static" == "/_next/static";
      assert "/" + "_next/image" == "/_next/image";
      assert "/" + "favicon.ico" == "/favicon.ico";
    }
  }

  /** A path starting with `/` and then `p` has `p` right after its slash. */
  lemma SlashThenPrefix(path: string, p: string)
    ensures StartsWith(path, "/" + p) ==> StartsWith(path[1..], p)
  {
    if StartsWith(path, "/" + p) {
      assert path[1..][..|p|] == path[..|p| + 1][1..] == ("/" + p)[1..] == p;
    }
  }

  /** Whatever follows `favicon.ico` is excluded. */
  lemma FaviconExcluded(rest: string)
    ensures StartsWith(rest, "favicon.ico") ==> ExcludedAsset(rest)
  {
    if StartsWith(rest, "favicon.ico") {
      assert rest[..11] == "favicon.ico";
      assert rest[..7] == rest[..11][..7] == "favicon";
      assert rest[8..11] == rest[..11][8..11] == "ico";
      assert rest[7] == rest[..11][7] == '.';
    }
  }

  /** Static assets, optimised images and the favicon never reach the gate. */
  lemma AssetsNeverRouted(rest: string)
    ensures !Routed("/_next/static" + rest)
    ensures !Routed("/_next/image" + rest)
    ensures !Routed("/favicon.ico" + rest)
  {
    assert ("/_next/static" + rest)[..13] == "/_next/static";
    assert ("/_next/image" + rest)[..12] == "/_next/image";
    assert ("/favicon.ico" + rest)[..12] == "/favicon.ico";
  }

  /** The unescaped dot also keeps look-alike paths such as `/favicon-ico` away from the gate. */
  lemma FaviconDotIsWildcard()
    ensures !Routed("/favicon-ico")
    ensures Routed("/favicon")
  {
    var f := "/favicon-ico"[1..];
    assert f[..7] == "favicon" && f[8..11] == "ico";
    assert !StartsWith("favicon", "_next/static");
    assert !StartsWith("favicon", "_next/image");
  }

  /** Pages, the login page and the API are routed through the gate. */
  lemma PagesAreRouted()
    ensures Routed("/")
    ensures Routed(LoginPath)
    ensures Routed("/api/status")
  {
    assert !StartsWith("login", "_next/static") && !StartsWith("login", "_next/image");
    assert !StartsWith("api/status", "_next/static") && !StartsWith("api/status", "_next/image");
    assert "api/status"[..7][0] != "favicon"[0];
  }
}
