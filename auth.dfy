/**
 * The authentication middleware: which requests reach the application, and
 * which are answered with 401 or 403 before it.
 *
 * `extract_route` strips an API-version prefix from the request path. Its
 * regular expression `(?:^/)?(?:api/)?v\d+(?:\.\d+)?(/.*)`, searched from
 * the left, captures the text from the slash after the leftmost version tag
 * `v<digits>[.<digits>]` up to the end of the line: the optional prefixes only
 * ever skip characters that are not `v`, so they never move the capture.
 */
module Auth {
  import opened Common
  import Store

  // ---------------------------------------------------------------------
  // extract_route

  /** Number of consecutive digits of `s` from index `j`. */
  function DigitRun(s: string, j: nat): (n: nat)
    requires j <= |s|
    ensures j + n <= |s|
    ensures forall i :: j <= i < j + n ==> IsDigit(s[i])
    ensures j + n < |s| ==> !IsDigit(s[j + n])
    decreases |s| - j
  {
    if j < |s| && IsDigit(s[j]) then 1 + DigitRun(s, j + 1) else 0
  }

  /**
   * Whether a version tag `v<digits>[.<digits>]/` starts at `j`; if so, the
   * index of its slash. The digit runs are maximal, as the greedy `\d+` takes
   * them, and a shorter run could only be followed by another digit.
   */
  function VersionSlash(s: string, j: nat): (r: Option<nat>)
    requires j <= |s|
    ensures r.Some? ==> j < r.value < |s| && s[j] == 'v' && s[r.value] == '/'
  {
    if j < |s| && s[j] == 'v' then
      var d := DigitRun(s, j + 1);
      var e := j + 1 + d;
      if d == 0 then None
      else if e < |s| && s[e] == '/' then Some(e)
      else if e < |s| && s[e] == '.' then
        var d2 := DigitRun(s, e + 1);
        if d2 > 0 && e + 1 + d2 < |s| && s[e + 1 + d2] == '/' then Some(e + 1 + d2) else None
      else None
    else None
  }

  /** The slash of the leftmost version tag at or after `j`. */
  function FindVersion(s: string, j: nat): (r: Option<nat>)
    requires j <= |s|
    ensures r.Some? ==> j < r.value < |s| && s[r.value] == '/'
    decreases |s| - j
  {
    if j == |s| then None
    else if VersionSlash(s, j).Some? then VersionSlash(s, j)
    else FindVersion(s, j + 1)
  }

  /** The search is leftmost: it reports the first position where a tag starts, and none exists when it reports none. */
  lemma {:induction false} FindVersionIsLeftmost(s: string, j: nat)
    requires j <= |s|
    ensures FindVersion(s, j).None? ==> forall i :: j <= i <= |s| ==> VersionSlash(s, i).None?
    ensures FindVersion(s, j).Some? ==>
      exists i :: j <= i < |s| && VersionSlash(s, i) == FindVersion(s, j)
        && forall i' :: j <= i' < i ==> VersionSlash(s, i').None?
    decreases |s| - j
  {
    if j < |s| && VersionSlash(s, j).None? {
      FindVersionIsLeftmost(s, j + 1);
      if FindVersion(s, j).Some? {
        var i :| j + 1 <= i < |s| && VersionSlash(s, i) == FindVersion(s, j + 1)
          && forall i' :: j + 1 <= i' < i ==> VersionSlash(s, i').None?;
        assert forall i' :: j <= i' < i ==> VersionSlash(s, i').None?;
      }
    }
  }

  /** Where `.` stops matching: the first newline at or after `k`, or the end. */
  function LineEnd(s: string, k: nat): (e: nat)
    requires k <= |s|
    ensures k <= e <= |s|
    ensures forall i :: k <= i < e ==> s[i] != '\n'
    ensures e < |s| ==> s[e] == '\n'
    decreases |s| - k
  {
    if k == |s| || s[k] == '\n' then k else LineEnd(s, k + 1)
  }

  /** `extract_route`. */
  function ExtractRoute(path: string): string
  {
    match FindVersion(path, 0)
    case Some(k) => path[k..LineEnd(path, k)]
    case None => if StartsWith(path, "/api/") then path[4..] else path
  }

  lemma {:induction false} DigitRunOf(s: string, j: nat, ds: string)
    requires j + |ds| <= |s| && s[j..j + |ds|] == ds
    requires forall i :: 0 <= i < |ds| ==> IsDigit(ds[i])
    requires j + |ds| < |s| ==> !IsDigit(s[j + |ds|])
    ensures DigitRun(s, j) == |ds|
    decreases |ds|
  {
    if ds != [] {
      assert s[j] == ds[0];
      assert s[j + 1..j + 1 + |ds[1..]|] == ds[1..];
      DigitRunOf(s, j + 1, ds[1..]);
    }
  }

  lemma {:induction false} FindVersionSkips(s: string, a: nat, b: nat)
    requires a <= b <= |s|
    requires forall i :: a <= i < b ==> s[i] != 'v'
    ensures FindVersion(s, a) == FindVersion(s, b)
    decreases b - a
  {
    if a < b {
      FindVersionSkips(s, a + 1, b);
    }
  }

  lemma {:induction false} LineEndWithoutNewline(s: string, k: nat)
    requires k <= |s|
    requires forall i :: k <= i < |s| ==> s[i] != '\n'
    ensures LineEnd(s, k) == |s|
    decreases |s| - k
  {
    if k < |s| {
      LineEndWithoutNewline(s, k + 1);
    }
  }

  predicate AllDigits(s: string)
  {
    forall i :: 0 <= i < |s| ==> IsDigit(s[i])
  }

  /** The version tag `v<major>` or `v<major>.<minor>`. */
  function VersionTag(major: string, minor: Option<string>): string
  {
    "v" + major + (if minor.Some? then "." + minor.value else "")
  }

  /** `v<major>/` at `p` is recognised, and reports its slash. */
  lemma MajorTagAt(s: string, p: nat, major: string)
    requires major != [] && AllDigits(major)
    requires p + 1 + |major| < |s|
    requires s[p] == 'v' && s[p + 1..p + 1 + |major|] == major && s[p + 1 + |major|] == '/'
    ensures VersionSlash(s, p) == Some(p + 1 + |major|)
  {
    DigitRunOf(s, p + 1, major);
  }

  /** `v<major>.<minor>/` at `p` is recognised, and reports its slash. */
  lemma MinorTagAt(s: string, p: nat, major: string, minor: string)
    requires major != [] && AllDigits(major) && minor != [] && AllDigits(minor)
    requires p + 2 + |major| + |minor| < |s|
    requires s[p] == 'v' && s[p + 1..p + 1 + |major|] == major && s[p + 1 + |major|] == '.'
    requires s[p + 2 + |major|..p + 2 + |major| + |minor|] == minor && s[p + 2 + |major| + |minor|] == '/'
    ensures VersionSlash(s, p) == Some(p + 2 + |major| + |minor|)
  {
    DigitRunOf(s, p + 1, major);
    DigitRunOf(s, p + 2 + |major|, minor);
  }

  /** A tag followed by a slash at `p` is recognised, and reports that slash. */
  lemma TagAt(s: string, p: nat, major: string, minor: Option<string>)
    requires major != [] && AllDigits(major)
    requires minor.Some? ==> minor.value != [] && AllDigits(minor.value)
    requires p + |VersionTag(major, minor)| < |s|
    requires s[p..p + |VersionTag(major, minor)|] == VersionTag(major, minor)
    requires s[p + |VersionTag(major, minor)|] == '/'
    ensures VersionSlash(s, p) == Some(p + |VersionTag(major, minor)|)
  {
    var tag := VersionTag(major, minor);
    var t := s[p..p + |tag|];
    if minor.Some? {
      var m := minor.value;
      assert tag == ['v'] + major + ['.'] + m;
      assert s[p] == t[0];
      assert s[p + 1..p + 1 + |major|] == t[1..1 + |major|];
      assert s[p + 1 + |major|] == t[1 + |major|];
      assert s[p + 2 + |major|..p + 2 + |major| + |m|] == t[2 + |major|..];
      MinorTagAt(s, p, major, m);
    } else {
      assert tag == ['v'] + major;
      assert s[p] == t[0];
      assert s[p + 1..p + 1 + |major|] == t[1..];
      MajorTagAt(s, p, major);
    }
  }

  /**
   * A path whose first version tag follows a prefix without `v` (such as
   * `/api/`) routes to what follows the tag: `/api/v1/chat` and
   * `/v2.1/chat` both give `/chat`.
   */
  lemma VersionedPathRoute(prefix: string, major: string, minor: Option<string>, rest: string)
    requires forall i :: 0 <= i < |prefix| ==> prefix[i] != 'v'
    requires major != [] && AllDigits(major)
    requires minor.Some? ==> minor.value != [] && AllDigits(minor.value)
    requires rest != [] && rest[0] == '/'
    requires forall i :: 0 <= i < |rest| ==> rest[i] != '\n'
    ensures ExtractRoute(prefix + VersionTag(major, minor) + rest) == rest
  {
    var tag := VersionTag(major, minor);
    var s := prefix + tag + rest;
    var p := |prefix|;
    var k := p + |tag|;
    assert s[..p] == prefix && s[p..k] == tag && s[k..] == rest;
    FindVersionSkips(s, 0, p);
    TagAt(s, p, major, minor);
    LineEndWithoutNewline(s, k);
  }

  lemma {:induction false} NoTagNoVersion(s: string, j: nat)
    requires j <= |s|
    requires forall i :: j <= i <= |s| ==> VersionSlash(s, i).None?
    ensures FindVersion(s, j).None?
    decreases |s| - j
  {
    if j < |s| {
      NoTagNoVersion(s, j + 1);
    }
  }

  /** Without a version tag, `/api/...` loses its `/api` and anything else is its own route. */
  lemma UnversionedPathRoute(path: string)
    requires forall i :: 0 <= i <= |path| ==> VersionSlash(path, i).None?
    ensures StartsWith(path, "/api/") ==> ExtractRoute(path) == path[4..] && StartsWith(ExtractRoute(path), "/")
    ensures !StartsWith(path, "/api/") ==> ExtractRoute(path) == path
  {
    NoTagNoVersion(path, 0);
  }

  /** A path that starts with a slash routes to a route that starts with a slash. */
  lemma RouteKeepsLeadingSlash(path: string)
    requires StartsWith(path, "/")
    ensures StartsWith(ExtractRoute(path), "/")
  {
  }

  // ---------------------------------------------------------------------
  // __call__

  /** The two business codes the middleware answers with. */
  datatype BusinessCode = CodeUnauthorized | CodeForbidden

  /** What `authenticate(token)` does: return, or raise one of the two handled errors, or anything else. */
  datatype AuthOutcome = Authenticated | UnauthorizedError(msg: string) | ForbiddenError(msg: string) | OtherError

  /**
   * The middleware's effect on one request: hand it to the application, answer
   * it with a JSON error (`success` false, the code and the message), or let an
   * unhandled authentication error propagate.
   */
  datatype Decision = CallApp | Respond(status: int, code: BusinessCode, message: string) | Propagate

  /** An ASGI scope: its type, and its path and header list when present (header names and values decoded). */
  datatype Scope = Scope(kind: string, path: Option<string>, headers: Option<seq<(string, string)>>)

  const Ping: string := "/ping"
  const Metrics: string := "/metrics"

  /** `any(fnmatch(route, pattern) for pattern in routes)`. */
  predicate Unprotected(routes: set<string>, route: string)
  {
    exists pattern :: pattern in routes && Store.Glob(pattern, route, false)
  }

  /** The value of the first header whose lower-cased name is `authorization`. */
  function AuthorizationHeader(headers: seq<(string, string)>): (h: Option<string>)
  {
    if headers == [] then None
    else if Lower(headers[0].0) == "authorization" then Some(headers[0].1)
    else AuthorizationHeader(headers[1..])
  }

  /** The header found is the one of the first match; with no match there is none. */
  lemma {:induction false} AuthorizationHeaderIsFirst(headers: seq<(string, string)>)
    ensures AuthorizationHeader(headers).None? <==> forall i :: 0 <= i < |headers| ==> Lower(headers[i].0) != "authorization"
    ensures AuthorizationHeader(headers).Some? ==>
      exists i :: 0 <= i < |headers| && Lower(headers[i].0) == "authorization"
        && AuthorizationHeader(headers) == Some(headers[i].1)
        && forall j :: 0 <= j < i ==> Lower(headers[j].0) != "authorization"
  {
    if headers != [] && Lower(headers[0].0) != "authorization" {
      AuthorizationHeaderIsFirst(headers[1..]);
      if AuthorizationHeader(headers).Some? {
        var i :| 0 <= i < |headers| - 1 && Lower(headers[1..][i].0) == "authorization"
          && AuthorizationHeader(headers[1..]) == Some(headers[1..][i].1)
          && forall j :: 0 <= j < i ==> Lower(headers[1..][j].0) != "authorization";
        assert forall j :: 0 <= j < i + 1 ==> Lower(headers[j].0) != "authorization" by {
          forall j | 0 <= j < i + 1
            ensures Lower(headers[j].0) != "authorization"
          {
            if j > 0 {
              assert headers[j] == headers[1..][j - 1];
            }
          }
        }
      }
    }
  }

  /** A header value the middleware accepts the shape of: `Bearer <token>`, any case, two words. */
  predicate WellFormed(header: string)
  {
    var parts := SplitWhitespace(header);
    |parts| == 2 && Lower(parts[0]) == "bearer"
  }

  function Token(header: string): string
    requires WellFormed(header)
  {
    SplitWhitespace(header)[1]
  }

  /** The decision `__call__` takes, given the unprotected patterns and what authentication does with a token. */
  function Decide(routes: set<string>, scope: Scope, authenticate: string -> AuthOutcome): Decision
  {
    if scope.kind != "http" then CallApp
    else if Unprotected(routes, ExtractRoute(if scope.path.Some? then scope.path.value else "")) then CallApp
    else
      var header := AuthorizationHeader(if scope.headers.Some? then scope.headers.value else []);
      if header.None? || header.value == [] then Respond(401, CodeUnauthorized, "Authentication required")
      else if !WellFormed(header.value) then Respond(401, CodeUnauthorized, "Invalid authorization header format")
      else match authenticate(Token(header.value))
        case Authenticated => CallApp
        case UnauthorizedError(msg) => Respond(401, CodeUnauthorized, msg)
        case ForbiddenError(msg) => Respond(403, CodeForbidden, msg)
        case OtherError => Propagate
  }

  class AuthMiddleware {
    /** The configured unprotected route patterns, with `/ping` and `/metrics` always added. */
    const unprotectedRoutes: set<string>

    constructor(configured: set<string>)
      ensures unprotectedRoutes == configured + {Ping, Metrics}
    {
      unprotectedRoutes := configured + {Ping, Metrics};
    }

    /** `__call__`: the scan over the headers for `Authorization`, then the early returns. */
    method Call(scope: Scope, authenticate: string -> AuthOutcome) returns (d: Decision)
      ensures d == Decide(unprotectedRoutes, scope, authenticate)
    {
      if scope.kind != "http" {
        return CallApp;
      }
      var path := if scope.path.Some? then scope.path.value else "";
      if Unprotected(unprotectedRoutes, ExtractRoute(path)) {
        return CallApp;
      }
      var headers := if scope.headers.Some? then scope.headers.value else [];
      var header: Option<string> := None;
      var i := 0;
      while i < |headers|
        invariant 0 <= i <= |headers|
        invariant AuthorizationHeader(headers) == AuthorizationHeader(headers[i..])
      {
        if Lower(headers[i].0) == "authorization" {
          header := Some(headers[i].1);
          break;
        }
        assert headers[i..][1..] == headers[i + 1..];
        i := i + 1;
      }
      assert header == AuthorizationHeader(headers[i..]);
      if header.None? || header.value == [] {
        return Respond(401, CodeUnauthorized, "Authentication required");
      }
      var parts := SplitWhitespace(header.value);
      if |parts| != 2 || Lower(parts[0]) != "bearer" {
        return Respond(401, CodeUnauthorized, "Invalid authorization header format");
      }
      var outcome := authenticate(parts[1]);
      match outcome {
        case Authenticated => d := CallApp;
        case UnauthorizedError(msg) => d := Respond(401, CodeUnauthorized, msg);
        case ForbiddenError(msg) => d := Respond(403, CodeForbidden, msg);
        case OtherError => d := Propagate;
      }
    }
  }

  // ---------------------------------------------------------------------
  // What the decision guarantees

  function HeaderOf(scope: Scope): Option<string>
  {
    AuthorizationHeader(if scope.headers.Some? then scope.headers.value else [])
  }

  function RouteOf(scope: Scope): string
  {
    ExtractRoute(if scope.path.Some? then scope.path.value else "")
  }

  /**
   * The application is reached exactly when the scope is not HTTP, the route
   * is unprotected, or the header is a well-formed bearer header whose token
   * authenticates.
   */
  lemma AppReachedIffAuthorized(routes: set<string>, scope: Scope, authenticate: string -> AuthOutcome)
    ensures Decide(routes, scope, authenticate) == CallApp <==>
      scope.kind != "http"
      || Unprotected(routes, RouteOf(scope))
      || (HeaderOf(scope).Some? && WellFormed(HeaderOf(scope).value)
          && authenticate(Token(HeaderOf(scope).value)) == Authenticated)
  {
    if HeaderOf(scope).Some? && WellFormed(HeaderOf(scope).value) {
      assert HeaderOf(scope).value != [];
    }
  }

  /** Every answer is a 401 with the unauthorized code, or a 403 with the forbidden code. */
  lemma ResponsesAre401Or403(routes: set<string>, scope: Scope, authenticate: string -> AuthOutcome)
    ensures var d := Decide(routes, scope, authenticate);
      d.Respond? ==> (d.status == 401 && d.code == CodeUnauthorized) || (d.status == 403 && d.code == CodeForbidden)
    ensures var d := Decide(routes, scope, authenticate);
      d.Respond? && d.status == 403 ==> exists msg :: authenticate(Token(HeaderOf(scope).value)) == ForbiddenError(msg)
  {
  }

  /** A protected HTTP request without a usable header is refused before authentication is consulted. */
  lemma MissingOrMalformedHeader(routes: set<string>, scope: Scope, authenticate: string -> AuthOutcome)
    requires scope.kind == "http" && !Unprotected(routes, RouteOf(scope))
    ensures HeaderOf(scope).None? || HeaderOf(scope).value == [] ==>
      Decide(routes, scope, authenticate) == Respond(401, CodeUnauthorized, "Authentication required")
    ensures HeaderOf(scope).Some? && HeaderOf(scope).value != [] && !WellFormed(HeaderOf(scope).value) ==>
      Decide(routes, scope, authenticate) == Respond(401, CodeUnauthorized, "Invalid authorization header format")
    ensures forall other: string -> AuthOutcome ::
      (HeaderOf(scope).None? || !WellFormed(HeaderOf(scope).value)) ==>
      Decide(routes, scope, other) == Decide(routes, scope, authenticate)
  {
  }

  /** `/ping` and `/metrics`, bare or behind a version prefix, are never protected. */
  lemma HealthRoutesAreOpen(configured: set<string>, route: string)
    requires route == Ping || route == Metrics
    ensures Unprotected(configured + {Ping, Metrics}, route)
  {
    assert route in configured + {Ping, Metrics};
    GlobLiteral(route);
  }

  /** A pattern without wildcards matches itself. */
  lemma {:induction false} GlobLiteral(s: string)
    requires forall i :: 0 <= i < |s| ==> s[i] != '*' && s[i] != '?'
    ensures Store.Glob(s, s, false)
    decreases |s|
  {
    if s != [] {
      GlobLiteral(s[1..]);
    }
  }
}
