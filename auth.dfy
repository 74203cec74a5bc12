/**
 * The standalone access-code helpers: the code check, the `Cookie` request
 * header parse that looks for `auth=<code>`, and the two `Set-Cookie`
 * values that log in and out.
 */
module Auth {
  import opened Wrappers
  import opened Strings
  import opened Digits

  const AccessCode := "vibe2024"

  /** Seven days, in seconds. */
  const MaxAge: nat := 60 * 60 * 24 * 7

  predicate VerifyAccess(code: string) {
    code == AccessCode
  }

  /** `find(c => c.trim().startsWith('auth='))`. */
  function FirstAuthSegment(segments: seq<string>): (r: Option<string>)
    ensures r.Some? ==> r.value in segments && StartsWith(Trim(r.value), "auth=")
    ensures r.None? ==> forall i :: 0 <= i < |segments| ==> !StartsWith(Trim(segments[i]), "auth=")
    decreases |segments|
  {
    if segments == [] then None
    else if StartsWith(Trim(segments[0]), "auth=") then Some(segments[0])
    else FirstAuthSegment(segments[1..])
  }

  /** `segment.split('=')[1]`: the text between the first and the second `=`, if there is a first. */
  function Token(segment: string): Option<string> {
    var parts := Split(segment, '=');
    if |parts| > 1 then Some(parts[1]) else None
  }

  /** `isAuthenticated` on the request's `Cookie` header, absent when the request has none. */
  predicate IsAuthenticated(header: Option<string>) {
    Truthy(header) &&
    var segment := FirstAuthSegment(Split(header.value, ';'));
    segment.Some? && Token(segment.value) == Some(AccessCode)
  }

  /** The attributes after the cookie's value, starting with the blank after its `;`. */
  function Attributes(maxAge: nat): string {
    " Max-Age=" + NatToString(maxAge) + "; Path=/; HttpOnly; SameSite=Strict"
  }

  /** A `Set-Cookie` value for `auth` with the flags both helpers use. */
  function CookieHeader(value: string, maxAge: nat): string {
    "auth=" + value + [';'] + Attributes(maxAge)
  }

  function AuthCookie(): string { CookieHeader(AccessCode, MaxAge) }

  function LogoutCookie(): string { CookieHeader("", 0) }

  /** A value with no separator and no blank in it. */
  predicate Plain(v: string) {
    forall i :: 0 <= i < |v| ==> v[i] != ';' && v[i] != '=' && !IsSpace(v[i])
  }

  /** A `key=value;rest` header splits into the plain `key=value` segment first, whose token is the value. */
  lemma {:induction false} FirstSegment(key: string, value: string, rest: string)
    requires Plain(key) && Plain(value)
    ensures var seg := key + ['='] + value;
      Split(seg + [';'] + rest, ';') == [seg] + Split(rest, ';') &&
      Trim(seg) == seg && Token(seg) == Some(value)
  {
    var seg := key + ['='] + value;
    assert forall i :: 0 <= i < |seg| ==> seg[i] != ';' && !IsSpace(seg[i]) by {
      forall i | 0 <= i < |seg|
        ensures seg[i] != ';' && !IsSpace(seg[i])
      {
        if i < |key| { assert seg[i] == key[i]; }
        else if i > |key| { assert seg[i] == value[i - |key| - 1]; }
      }
    }
    SplitHead(seg, ';', rest);
    SplitHead(key, '=', value);
  }

  /**
   * A header whose first segment is `auth=<value>` authenticates exactly
   * when the value is the access code, whatever follows the `;`.
   */
  lemma LeadingSegment(value: string, rest: string)
    requires Plain(value)
    ensures IsAuthenticated(Some("auth=" + value + [';'] + rest)) <==> value == AccessCode
  {
    var seg := "auth" + ['='] + value;
    assert "auth=" + value == seg;
    FirstSegment("auth", value, rest);
    assert StartsWith(seg, "auth=");
  }

  /**
   * Sending back a cookie these helpers wrote authenticates exactly when
   * its value is the access code.
   */
  lemma CookieRoundTrip(value: string, maxAge: nat)
    requires Plain(value)
    ensures IsAuthenticated(Some(CookieHeader(value, maxAge))) <==> value == AccessCode
  {
    LeadingSegment(value, Attributes(maxAge));
  }

  /** The login cookie authenticates, and it stays for seven days. */
  lemma AuthCookieAuthenticates()
    ensures IsAuthenticated(Some(AuthCookie()))
    ensures MaxAge == 604800
  {
    CookieRoundTrip(AccessCode, MaxAge);
  }

  /** The logout cookie empties the value and expires at once, so it does not authenticate. */
  lemma LogoutCookieRejected()
    ensures !IsAuthenticated(Some(LogoutCookie()))
    ensures NatToString(0) == "0"
  {
    CookieRoundTrip("", 0);
  }

  /** Without a header, or without an `auth=` segment, the request is not authenticated. */
  lemma NoAuthSegment(header: Option<string>)
    requires header.Some? ==> forall s :: s in Split(header.value, ';') ==> !StartsWith(Trim(s), "auth=")
    ensures !IsAuthenticated(header)
  {
  }
}

/**
 * The request middleware: API paths other than the public ones need the
 * `auth_token` cookie set to `authenticated`; everything else passes.
 */
module Middleware {
  import opened Wrappers
  import opened Strings

  const PublicRoutes: seq<string> := ["/api/auth/login", "/api/auth/logout", "/api/auth/verify", "/api/health"]

  const SessionValue := "authenticated"

  /** Hand the request on, or answer it with a 401. */
  datatype Decision = Next | Reject(status: int, code: string, wwwAuthenticate: string)

  /** Matching is by prefix, so any path that begins with a public route is public. */
  predicate IsPublic(pathname: string) {
    exists i :: 0 <= i < |PublicRoutes| && StartsWith(pathname, PublicRoutes[i])
  }

  /** `onRequest`; `authToken` is the value of the `auth_token` cookie, if there is one. */
  function Gate(pathname: string, authToken: Option<string>): (d: Decision)
    ensures !StartsWith(pathname, "/api/") ==> d == Next
    ensures IsPublic(pathname) ==> d == Next
    ensures StartsWith(pathname, "/api/") && !IsPublic(pathname) ==> (d == Next <==> authToken == Some(SessionValue))
    ensures d != Next ==> d == Reject(401, "AUTH_REQUIRED", "Cookie")
  {
    if !StartsWith(pathname, "/api/") then Next
    else if IsPublic(pathname) then Next
    else if authToken != Some(SessionValue) then Reject(401, "AUTH_REQUIRED", "Cookie")
    else Next
  }

  /** `/api/healthz` is public too, because it begins with `/api/health`. */
  lemma HealthzIsPublic()
    ensures Gate("/api/healthz", None) == Next
  {
    assert StartsWith("/api/healthz", PublicRoutes[3]);
  }

  /** A protected route is refused without the session cookie. */
  lemma ProtectedNeedsSession()
    ensures Gate("/api/generate", None) == Reject(401, "AUTH_REQUIRED", "Cookie")
    ensures Gate("/api/generate", Some(SessionValue)) == Next
  {
    assert !IsPublic("/api/generate") by {
      forall i | 0 <= i < |PublicRoutes|
        ensures !StartsWith("/api/generate", PublicRoutes[i])
      {
        assert "/api/generate"[5] == 'g';
      }
    }
  }
}

/**
 * The three session routes over the browser's cookie jar: login sets
 * `auth_token`, logout deletes it and verify only reads it.
 */
module AuthRoutes {
  import opened Wrappers
  import opened Strings
  import Middleware

  const TokenName := "auth_token"
  const SessionValue := Middleware.SessionValue
  const SevenDays := 60 * 60 * 24 * 7
  const DefaultCode := "vibe2024"

  datatype Cookie = Cookie(value: string, path: string, maxAge: int)

  type Jar = map<string, Cookie>

  /** `cookies.get('auth_token')?.value`. */
  function AuthToken(jar: Jar): Option<string> {
    if TokenName in jar then Some(jar[TokenName].value) else None
  }

  /** What the verify route reports for a jar. */
  predicate Verified(jar: Jar) {
    AuthToken(jar) == Some(SessionValue)
  }

  /** The `code` field of the request body, as far as the route tells values apart. */
  datatype CodeField = NoCode | StrCode(s: string) | OtherCode(truthy: bool)

  /** The request body: not JSON, or a parsed object. */
  datatype LoginBody = Unparsable | Body(code: CodeField)

  datatype ApiResponse = ApiResponse(status: int, success: bool, text: string)

  /** The access code the route compares with: the environment's value if set, else the default. */
  function ExpectedCode(env: Option<string>): string {
    if Truthy(env) then env.value else DefaultCode
  }

  /**
   * The status of a login: 500 when the body does not parse or its code is
   * a truthy non-string (whose `trim` throws), 400 on a falsy code, and
   * otherwise 200 or 401 by comparing both codes trimmed.
   */
  function LoginStatus(body: LoginBody, env: Option<string>): (status: int)
    ensures status == 200 || status == 400 || status == 401 || status == 500
    ensures status == 200 <==> body.Body? && body.code.StrCode? && body.code.s != "" && Trim(body.code.s) == Trim(ExpectedCode(env))
    ensures status == 400 <==> body.Body? && (body.code.NoCode? || body.code == OtherCode(false) || body.code == StrCode(""))
    ensures status == 401 <==> body.Body? && body.code.StrCode? && body.code.s != "" && Trim(body.code.s) != Trim(ExpectedCode(env))
    ensures status == 500 <==> body.Unparsable? || body == Body(OtherCode(true))
  {
    match body
    case Unparsable => 500
    case Body(NoCode) => 400
    case Body(OtherCode(truthy)) => if truthy then 500 else 400
    case Body(StrCode(s)) =>
      if s == "" then 400
      else if Trim(s) == Trim(ExpectedCode(env)) then 200
      else 401
  }

  /** The JSON answer for each login status. */
  function LoginResponse(body: LoginBody, env: Option<string>): (r: ApiResponse)
    ensures r.status == LoginStatus(body, env)
    ensures r.success <==> r.status == 200
  {
    var status := LoginStatus(body, env);
    if status == 200 then ApiResponse(200, true, "Authentication successful")
    else if status == 400 then ApiResponse(400, false, "Missing access code")
    else if status == 401 then ApiResponse(401, false, "Invalid access code")
    else ApiResponse(500, false, "Login failed. Please try again.")
  }

  /** The jar after a login: only a successful one sets the session cookie. */
  function AfterLogin(jar: Jar, body: LoginBody, env: Option<string>): Jar {
    if LoginStatus(body, env) == 200 then jar[TokenName := Cookie(SessionValue, "/", SevenDays)] else jar
  }

  function AfterLogout(jar: Jar): Jar {
    jar - {TokenName}
  }

  /** A successful login makes verify report true, and lets the middleware pass protected routes. */
  lemma LoginThenVerify(jar: Jar, body: LoginBody, env: Option<string>, pathname: string)
    requires LoginStatus(body, env) == 200
    ensures Verified(AfterLogin(jar, body, env))
    ensures Middleware.Gate(pathname, AuthToken(AfterLogin(jar, body, env))) == Middleware.Next
  {
  }

  /** A failed login leaves the jar as it was. */
  lemma FailedLoginKeepsJar(jar: Jar, body: LoginBody, env: Option<string>)
    requires LoginStatus(body, env) != 200
    ensures AfterLogin(jar, body, env) == jar
  {
  }

  /** After a logout verify reports false, a second logout changes nothing, and protected routes are refused. */
  lemma LogoutThenVerify(jar: Jar, pathname: string)
    requires StartsWith(pathname, "/api/") && !Middleware.IsPublic(pathname)
    ensures !Verified(AfterLogout(jar))
    ensures AfterLogout(AfterLogout(jar)) == AfterLogout(jar)
    ensures Middleware.Gate(pathname, AuthToken(AfterLogout(jar))).Reject?
  {
  }

  /** The default code has no blank to trim. */
  lemma DefaultCodeTrimmed()
    ensures Trim(DefaultCode) == DefaultCode
  {
    assert forall i :: 0 <= i < |DefaultCode| ==> !IsSpace(DefaultCode[i]);
  }

  /**
   * With no code configured, a code without blanks logs in exactly when it
   * is the default one.
   */
  lemma DefaultCodeLogsIn(code: string)
    requires forall i :: 0 <= i < |code| ==> !IsSpace(code[i])
    ensures LoginStatus(Body(StrCode(code)), None) == 200 <==> code == DefaultCode
  {
    DefaultCodeTrimmed();
  }

  /** The cookie jar of one browser, as the three routes see it. */
  class CookieJar {
    var cookies: Jar

    constructor(initial: Jar)
      ensures cookies == initial
    {
      cookies := initial;
    }

    /** POST /api/auth/login. */
    method Login(body: LoginBody, env: Option<string>) returns (r: ApiResponse)
      modifies this
      ensures r == LoginResponse(body, env)
      ensures cookies == AfterLogin(old(cookies), body, env)
    {
      r := LoginResponse(body, env);
      if r.status == 200 {
        cookies := cookies[TokenName := Cookie(SessionValue, "/", SevenDays)];
      }
    }

    /** POST /api/auth/logout: deletes the cookie whether or not it was there. */
    method Logout() returns (r: ApiResponse)
      modifies this
      ensures r == ApiResponse(200, true, "Logged out successfully")
      ensures cookies == AfterLogout(old(cookies))
    {
      cookies := cookies - {TokenName};
      r := ApiResponse(200, true, "Logged out successfully");
    }

    /** GET /api/auth/verify: always 200, reading the jar without changing it. */
    method Verify() returns (status: int, authenticated: bool)
      ensures status == 200 && (authenticated <==> Verified(cookies))
    {
      status := 200;
      authenticated := AuthToken(cookies) == Some(SessionValue);
    }
  }
}
