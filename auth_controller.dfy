/** `controllers/auth.controller.js`: `safeRedirect` and the targets the Google handlers
    redirect to. Authentication itself is bypassed in this version of the controller: the
    current user is a fixed dummy and logout always succeeds. */
module AuthController {
  import opened Base
  import opened JsonValue
  import opened Http
  import opened ShopifyConfig

  /** What `new URL(s)` yields that the controller reads: its origin and its normalised
      `toString()`. */
  datatype Url = Url(origin: string, href: string)

  /** `new URL(s)`: `None` when the constructor throws. */
  type UrlParser = string -> Option<Url>

  const DefaultSuccessUrl := "http://localhost:5173/dashboard"
  const DefaultFailureUrl := "http://localhost:5173/login"

  /** `env.FRONTEND_SUCCESS_URL`, an unset or empty variable giving the default. */
  function SuccessUrl(env: Env): (u: string)
    ensures GetEnv(env, "FRONTEND_SUCCESS_URL").Err? ==> u == DefaultSuccessUrl
  {
    var v := GetEnv(env, "FRONTEND_SUCCESS_URL");
    if v.Ok? then v.value else DefaultSuccessUrl
  }

  /** `env.FRONTEND_FAILURE_URL`, an unset or empty variable giving the default. */
  function FailureUrl(env: Env): (u: string)
    ensures GetEnv(env, "FRONTEND_FAILURE_URL").Err? ==> u == DefaultFailureUrl
  {
    var v := GetEnv(env, "FRONTEND_FAILURE_URL");
    if v.Ok? then v.value else DefaultFailureUrl
  }

  /** The origins a redirect may go to: those of the success and failure URLs, or `None`
      when either of them does not parse (the throw lands in the same `catch`). */
  function AllowedOrigins(env: Env, parse: UrlParser): Option<seq<string>> {
    match (parse(SuccessUrl(env)), parse(FailureUrl(env)))
    case (Some(s), Some(f)) => Some([s.origin, f.origin])
    case _ => None
  }

  /** `safeRedirect(url, fallback)`: the normalised URL when it parses and its origin is
      allowed, the fallback in every other case. */
  function SafeRedirect(url: string, fallback: string, env: Env, parse: UrlParser): (r: string)
    ensures r == fallback ||
            (parse(url).Some? && r == parse(url).value.href &&
             AllowedOrigins(env, parse).Some? && parse(url).value.origin in AllowedOrigins(env, parse).value)
  {
    match parse(url)
    case None => fallback
    case Some(u) =>
      match AllowedOrigins(env, parse)
      case None => fallback
      case Some(allowed) => if u.origin in allowed then u.href else fallback
  }

  /** The two outcomes, both ways: a parsed URL whose origin is the success or failure
      origin is followed; anything else gives the fallback. */
  lemma SafeRedirectDecides(url: string, fallback: string, env: Env, parse: UrlParser)
    ensures (parse(url).Some? && parse(SuccessUrl(env)).Some? && parse(FailureUrl(env)).Some? &&
             parse(url).value.origin in {parse(SuccessUrl(env)).value.origin, parse(FailureUrl(env)).value.origin})
            ==> SafeRedirect(url, fallback, env, parse) == parse(url).value.href
    ensures !(parse(url).Some? && parse(SuccessUrl(env)).Some? && parse(FailureUrl(env)).Some? &&
              parse(url).value.origin in {parse(SuccessUrl(env)).value.origin, parse(FailureUrl(env)).value.origin})
            ==> SafeRedirect(url, fallback, env, parse) == fallback
  {
    var a := AllowedOrigins(env, parse);
    if parse(SuccessUrl(env)).Some? && parse(FailureUrl(env)).Some? {
      assert a == Some([parse(SuccessUrl(env)).value.origin, parse(FailureUrl(env)).value.origin]);
    }
  }

  /** `googleAuthSuccess`: the redirect after a Google login. */
  function GoogleAuthSuccess(env: Env, parse: UrlParser): (o: Outcome)
    ensures o.Redirect?
  {
    Redirect(SafeRedirect(SuccessUrl(env), FailureUrl(env), env, parse))
  }

  /** When both configured URLs parse, a login goes to the normalised success URL, which is
      always allowed; otherwise to the failure URL as written. */
  lemma LoginGoesToSuccessUrl(env: Env, parse: UrlParser)
    ensures parse(SuccessUrl(env)).Some? && parse(FailureUrl(env)).Some? ==>
              GoogleAuthSuccess(env, parse) == Redirect(parse(SuccessUrl(env)).value.href)
    ensures parse(SuccessUrl(env)).None? || parse(FailureUrl(env)).None? ==>
              GoogleAuthSuccess(env, parse) == Redirect(FailureUrl(env))
  {
    SafeRedirectDecides(SuccessUrl(env), FailureUrl(env), env, parse);
  }

  const OAuthCancelled := "?error=oauth_cancelled"

  /** `googleAuthFailure`: back to the failure page with `error=oauth_cancelled`. */
  function GoogleAuthFailure(env: Env, parse: UrlParser): (o: Outcome)
    ensures o.Redirect?
  {
    Redirect(SafeRedirect(FailureUrl(env) + OAuthCancelled, FailureUrl(env), env, parse))
  }

  /** When the configured URLs parse and the query keeps the failure URL's origin, as it
      does for every absolute URL, the cancelled login goes to the failure page with the
      error in its query; otherwise to the bare failure URL. */
  lemma CancelGoesToFailurePage(env: Env, parse: UrlParser, href: string)
    requires parse(SuccessUrl(env)).Some? && parse(FailureUrl(env)).Some?
    requires parse(FailureUrl(env) + OAuthCancelled) == Some(Url(parse(FailureUrl(env)).value.origin, href))
    ensures GoogleAuthFailure(env, parse) == Redirect(href)
  {
    SafeRedirectDecides(FailureUrl(env) + OAuthCancelled, FailureUrl(env), env, parse);
  }

  /** The failure handler never leaves the front end: it redirects to the failure URL or to
      a URL with one of the two configured origins. */
  lemma CancelStaysOnFrontend(env: Env, parse: UrlParser)
    ensures var target := GoogleAuthFailure(env, parse).location;
            || target == FailureUrl(env)
            || (exists u :: parse(FailureUrl(env) + OAuthCancelled) == Some(u) && target == u.href &&
                            u.origin in {parse(SuccessUrl(env)).value.origin, parse(FailureUrl(env)).value.origin})
  {
    SafeRedirectDecides(FailureUrl(env) + OAuthCancelled, FailureUrl(env), env, parse);
  }

  /** The user every caller gets. */
  function DummyUser(): Json {
    JObj([("id", JStr("dummy-id")), ("email", JStr("dummy@example.com")), ("name", JStr("Dummy User")),
          ("avatar", JNull), ("role", JStr("admin"))])
  }

  /** `getCurrentUser`: the session is not consulted. */
  function GetCurrentUser(session: Json): (o: Outcome)
    ensures o.SendJson? && o.status == 200 && Get(o.body, "success") == JBool(true)
  {
    SendJson(200, JObj([("success", JBool(true)), ("user", DummyUser())]))
  }

  /** Whatever the session holds, even none at all, the same admin user is reported. */
  lemma CurrentUserIgnoresSession(s1: Json, s2: Json)
    ensures GetCurrentUser(s1) == GetCurrentUser(s2)
    ensures var user := Get(GetCurrentUser(s1).body, "user");
            && Get(user, "role") == JStr("admin") && Get(user, "id") == JStr("dummy-id")
  {
    var fields := [("success", JBool(true)), ("user", DummyUser())];
    assert fields[1..] == [("user", DummyUser())];
    assert "success"[0] != "user"[0];
    var u := DummyUser().fields;
    assert u[1..][1..][1..][1..] == [("role", JStr("admin"))];
  }

  /** `logout`: the session is left as it is and success is reported. */
  function Logout(session: Json): (o: Outcome)
    ensures o.SendJson? && o.status == 200 && Get(o.body, "success") == JBool(true)
  {
    SendJson(200, JObj([("success", JBool(true)), ("message", JStr("Logged out successfully"))]))
  }
}
