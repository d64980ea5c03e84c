/** `index.js`, the two parts of the server wiring that decide something: the CORS `origin`
    callback and the 404 answer for an unmatched route. */
module Server {
  import opened Strings
  import opened JsonValue
  import opened Http
  import opened Base
  import opened ShopifyConfig
  import opened ErrorHandler

  /** `.filter(Boolean)` on a list of strings: the non-empty ones, in order. */
  function NonEmpty(parts: seq<string>): (r: seq<string>)
    ensures forall s :: s in r <==> s in parts && s != ""
    ensures |r| <= |parts|
    decreases |parts|
  {
    if parts == [] then []
    else (if parts[0] == "" then [] else [parts[0]]) + NonEmpty(parts[1..])
  }

  /** A list with no empty string passes the filter unchanged. */
  lemma {:induction false} NonEmptyKeepsAll(parts: seq<string>)
    requires forall i :: 0 <= i < |parts| ==> parts[i] != ""
    ensures NonEmpty(parts) == parts
    decreases |parts|
  {
    if parts != [] {
      NonEmptyKeepsAll(parts[1..]);
      assert [parts[0]] + parts[1..] == parts;
    }
  }

  /** `env.CORS_ORIGINS`: `(CORS_ORIGINS || '').split(',').filter(Boolean)`. */
  function CorsOrigins(env: Env): (r: seq<string>)
    ensures forall i :: 0 <= i < |r| ==> r[i] != "" && ',' !in r[i]
  {
    var raw := if "CORS_ORIGINS" in env then env["CORS_ORIGINS"] else "";
    var parts := Split(raw, ',');
    var r := NonEmpty(parts);
    assert forall i :: 0 <= i < |r| ==> r[i] in parts;
    r
  }

  /** A configured list of non-empty origins without commas is read back as written. */
  lemma CorsOriginsOfList(env: Env, list: seq<string>)
    requires |list| >= 1
    requires forall i :: 0 <= i < |list| ==> list[i] != "" && ',' !in list[i]
    requires "CORS_ORIGINS" in env && env["CORS_ORIGINS"] == Join(list, ",")
    ensures CorsOrigins(env) == list
  {
    SplitJoin(list, ',');
    NonEmptyKeepsAll(list);
  }

  /** `env.NODE_ENV === 'development'`, with `NODE_ENV` defaulting to `development`. */
  predicate DevMode(env: Env) {
    Development(env)
  }

  const NotAllowedByCors := "Not allowed by CORS"

  /** The CORS `origin` callback: `Ok(true)` is `callback(null, true)`, an error is
      `callback(new Error(...))`. `origin` is "" when the request carries none. */
  function CorsOrigin(origin: string, origins: seq<string>, dev: bool): (r: Result<bool>)
    ensures r == Ok(true) || r == Err(NotAllowedByCors)
  {
    if origin == "" then Ok(true)
    else if |origins| > 0 && origin in origins then Ok(true)
    else if dev && (Contains(origin, "localhost") || Contains(origin, "127.0.0.1") || origin == "null") then Ok(true)
    else if |origins| == 0 then Ok(true)
    else Err(NotAllowedByCors)
  }

  /** The origins the server lets through are exactly: none at all, a configured one, a
      local one in development, and any one when nothing is configured. */
  lemma CorsAllows(origin: string, origins: seq<string>, dev: bool)
    ensures CorsOrigin(origin, origins, dev).Ok? <==>
              || origin == ""
              || origin in origins
              || (dev && (Contains(origin, "localhost") || Contains(origin, "127.0.0.1") || origin == "null"))
              || origins == []
  {
  }

  /** With the origins read from the environment: every configured origin is allowed,
      and outside development an unlisted origin is refused. */
  lemma ConfiguredOrigins(env: Env, list: seq<string>, origin: string)
    requires |list| >= 1
    requires forall i :: 0 <= i < |list| ==> list[i] != "" && ',' !in list[i]
    requires "CORS_ORIGINS" in env && env["CORS_ORIGINS"] == Join(list, ",")
    ensures origin in list ==> CorsOrigin(origin, CorsOrigins(env), DevMode(env)) == Ok(true)
    ensures origin != "" && origin !in list && !DevMode(env) ==>
              CorsOrigin(origin, CorsOrigins(env), DevMode(env)) == Err(NotAllowedByCors)
  {
    CorsOriginsOfList(env, list);
  }

  /** The development default: without `NODE_ENV` a local front end is let through even
      when a list is configured. */
  lemma LocalhostInDevelopment(env: Env, origins: seq<string>, port: string)
    requires "NODE_ENV" !in env
    ensures CorsOrigin("http://localhost:" + port, origins, DevMode(env)) == Ok(true)
  {
    var o := "http://localhost:" + port;
    assert OccursAt(o, "localhost", 7);
  }

  /** The answer for a route no router matched. */
  function NotFound(): (o: Outcome)
    ensures o.SendJson? && o.status == 404 && Get(o.body, "message") == JStr("not found")
  {
    SendJson(404, JObj([("message", JStr("not found"))]))
  }
}
