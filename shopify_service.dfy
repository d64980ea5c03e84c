/** `shopify.service.js`: the install URL, the OAuth callback (HMAC, code exchange, tenant
    upsert) and the shop-info fetch. */
module ShopifyService {
  import opened Base
  import opened Strings
  import opened JsonValue
  import opened Store
  import opened ShopifyConfig
  import opened TenantRepo

  /** `getInstallUrl(shop)`: the shop must be present and end in `.myshopify.com`. */
  function GetInstallUrl(shop: string, env: Env, random16: seq<byte>, enc: string -> string): (r: Result<InstallUrl>)
    requires |random16| == 16
    ensures !EndsWith(shop, ShopSuffix) ==> r == Err("Invalid shop domain")
    ensures r.Ok? <==> EndsWith(shop, ShopSuffix) && GetEnv(env, "SHOPIFY_API_KEY").Ok? &&
                       GetEnv(env, "SHOPIFY_SCOPES").Ok? && GetEnv(env, "SHOPIFY_REDIRECT_URI").Ok?
    ensures r.Ok? ==> StartsWith(r.value.url, "https://" + shop + "/admin/oauth/authorize?") &&
                      r.value.state == Hex(random16)
  {
    if shop == "" || !EndsWith(shop, ShopSuffix) then Err("Invalid shop domain")
    else BuildInstallUrl(shop, env, random16, enc)
  }

  /** The service's own check repeats the one `buildInstallUrl` makes: for every shop the
      two answer alike. */
  lemma GetInstallUrlIsBuildInstallUrl(shop: string, env: Env, random16: seq<byte>, enc: string -> string)
    requires |random16| == 16
    ensures GetInstallUrl(shop, env, random16, enc) == BuildInstallUrl(shop, env, random16, enc)
  {
    if shop == "" {
      assert !EndsWith(shop, ShopSuffix);
    }
  }

  /** `env.SHOPIFY_SCOPES`, with the default of the configuration module. */
  function ConfiguredScopes(env: Env): string {
    var v := GetEnv(env, "SHOPIFY_SCOPES");
    if v.Ok? then v.value else "read_products,read_orders,read_customers"
  }

  /** A JavaScript value passed to Prisma for a nullable string column: undefined leaves the
      column out, null stores null, a string is stored; anything else is refused. */
  function StringArg(field: string, j: Json): (r: Result<Js<string>>)
    ensures r.Ok? <==> j.JUndefined? || j.JNull? || j.JStr?
    ensures j.JStr? ==> r == Ok(Val(j.s))
    ensures j.JNull? ==> r == Ok(Null)
    ensures j.JUndefined? ==> r == Ok(Undefined)
  {
    match j
    case JUndefined => Ok(Undefined)
    case JNull => Ok(Null)
    case JStr(s) => Ok(Val(s))
    case _ => Err(InvalidArgument(field))
  }

  /** The gist of Prisma's validation error for a value of the wrong type. */
  function InvalidArgument(field: string): string {
    "Argument `" + field + "`: Invalid value provided. Expected String."
  }

  /** A query value passed where Prisma expects a string: a repeated name gives an array. */
  function QueryArg(field: string, v: QValue): (r: Result<string>)
    ensures r.Ok? <==> v.QStr?
    ensures r.Ok? ==> r.value == v.s
  {
    if v.QStr? then Ok(v.s) else Err(InvalidArgument(field))
  }

  /** `grantedScopes || scope || env.SHOPIFY_SCOPES` */
  function ChosenScopes(granted: Json, queryScope: Option<QValue>, env: Env): (r: Result<Js<string>>)
    ensures Truthy(granted) ==> r == StringArg("scopes", granted)
    ensures !Truthy(granted) && QTruthy(queryScope) && queryScope.value.QStr? ==> r == Ok(Val(queryScope.value.s))
    ensures !Truthy(granted) && !QTruthy(queryScope) ==> r == Ok(Val(ConfiguredScopes(env)))
  {
    if Truthy(granted) then StringArg("scopes", granted)
    else if QTruthy(queryScope) then
      match QueryArg("scopes", queryScope.value)
      case Err(m) => Err(m)
      case Ok(s) => Ok(Val(s))
    else Ok(Val(ConfiguredScopes(env)))
  }

  const InvalidHmac := "Invalid HMAC"
  const MissingCodeShop := "Missing code/shop"

  /** Everything `handleOAuthCallback(query)` does before the upsert: the tenant input it
      would store, or the error it throws. `tokenReply` answers the code exchange. */
  function CallbackInput(q: Query, env: Env, hmacHex: (string, string) -> string, tokenReply: Reply<Json>)
    : (r: Result<TenantInput>)
  {
    match VerifyOAuthCallbackHmac(q, env, hmacHex)
    case Err(m) => Err(m)
    case Ok(valid) =>
      if !valid then Err(InvalidHmac)
      else if !QTruthy(Lookup(q, "code")) || !QTruthy(Lookup(q, "shop")) then Err(MissingCodeShop)
      else
        match ExchangeCodeForToken(env, tokenReply)
        case Err(m) => Err(m)
        case Ok(data) =>
          match Prop(data, "access_token")
          case Err(m) => Err(m)
          case Ok(token) =>
            match QueryArg("shopDomain", Lookup(q, "shop").value)
            case Err(m) => Err(m)
            case Ok(shop) =>
              match StringArg("accessToken", token)
              case Err(m) => Err(m)
              case Ok(accessToken) =>
                match ChosenScopes(Get(data, "scope"), Lookup(q, "scope"), env)
                case Err(m) => Err(m)
                case Ok(scopes) =>
                  Ok(TenantInput(shop, accessToken, scopes, Undefined, Undefined, Undefined, Undefined, Some("active")))
  }

  /** `handleOAuthCallback(query)`, `random8` being the bytes a new tenant's external id
      draws. */
  method HandleOAuthCallback(db: Db, q: Query, env: Env, hmacHex: (string, string) -> string, tokenReply: Reply<Json>,
                             random8: seq<byte>) returns (r: Result<Tenant>)
    requires |random8| == 8
    modifies db`tenants, db`nextId
    ensures CallbackInput(q, env, hmacHex, tokenReply).Err? ==>
              r == Err(CallbackInput(q, env, hmacHex, tokenReply).msg)
              && db.tenants == old(db.tenants) && db.nextId == old(db.nextId)
    ensures CallbackInput(q, env, hmacHex, tokenReply).Ok? ==>
              var input := CallbackInput(q, env, hmacHex, tokenReply).value;
              && r.Ok?
              && db.tenants == old(db.tenants)[input.shopDomain := r.value]
              && (input.shopDomain in old(db.tenants) ==> r.value == UpdatedTenant(old(db.tenants)[input.shopDomain], input))
              && (input.shopDomain !in old(db.tenants) ==> r.value == CreatedTenant(IdText(old(db.nextId)), input, random8))
  {
    var input := CallbackInput(q, env, hmacHex, tokenReply);
    if input.Err? {
      return Err(input.msg);
    }
    var tenant := UpsertTenant(db, input.value, random8);
    return Ok(tenant);
  }

  /** `getShopInfo(shop, accessToken)`: the body of `GET /shop.json`, or null when the client
      cannot be built or the request fails. */
  function GetShopInfo(shop: string, accessToken: string, env: Env, reply: Reply<Json>): (r: Json)
    ensures BuildShopifyClient(shop, accessToken, env).Err? ==> r == JNull
    ensures BuildShopifyClient(shop, accessToken, env).Ok? && Request("GET", "/shop.json", reply).Err? ==> r == JNull
    ensures BuildShopifyClient(shop, accessToken, env).Ok? && reply.Reply? && IsOk(reply.status) ==> r == reply.body
  {
    match BuildShopifyClient(shop, accessToken, env)
    case Err(_) => JNull
    case Ok(_) =>
      match Request("GET", "/shop.json", reply)
      case Err(_) => JNull
      case Ok(res) => res.data
  }

  // ---------------------------------------------------------------------------
  // properties
  // ---------------------------------------------------------------------------

  /** The HMAC is checked first: a callback that fails it is refused before `code` and
      `shop` are looked at, and no token exchange happens, whatever its reply would be. */
  lemma HmacCheckedFirst(q: Query, env: Env, hmacHex: (string, string) -> string, r1: Reply<Json>, r2: Reply<Json>)
    requires VerifyOAuthCallbackHmac(q, env, hmacHex) == Ok(false)
    ensures CallbackInput(q, env, hmacHex, r1) == CallbackInput(q, env, hmacHex, r2) == Err(InvalidHmac)
  {
  }

  /** With a valid HMAC, a missing `code` or `shop` is refused without a token exchange. */
  lemma MissingCodeOrShopRefused(q: Query, env: Env, hmacHex: (string, string) -> string, r1: Reply<Json>,
                                 r2: Reply<Json>)
    requires VerifyOAuthCallbackHmac(q, env, hmacHex) == Ok(true)
    requires !QTruthy(Lookup(q, "code")) || !QTruthy(Lookup(q, "shop"))
    ensures CallbackInput(q, env, hmacHex, r1) == CallbackInput(q, env, hmacHex, r2) == Err(MissingCodeShop)
  {
  }

  /** A callback that gets through stores the tenant as active, under the queried shop, with
      the granted scope, else the queried one, else the configured default. */
  lemma CallbackStoresActiveTenant(q: Query, env: Env, hmacHex: (string, string) -> string, tokenReply: Reply<Json>)
    requires CallbackInput(q, env, hmacHex, tokenReply).Ok?
    ensures var input := CallbackInput(q, env, hmacHex, tokenReply).value;
            && StatusOf(input) == "active"
            && Lookup(q, "shop") == Some(QStr(input.shopDomain)) && input.shopDomain != ""
            && tokenReply.Reply? && IsOk(tokenReply.status)
            && var granted := Get(tokenReply.body, "scope");
               && (Truthy(granted) ==> input.scopes == Val(granted.s))
               && (!Truthy(granted) && QTruthy(Lookup(q, "scope")) ==> input.scopes == Val(Lookup(q, "scope").value.s))
               && (!Truthy(granted) && !QTruthy(Lookup(q, "scope")) ==> input.scopes == Val(ConfiguredScopes(env)))
  {
    var data := ExchangeCodeForToken(env, tokenReply).value;
    var shop := QueryArg("shopDomain", Lookup(q, "shop").value).value;
    var accessToken := StringArg("accessToken", Prop(data, "access_token").value).value;
    var scopes := ChosenScopes(Get(data, "scope"), Lookup(q, "scope"), env);
    assert CallbackInput(q, env, hmacHex, tokenReply)
        == Ok(TenantInput(shop, accessToken, scopes.value, Undefined, Undefined, Undefined, Undefined, Some("active")));
  }
}
