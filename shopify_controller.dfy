/** `shopify.controller.js`: the install redirect and the OAuth callback that stores the
    tenant, subscribes its webhooks and sends the merchant to the frontend. */
module ShopifyController {
  import opened Base
  import opened Strings
  import opened JsonValue
  import opened Store
  import opened ShopifyConfig
  import opened TenantRepo
  import opened Http
  import ShopifyService
  import WebhookService

  /** `String(req.query.shop || '').trim().toLowerCase()` */
  function ShopParam(q: Query): (r: string)
    ensures forall i :: 0 <= i < |r| ==> !('A' <= r[i] <= 'Z')
  {
    NormaliseShop(QueryText(q, "shop"))
  }

  /** `.trim().toLowerCase()` of the shop text. */
  function NormaliseShop(raw: string): (r: string)
    ensures forall i :: 0 <= i < |r| ==> !('A' <= r[i] <= 'Z')
  {
    ToLower(Trim(raw))
  }

  /** A shop name with whitespace around it normalises to the lower-cased name itself. */
  lemma NormalisePadded(ws: string, shop: string, ws2: string)
    requires forall k :: 0 <= k < |ws| ==> IsWhitespace(ws[k])
    requires forall k :: 0 <= k < |ws2| ==> IsWhitespace(ws2[k])
    requires shop != [] && !IsWhitespace(shop[0]) && !IsWhitespace(shop[|shop| - 1])
    ensures NormaliseShop(ws + shop + ws2) == ToLower(shop)
  {
    TrimPadded(ws, shop, ws2);
  }

  /** Normalising an already normalised shop changes nothing. */
  lemma NormaliseIdempotent(raw: string)
    ensures NormaliseShop(NormaliseShop(raw)) == NormaliseShop(raw)
  {
    var t := Trim(raw);
    var r := ToLower(t);
    ToLowerIdempotent(t);
    if r != [] {
      assert IsWhitespace(r[0]) <==> IsWhitespace(t[0]);
      assert IsWhitespace(r[|r| - 1]) <==> IsWhitespace(t[|t| - 1]);
    }
    TrimNoOp(r);
  }

  const InvalidShop := "Invalid or missing shop domain"

  /** `startShopifyInstall(req, res, next)`; `random16` and `enc` as for `buildInstallUrl`. */
  function StartShopifyInstall(q: Query, env: Env, random16: seq<byte>, enc: string -> string): (o: Outcome)
    requires |random16| == 16
    ensures !EndsWith(ShopParam(q), ShopSuffix) ==> o == ErrorJson(400, InvalidShop)
    ensures o.Redirect? <==> EndsWith(ShopParam(q), ShopSuffix) && GetEnv(env, "SHOPIFY_API_KEY").Ok? &&
                             GetEnv(env, "SHOPIFY_SCOPES").Ok? && GetEnv(env, "SHOPIFY_REDIRECT_URI").Ok?
    ensures o.Redirect? ==> StartsWith(o.location, "https://" + ShopParam(q) + "/admin/oauth/authorize?")
    ensures o == ErrorJson(400, InvalidShop) || o.Redirect? || o.CallNextWithError?
  {
    InstallAnswer(ShopParam(q), env, random16, enc)
  }

  /** The answer of `startShopifyInstall` for the normalised shop. */
  function InstallAnswer(shop: string, env: Env, random16: seq<byte>, enc: string -> string): (o: Outcome)
    requires |random16| == 16
    ensures !EndsWith(shop, ShopSuffix) ==> o == ErrorJson(400, InvalidShop)
    ensures o.Redirect? <==> ShopifyService.GetInstallUrl(shop, env, random16, enc).Ok?
    ensures o.Redirect? ==> o.location == ShopifyService.GetInstallUrl(shop, env, random16, enc).value.url
    ensures o == ErrorJson(400, InvalidShop) || o.Redirect? || o.CallNextWithError?
  {
    if shop == "" || !EndsWith(shop, ShopSuffix) then ErrorJson(400, InvalidShop)
    else
      match ShopifyService.GetInstallUrl(shop, env, random16, enc)
      case Err(m) => CallNextWithError(m)
      case Ok(u) => Redirect(u.url)
  }

  /** The topics subscribed at install. */
  const WebhookTopics := ["orders/create", "orders/updated", "orders/fulfilled", "orders/cancelled",
                          "customers/create", "customers/update", "products/create", "products/update",
                          "products/delete", "app/uninstalled"]

  /** The callback up to the upsert: the answer it already gives, or the tenant input with
      the shop and the token the later steps use. */
  datatype Prepared =
    | Answer(o: Outcome)
    | Install(input: TenantInput, shop: string, accessToken: string)

  /** The token as the REST client sees it: a missing one counts as absent. */
  function TokenText(t: Js<string>): string {
    if t.Val? then t.v else ""
  }

  /** Steps 1 to 4 of `shopifyCallback`: the HMAC, the `shop` and `code` parameters, the code
      exchange (answered by `tokenReply`) and the shop info (answered by `shopReply`). A
      value Prisma refuses makes the upsert throw, which hands the error to `next`. */
  function PrepareInstall(q: Query, env: Env, hmacHex: (string, string) -> string, tokenReply: Reply<Json>,
                          shopReply: Reply<Json>): Prepared
  {
    match VerifyOAuthCallbackHmac(q, env, hmacHex)
    case Err(m) => Answer(CallNextWithError(m))
    case Ok(valid) =>
      if !valid then Answer(ErrorJson(400, "Invalid HMAC"))
      else
        var shop := ShopParam(q);
        var code := QueryText(q, "code");
        if shop == "" || code == "" then Answer(ErrorJson(400, "Missing shop or code"))
        else TokenAndShop(shop, env, tokenReply, shopReply)
  }

  /** Steps 3 and 4 of `shopifyCallback` for a given shop: the code exchange, the token it
      grants and the shop info fetched with that token. */
  function TokenAndShop(shop: string, env: Env, tokenReply: Reply<Json>, shopReply: Reply<Json>): Prepared {
    match ExchangeCodeForToken(env, tokenReply)
    case Err(m) => Answer(CallNextWithError(m))
    case Ok(tokenResp) =>
      match Prop(tokenResp, "access_token")
      case Err(m) => Answer(CallNextWithError(m))
      case Ok(token) =>
        match ShopifyService.StringArg("accessToken", token)
        case Err(m) => Answer(CallNextWithError(m))
        case Ok(accessToken) =>
          var info := Get(ShopifyService.GetShopInfo(shop, TokenText(accessToken), env, shopReply), "shop");
          InstallFrom(shop, accessToken, tokenResp, info)
  }

  /** Step 5 of `shopifyCallback` up to the upsert: the tenant's fields from the token
      response and the `shop` object of the shop info, with the name, currency and null
      defaults the callback applies. */
  function InstallFrom(shop: string, accessToken: Js<string>, tokenResp: Json, info: Json): Prepared {
    var fields := [ShopifyService.StringArg("scopes", Get(tokenResp, "scope")),
                   ShopifyService.StringArg("shopName", Coalesce(Get(info, "name"), JStr(shop))),
                   ShopifyService.StringArg("email", Coalesce(Get(info, "email"), JNull)),
                   ShopifyService.StringArg("currency", Coalesce(Get(info, "currency"), JStr("USD"))),
                   ShopifyService.StringArg("timezone", Coalesce(Get(info, "iana_timezone"), JNull))];
    if exists i :: 0 <= i < 5 && fields[i].Err? then Answer(CallNextWithError(FirstError(fields)))
    else
      Install(TenantInput(shop, accessToken, fields[0].value, fields[1].value, fields[2].value,
                          fields[3].value, fields[4].value, Some("active")),
              shop, TokenText(accessToken))
  }

  /** The message of the first refused argument. */
  function FirstError(fields: seq<Result<Js<string>>>): string {
    if fields == [] then ""
    else if fields[0].Err? then fields[0].msg
    else FirstError(fields[1..])
  }

  /** `FRONTEND_SUCCESS_URL`, or `/`. */
  function SuccessBase(env: Env): string {
    var v := GetEnv(env, "FRONTEND_SUCCESS_URL");
    if v.Ok? then v.value else "/"
  }

  /** The query string of the final redirect. */
  function InstalledQuery(shop: string, tenantId: string, enc: string -> string): string {
    "installed_shop=" + enc(shop) + "&tenantId=" + tenantId
  }

  /** `shopifyCallback(req, res, next)`. `post` answers the webhook subscriptions, whose
      failure is only logged; `random8` draws a new tenant's external id. */
  method ShopifyCallback(db: Db, q: Query, env: Env, hmacHex: (string, string) -> string, tokenReply: Reply<Json>,
                         shopReply: Reply<Json>, post: (string, string) -> Reply<Option<int>>,
                         random8: seq<byte>, enc: string -> string)
    returns (o: Outcome)
    requires |random8| == 8
    modifies db`tenants, db`nextId
    ensures PrepareInstall(q, env, hmacHex, tokenReply, shopReply).Answer? ==>
              o == PrepareInstall(q, env, hmacHex, tokenReply, shopReply).o
              && db.tenants == old(db.tenants) && db.nextId == old(db.nextId)
    ensures PrepareInstall(q, env, hmacHex, tokenReply, shopReply).Install? ==>
              var p := PrepareInstall(q, env, hmacHex, tokenReply, shopReply);
              && p.input.shopDomain in db.tenants
              && db.tenants == old(db.tenants)[p.input.shopDomain := db.tenants[p.input.shopDomain]]
              && (p.input.shopDomain in old(db.tenants) ==>
                    db.tenants[p.input.shopDomain] == UpdatedTenant(old(db.tenants)[p.input.shopDomain], p.input))
              && (p.input.shopDomain !in old(db.tenants) ==>
                    db.tenants[p.input.shopDomain] == CreatedTenant(IdText(old(db.nextId)), p.input, random8))
              && o == Redirect(SuccessBase(env) + "?" +
                               InstalledQuery(p.shop, db.tenants[p.input.shopDomain].id, enc))
  {
    var p := PrepareInstall(q, env, hmacHex, tokenReply, shopReply);
    if p.Answer? {
      return p.o;
    }
    var tenant := UpsertTenant(db, p.input, random8);
    var registered := RegisterWebhooks(p.shop, p.accessToken, WebhookTopics, env, post);
    return Redirect(SuccessBase(env) + "?" + InstalledQuery(p.shop, tenant.id, enc));
  }

  // ---------------------------------------------------------------------------
  // properties
  // ---------------------------------------------------------------------------

  /** The install redirect goes to Shopify's authorize page of the normalised shop, which is
      lower-case and ends in `.myshopify.com`; anything else is refused with 400 or handed
      to `next`. */
  lemma InstallRedirectsToShop(q: Query, env: Env, random16: seq<byte>, enc: string -> string)
    requires |random16| == 16
    ensures var o := StartShopifyInstall(q, env, random16, enc);
            var shop := ShopParam(q);
            && (o == ErrorJson(400, InvalidShop) <==> !EndsWith(shop, ShopSuffix))
            && (o.Redirect? <==> EndsWith(shop, ShopSuffix) && BuildInstallUrl(shop, env, random16, enc).Ok?)
            && (o.Redirect? ==> o.location == BuildInstallUrl(shop, env, random16, enc).value.url
                                && o.location[..8 + |shop|] == "https://" + shop)
  {
    InstallAnswerForShop(ShopParam(q), env, random16, enc);
  }

  /** `InstallRedirectsToShop` for any shop string. */
  lemma InstallAnswerForShop(shop: string, env: Env, random16: seq<byte>, enc: string -> string)
    requires |random16| == 16
    ensures var o := InstallAnswer(shop, env, random16, enc);
            && (o == ErrorJson(400, InvalidShop) <==> !EndsWith(shop, ShopSuffix))
            && (o.Redirect? <==> EndsWith(shop, ShopSuffix) && BuildInstallUrl(shop, env, random16, enc).Ok?)
            && (o.Redirect? ==> o.location == BuildInstallUrl(shop, env, random16, enc).value.url
                                && o.location[..8 + |shop|] == "https://" + shop)
  {
    if shop == "" {
      assert !EndsWith(shop, ShopSuffix);
    }
    ShopifyService.GetInstallUrlIsBuildInstallUrl(shop, env, random16, enc);
    var b := BuildInstallUrl(shop, env, random16, enc);
    if b.Ok? {
      assert b.value.url[..8 + |shop|] == "https://" + shop;
    }
  }

  /** A callback whose HMAC does not verify is refused before anything else, whatever the
      token and shop replies would be. */
  lemma CallbackChecksHmacFirst(q: Query, env: Env, hmacHex: (string, string) -> string,
                                t1: Reply<Json>, s1: Reply<Json>, t2: Reply<Json>, s2: Reply<Json>)
    requires VerifyOAuthCallbackHmac(q, env, hmacHex) == Ok(false)
    ensures PrepareInstall(q, env, hmacHex, t1, s1) == PrepareInstall(q, env, hmacHex, t2, s2)
                                                     == Answer(ErrorJson(400, "Invalid HMAC"))
  {
  }

  /** A tenant stored by the callback is active under the lower-case shop, with the granted
      scope, and with USD as currency when Shopify names none. */
  lemma CallbackStoresActiveTenant(q: Query, env: Env, hmacHex: (string, string) -> string, tokenReply: Reply<Json>,
                                   shopReply: Reply<Json>)
    requires PrepareInstall(q, env, hmacHex, tokenReply, shopReply).Install?
    ensures var p := PrepareInstall(q, env, hmacHex, tokenReply, shopReply);
            var info := ShopifyService.GetShopInfo(p.shop, p.accessToken, env, shopReply);
            && VerifyOAuthCallbackHmac(q, env, hmacHex) == Ok(true)
            && p.shop == p.input.shopDomain == ShopParam(q) != ""
            && QueryText(q, "code") != ""
            && StatusOf(p.input) == "active"
            && tokenReply.Reply? && IsOk(tokenReply.status)
            && (Get(tokenReply.body, "scope").JStr? ==> p.input.scopes == Val(Get(tokenReply.body, "scope").s))
            && (Get(Get(info, "shop"), "currency").JUndefined? ==> p.input.currency == Val("USD"))
            && (info == JNull ==>
                  p.input.shopName == Val(p.shop) && p.input.email == Null && p.input.currency == Val("USD")
                  && p.input.timezone == Null)
  {
    var shop := ShopParam(q);
    assert PrepareInstall(q, env, hmacHex, tokenReply, shopReply) == TokenAndShop(shop, env, tokenReply, shopReply);
    TokenAndShopInstalls(shop, env, tokenReply, shopReply);
  }

  /** A shop that gets through steps 3 and 4 had its code exchanged with a 2xx reply, and
      its tenant is built from the shop info fetched with the granted token. */
  lemma TokenAndShopInstalls(shop: string, env: Env, tokenReply: Reply<Json>, shopReply: Reply<Json>)
    requires TokenAndShop(shop, env, tokenReply, shopReply).Install?
    ensures var p := TokenAndShop(shop, env, tokenReply, shopReply);
            var info := ShopifyService.GetShopInfo(p.shop, p.accessToken, env, shopReply);
            && p.shop == p.input.shopDomain == shop
            && StatusOf(p.input) == "active"
            && tokenReply.Reply? && IsOk(tokenReply.status)
            && (Get(tokenReply.body, "scope").JStr? ==> p.input.scopes == Val(Get(tokenReply.body, "scope").s))
            && (Get(Get(info, "shop"), "currency").JUndefined? ==> p.input.currency == Val("USD"))
            && (info == JNull ==>
                  p.input.shopName == Val(p.shop) && p.input.email == Null && p.input.currency == Val("USD")
                  && p.input.timezone == Null)
  {
    var tokenResp := ExchangeCodeForToken(env, tokenReply).value;
    var accessToken := ShopifyService.StringArg("accessToken", Prop(tokenResp, "access_token").value).value;
    var info := ShopifyService.GetShopInfo(shop, TokenText(accessToken), env, shopReply);
    assert TokenAndShop(shop, env, tokenReply, shopReply) == InstallFrom(shop, accessToken, tokenResp, Get(info, "shop"));
    InstallFromDefaults(shop, accessToken, tokenResp, Get(info, "shop"));
  }

  /** The tenant fields the callback builds: active, under the given shop, with the granted
      scope, and with the name, currency and null defaults for a missing shop object. */
  lemma InstallFromDefaults(shop: string, accessToken: Js<string>, tokenResp: Json, info: Json)
    requires InstallFrom(shop, accessToken, tokenResp, info).Install?
    ensures var p := InstallFrom(shop, accessToken, tokenResp, info);
            && p.shop == p.input.shopDomain == shop
            && StatusOf(p.input) == "active"
            && (Get(tokenResp, "scope").JStr? ==> p.input.scopes == Val(Get(tokenResp, "scope").s))
            && (Get(info, "currency").JUndefined? ==> p.input.currency == Val("USD"))
            && (info == JUndefined ==>
                  p.input.shopName == Val(shop) && p.input.email == Null && p.input.currency == Val("USD")
                  && p.input.timezone == Null)
  {
  }

  /** One `name=value` entry splits at its `=` back into the two. */
  lemma EntryParts(name: string, v: string)
    requires '=' !in name && '=' !in v
    ensures Split(name + "=" + v, '=') == [name, v]
  {
    assert name + "=" + v == name + ['='] + v;
    SplitAfterFirst(name, v, '=');
    SplitWithoutSep(v, '=');
  }

  /** The redirect carries the shop and the tenant's id as query parameters that read back
      as they were written (the shop form-encoded). */
  lemma RedirectCarriesTenant(shop: string, tenantId: string, enc: string -> string)
    requires FormSafe(enc)
    requires '&' !in tenantId && '=' !in tenantId
    ensures QueryParam(InstalledQuery(shop, tenantId, enc), "installed_shop") == Some(enc(shop))
    ensures QueryParam(InstalledQuery(shop, tenantId, enc), "tenantId") == Some(tenantId)
  {
    var a := "installed_shop=" + enc(shop);
    var b := "tenantId=" + tenantId;
    assert '&' !in a && '&' !in b;
    assert InstalledQuery(shop, tenantId, enc) == a + ['&'] + b;
    SplitAfterFirst(a, b, '&');
    SplitWithoutSep(b, '&');
    var entries := Split(InstalledQuery(shop, tenantId, enc), '&');
    assert entries == [a, b];
    EntryParts("installed_shop", enc(shop));
    EntryParts("tenantId", tenantId);
    assert a == "installed_shop" + "=" + enc(shop);
    assert Split(entries[0], '=')[1..] == [enc(shop)];
    assert entries[1..] == [b];
    assert Split(entries[0], '=')[0] != "tenantId";
    assert b == "tenantId" + "=" + tenantId;
    assert Split(b, '=')[1..] == [tenantId];
    assert FindParam(entries, "tenantId") == FindParam([b], "tenantId");
  }

  /** Of the ten subscribed topics only four reach a table through the webhook service:
      `customers/update` and `products/update` are not the `…/updated` it routes. */
  lemma SubscribedTopicsRouted()
    ensures |WebhookTopics| == 10
    ensures forall i :: 0 <= i < |WebhookTopics| ==>
              (WebhookService.Route(WebhookTopics[i]).Some? <==> i in {0, 1, 4, 6})
  {
    assert "customers/update" != "customers/updated";
    assert "products/update" != "products/updated";
    assert WebhookService.Route(WebhookTopics[5]).None?;
    assert WebhookService.Route(WebhookTopics[7]).None?;
  }
}
