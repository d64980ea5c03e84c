/** `middleware/tenant.js`: the tenant of a request is named by a header or a query
    parameter, looked up by shop domain, external id or internal id, and must be active. */
module TenantMiddleware {
  import opened Base
  import opened Strings
  import opened Store
  import opened ShopifyConfig
  import opened TenantRepo
  import opened JsonValue
  import opened Http

  /** Request headers under their lower-case names; `req.header(name)` ignores case. */
  type Headers = map<string, string>

  /** `req.header(name)`, a missing header reading as "" (both are falsy). */
  function Header(h: Headers, name: string): string {
    if ToLower(name) in h then h[ToLower(name)] else ""
  }

  /** `req.header('X-Tenant-Key') || req.header('x-tenant-key') || req.header('X-Shop-Domain')
      || req.header('x-shop-domain')` */
  function HeaderKey(h: Headers): string {
    var a := Header(h, "X-Tenant-Key");
    if a != "" then a
    else
      var b := Header(h, "x-tenant-key");
      if b != "" then b
      else
        var c := Header(h, "X-Shop-Domain");
        if c != "" then c else Header(h, "x-shop-domain")
  }

  /** `req.query.tenant || req.query.shop`, `None` when both are falsy. */
  function QueryKey(q: Query): (r: Option<QValue>)
    ensures r.Some? ==> QTruthy(r)
  {
    if QTruthy(Lookup(q, "tenant")) then Lookup(q, "tenant")
    else if QTruthy(Lookup(q, "shop")) then Lookup(q, "shop")
    else None
  }

  /** `(headerKey || qsKey || '').toString().trim()` */
  function TenantKey(h: Headers, q: Query): (k: string)
    ensures k == [] || (!IsWhitespace(k[0]) && !IsWhitespace(k[|k| - 1]))
    ensures HeaderKey(h) == "" && QueryKey(q).None? ==> k == ""
    ensures HeaderKey(h) != "" ==> k == Trim(HeaderKey(h))
  {
    var raw := if HeaderKey(h) != "" then HeaderKey(h) else if QueryKey(q).Some? then Render(QueryKey(q).value) else "";
    Trim(raw)
  }

  const MissingKey := "Missing tenant key (X-Tenant-Key or ?tenant=)"
  const NotActive := "Tenant not found or inactive"

  /** `req.tenant`: the fields of the tenant a later handler may use. */
  datatype TenantContext = TenantContext(id: string, tenantId: string, shopDomain: string,
                                         accessToken: Option<string>, scopes: Option<string>)

  function ContextOf(t: Tenant): TenantContext {
    TenantContext(t.id, t.tenantId, t.shopDomain, t.accessToken, t.scopes)
  }

  /** `resolveTenant(req, res, next)` over the tenant table; `lookupError` is the error the
      database lookup throws, if it does. Returns what happens to the request and the
      `req.tenant` it sets. */
  method ResolveTenant(tenants: map<string, Tenant>, h: Headers, q: Query, lookupError: Option<string>)
    returns (o: Outcome, ctx: Option<TenantContext>)
    ensures TenantKey(h, q) == "" ==> o == ErrorJson(400, MissingKey) && ctx.None?
    ensures TenantKey(h, q) != "" && lookupError.Some? ==> o == CallNextWithError(lookupError.value) && ctx.None?
    ensures TenantKey(h, q) != "" && lookupError.None? &&
            (forall t :: t in tenants.Values && MatchesKey(t, TenantKey(h, q)) ==> t.status != "active") ==>
              o == ErrorJson(403, NotActive) && ctx.None?
    ensures o == CallNext <==> ctx.Some?
    ensures o in {ErrorJson(400, MissingKey), ErrorJson(403, NotActive), CallNext} ||
            (lookupError.Some? && o == CallNextWithError(lookupError.value))
    ensures ctx.Some? ==>
              exists t :: t in tenants.Values && MatchesKey(t, TenantKey(h, q)) && t.status == "active"
                && ctx.value == ContextOf(t)
    ensures TenantKey(h, q) != "" && lookupError.None? &&
            (exists t :: t in tenants.Values && MatchesKey(t, TenantKey(h, q))) &&
            (forall t :: t in tenants.Values && MatchesKey(t, TenantKey(h, q)) ==> t.status == "active") ==>
              o == CallNext && ctx.Some?
  {
    var key := TenantKey(h, q);
    if key == "" {
      return ErrorJson(400, MissingKey), None;
    }
    if lookupError.Some? {
      return CallNextWithError(lookupError.value), None;
    }
    var tenant := FindByShopOrTenantKey(tenants, key);
    if tenant.None? || tenant.value.status != "active" {
      return ErrorJson(403, NotActive), None;
    }
    return CallNext, Some(ContextOf(tenant.value));
  }

  // ---------------------------------------------------------------------------
  // properties
  // ---------------------------------------------------------------------------

  lemma LowerNames()
    ensures ToLower("X-Tenant-Key") == "x-tenant-key"
    ensures ToLower("x-tenant-key") == "x-tenant-key"
    ensures ToLower("X-Shop-Domain") == "x-shop-domain"
    ensures ToLower("x-shop-domain") == "x-shop-domain"
  {
    assert ToLower("X-Tenant-Key") == "x-tenant-key" by {
      assert forall i :: 0 <= i < 12 ==> ToLower("X-Tenant-Key")[i] == "x-tenant-key"[i];
    }
    assert ToLower("x-tenant-key") == "x-tenant-key" by {
      assert forall i :: 0 <= i < 12 ==> ToLower("x-tenant-key")[i] == "x-tenant-key"[i];
    }
    assert ToLower("X-Shop-Domain") == "x-shop-domain" by {
      assert forall i :: 0 <= i < 13 ==> ToLower("X-Shop-Domain")[i] == "x-shop-domain"[i];
    }
    assert ToLower("x-shop-domain") == "x-shop-domain" by {
      assert forall i :: 0 <= i < 13 ==> ToLower("x-shop-domain")[i] == "x-shop-domain"[i];
    }
  }

  /** The key comes from the `x-tenant-key` header, then the `x-shop-domain` header (the
      lower-case lookups repeat the mixed-case ones), then `?tenant`, then `?shop`: the first
      that is not empty wins, and it is trimmed. */
  lemma KeyPrecedence(h: Headers, q: Query)
    ensures var tk := if "x-tenant-key" in h then h["x-tenant-key"] else "";
            var sd := if "x-shop-domain" in h then h["x-shop-domain"] else "";
            && (tk != "" ==> TenantKey(h, q) == Trim(tk))
            && (tk == "" && sd != "" ==> TenantKey(h, q) == Trim(sd))
            && (tk == "" && sd == "" && QTruthy(Lookup(q, "tenant")) ==>
                  TenantKey(h, q) == Trim(Render(Lookup(q, "tenant").value)))
            && (tk == "" && sd == "" && !QTruthy(Lookup(q, "tenant")) && QTruthy(Lookup(q, "shop")) ==>
                  TenantKey(h, q) == Trim(Render(Lookup(q, "shop").value)))
            && (tk == "" && sd == "" && !QTruthy(Lookup(q, "tenant")) && !QTruthy(Lookup(q, "shop")) ==>
                  TenantKey(h, q) == "")
  {
    LowerNames();
  }

  /** A header holding only blanks is truthy, so it hides a valid `?tenant` and the request
      is refused with 400 after trimming. */
  lemma BlankHeaderHidesQuery(h: Headers, q: Query)
    requires h == map["x-tenant-key" := "  "]
    requires q == [("tenant", QStr("ten_0123456789abcdef"))]
    ensures TenantKey(h, q) == ""
  {
    LowerNames();
    assert Trim("  ") == "" by {
      assert TrimStart(" ") == "";
    }
  }
}
