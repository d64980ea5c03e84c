/** `middleware/cache.js`: the response cache in front of a handler, its key generators
    and the two invalidation helpers. A cache hit answers at once; a miss hands the request
    on with `res.json` wrapped so that the body the handler sends is stored first. */
module CacheMiddleware {
  import opened Base
  import opened Strings
  import opened JsonValue
  import TenantMiddleware
  import opened RedisCache

  /** The parts of an Express request the cache reads. */
  datatype CacheRequest = CacheRequest(verb: string, path: string, query: Json, tenant: Option<TenantMiddleware.TenantContext>)

  /** The two outcomes of the middleware: `res.json(cached)` without calling `next`, or
      `next()` once with `res.json` wrapped to store under `key` for `ttl` seconds. */
  datatype CacheStep = Served(body: Json) | Wrapped(key: string, ttl: nat)

  /** The key when no generator is given: `api:{method}:{path}:{JSON.stringify(query)}`. */
  function DefaultKey(req: CacheRequest, stringify: Json -> string): (k: string)
    ensures StartsWith(k, "api:" + req.verb + ":" + req.path + ":")
  {
    "api:" + req.verb + ":" + req.path + ":" + stringify(req.query)
  }

  function CacheKey(req: CacheRequest, keyGenerator: Option<CacheRequest -> string>, stringify: Json -> string): string {
    match keyGenerator
    case Some(g) => g(req)
    case None => DefaultKey(req, stringify)
  }

  /** What the middleware does with what `cache.get` answered: a truthy value is served, and
      anything falsy (null, 0, "", false) counts as a miss. */
  function Decide(cached: Json, key: string, ttl: Option<nat>): (s: CacheStep)
    ensures s.Served? <==> Truthy(cached)
    ensures s.Served? ==> s.body == cached
    ensures s.Wrapped? ==> s.key == key && s.ttl == (if ttl.Some? then ttl.value else DefaultTtl)
  {
    if Truthy(cached) then Served(cached)
    else Wrapped(key, if ttl.Some? then ttl.value else DefaultTtl)
  }

  /** `cacheResponse(ttl, keyGenerator)` applied to one request. */
  method CacheResponse(c: Cache, req: CacheRequest, ttl: Option<nat>, keyGenerator: Option<CacheRequest -> string>,
                       fails: bool, stringify: Json -> string, parse: Parser) returns (s: CacheStep)
    requires c.Valid()
    modifies c`connected, c`creations
    ensures c.Valid() && c.connected == (old(c.connected) || c.canConnect)
    ensures var key := CacheKey(req, keyGenerator, stringify);
            s == Decide(if c.connected && !fails then Read(c.store, key, parse) else JNull, key, ttl)
  {
    var key := CacheKey(req, keyGenerator, stringify);
    var cached := c.Get(key, fails, parse);
    s := Decide(cached, key, ttl);
  }

  /** The wrapped `res.json(body)` after a miss: the body is stored (a failed store is only
      logged) and then sent unchanged. */
  method WrappedJson(c: Cache, step: CacheStep, body: Json, fails: bool, stringify: Json -> string)
    returns (sent: Json)
    requires c.Valid() && step.Wrapped?
    modifies c
    ensures c.Valid() && c.connected == (old(c.connected) || c.canConnect)
    ensures sent == body
    ensures c.connected && !fails ==> c.store == old(c.store)[step.key := Serialized(body, stringify)]
    ensures !(c.connected && !fails) ==> c.store == old(c.store)
  {
    var _ := c.Set(step.key, body, Some(step.ttl), fails, stringify);
    sent := body;
  }

  /** A miss followed by a truthy response makes the next identical request a hit that
      serves the same body, when stringify and parse undo each other. */
  lemma HitAfterMiss(store: map<string, string>, key: string, ttl: Option<nat>, body: Json,
                     stringify: Json -> string, parse: Parser)
    requires Truthy(body)
    requires body.JStr? ==> parse(body.s).None?
    requires !body.JStr? ==> parse(stringify(body)) == Some(body)
    ensures Decide(Read(store[key := Serialized(body, stringify)], key, parse), key, ttl) == Served(body)
  {
    ReadAfterSet(store, key, body, stringify, parse);
  }

  /** A cached falsy value is never served: the handler runs again and overwrites it. */
  lemma FalsyCachedIsMiss(store: map<string, string>, key: string, ttl: Option<nat>, text: string, parse: Parser)
    requires key in store && store[key] == text
    requires parse(text) in {Some(JNull), Some(JNum(Finite(0.0))), Some(JBool(false)), Some(JStr(""))}
    ensures Decide(Read(store, key, parse), key, ttl).Wrapped?
  {
  }

  /** `req.tenant?.id || 'unknown'` */
  function TenantIdOr(req: CacheRequest): (id: string)
    ensures id != ""
  {
    if req.tenant.Some? && req.tenant.value.id != "" then req.tenant.value.id else "unknown"
  }

  /** `req.path.split('/').pop()` */
  function LastSegment(path: string): (s: string)
    ensures '/' !in s
  {
    var parts := Split(path, '/');
    parts[|parts| - 1]
  }

  /** `cacheKeyGenerators.insights` */
  function InsightsKey(req: CacheRequest): (k: string)
    ensures StartsWith(k, "tenant:" + TenantIdOr(req) + ":insights")
    ensures ':' !in TenantIdOr(req) ==> |Split(k, ':')| >= 2 && Split(k, ':')[1] == TenantIdOr(req)
  {
    TenantKeyShape(TenantIdOr(req), "insights", LastSegment(req.path));
    TenantKey(TenantIdOr(req), "insights", LastSegment(req.path))
  }

  /** `req.tenant?.shopDomain || 'unknown'` */
  function ShopOr(req: CacheRequest): (shop: string)
    ensures shop != ""
    ensures req.tenant.Some? && req.tenant.value.shopDomain != "" ==> shop == req.tenant.value.shopDomain
  {
    if req.tenant.Some? && req.tenant.value.shopDomain != "" then req.tenant.value.shopDomain else "unknown"
  }

  /** `cacheKeyGenerators.shopify`, `params` rendering the query as `URLSearchParams` does. */
  function ShopifyCacheKey(req: CacheRequest, params: Json -> string): (k: string)
    ensures StartsWith(k, "shopify:" + ShopOr(req) + ":" + req.path)
    ensures ':' !in ShopOr(req) ==> |Split(k, ':')| >= 2 && Split(k, ':')[1] == ShopOr(req)
  {
    ShopifyKeyShape(ShopOr(req), req.path, params(req.query));
    ShopifyKey(ShopOr(req), req.path, params(req.query))
  }

  /** `cacheKeyGenerators.products` */
  function ProductsKey(req: CacheRequest, params: Json -> string): (k: string)
    ensures StartsWith(k, "tenant:" + TenantIdOr(req) + ":products")
    ensures ':' !in TenantIdOr(req) ==> |Split(k, ':')| >= 2 && Split(k, ':')[1] == TenantIdOr(req)
  {
    TenantKeyShape(TenantIdOr(req), "products", params(req.query));
    TenantKey(TenantIdOr(req), "products", params(req.query))
  }

  /** Products of two tenants, whose internal ids have no ':', are cached apart, and a
      product listing never shares a key with a Shopify response. */
  lemma ProductsKeysSeparate(r1: CacheRequest, r2: CacheRequest, params: Json -> string)
    requires ':' !in TenantIdOr(r1) && ':' !in TenantIdOr(r2)
    ensures ProductsKey(r1, params) == ProductsKey(r2, params) ==> TenantIdOr(r1) == TenantIdOr(r2)
    ensures ProductsKey(r1, params) != ShopifyCacheKey(r2, params)
  {
    if ProductsKey(r1, params) == ProductsKey(r2, params) {
      TenantKeysSeparateTenants(TenantIdOr(r1), "products", params(r1.query),
                                TenantIdOr(r2), "products", params(r2.query));
    }
    assert ProductsKey(r1, params)[0] == 't' && ShopifyCacheKey(r2, params)[0] == 's';
  }

  /** Insights of two tenants, whose internal ids have no ':', are cached apart; requests
      without a tenant all share the 'unknown' slot of their endpoint. */
  lemma InsightsKeysSeparateTenants(r1: CacheRequest, r2: CacheRequest)
    requires ':' !in TenantIdOr(r1) && ':' !in TenantIdOr(r2)
    ensures InsightsKey(r1) == InsightsKey(r2) ==> TenantIdOr(r1) == TenantIdOr(r2)
    ensures r1.tenant.None? && r2.tenant.None? && LastSegment(r1.path) == LastSegment(r2.path) ==>
              InsightsKey(r1) == InsightsKey(r2)
  {
    if InsightsKey(r1) == InsightsKey(r2) {
      TenantKeysSeparateTenants(TenantIdOr(r1), "insights", LastSegment(r1.path),
                                TenantIdOr(r2), "insights", LastSegment(r2.path));
    }
  }

  /** `cacheInvalidation.invalidateTenant(tenantId, resource)`: it only computes the pattern
      it would log; no key of the cache is deleted. */
  method InvalidateTenant(c: Cache, tenantId: string, resource: Option<string>) returns (pattern: string)
    ensures StartsWith(pattern, "tenant:" + tenantId + ":")
    ensures unchanged(c)
  {
    var r := if resource.Some? then resource.value else "*";
    pattern := TenantKey(tenantId, r, "");
    assert pattern == "tenant:" + tenantId + ":" + r;
  }

  /** `cacheInvalidation.invalidateKey(key)`: exactly that key is deleted. */
  method InvalidateKey(c: Cache, key: string, fails: bool)
    requires c.Valid()
    modifies c
    ensures c.Valid()
    ensures c.connected && !fails ==> c.store == old(c.store) - {key}
    ensures !(c.connected && !fails) ==> c.store == old(c.store)
  {
    var _ := c.Del(key, fails);
  }
}
