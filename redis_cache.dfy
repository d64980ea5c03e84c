/** `config/redis.js`: the lazily created Upstash client and the `cache` helpers over it.
    The client is a class whose fields are the module's `redis` variable and the server's
    key space; a request that fails on the wire is a `fails` argument, `JSON.parse` and
    `JSON.stringify` are functions passed in. Key expiry is recorded but not simulated. */
module RedisCache {
  import opened Base
  import opened Strings
  import opened JsonValue
  import opened ShopifyConfig

  const DefaultTtl := 300

  /** `JSON.parse(s)`: `None` when it throws. */
  type Parser = string -> Option<Json>

  /** What `set` writes for a value: a string as it is, anything else stringified. */
  function Serialized(value: Json, stringify: Json -> string): (s: string)
    ensures value.JStr? ==> s == value.s
  {
    if value.JStr? then value.s else stringify(value)
  }

  /** The stored text for a key, `None` standing for the null `mget` reports. */
  function Stored(store: map<string, string>, key: string): (v: Option<string>)
    ensures v.Some? <==> key in store
  {
    if key in store then Some(store[key]) else None
  }

  /** What `get` answers for a key of the server's key space: null when absent, the parsed
      value when the stored text parses, the text itself otherwise. */
  function Read(store: map<string, string>, key: string, parse: Parser): (v: Json)
    ensures key !in store ==> v == JNull
    ensures key in store && parse(store[key]).None? ==> v == JStr(store[key])
  {
    match Stored(store, key)
    case None => JNull
    case Some(text) =>
      match parse(text)
      case Some(j) => j
      case None => JStr(text)
  }

  /** A value written by `set` is read back by `get` when stringifying and parsing undo
      each other and, for a string, the string is not itself JSON text. */
  lemma ReadAfterSet(store: map<string, string>, key: string, value: Json, stringify: Json -> string, parse: Parser)
    requires value.JStr? ==> parse(value.s).None?
    requires !value.JStr? ==> parse(stringify(value)) == Some(value)
    ensures Read(store[key := Serialized(value, stringify)], key, parse) == value
  {
  }

  /** A string that happens to be JSON text does not come back as a string: caching "42"
      and reading it gives the number. */
  lemma JsonTextStringComesBackParsed(store: map<string, string>, key: string, s: string, j: Json,
                                      stringify: Json -> string, parse: Parser)
    requires parse(s) == Some(j)
    ensures Read(store[key := Serialized(JStr(s), stringify)], key, parse) == j
  {
  }

  /** The other keys are not disturbed by a write. */
  lemma ReadOtherKey(store: map<string, string>, key: string, other: string, text: string, parse: Parser)
    requires other != key
    ensures Read(store[key := text], other, parse) == Read(store, other, parse)
  {
  }

  class Cache {
    /** Both `UPSTASH_REDIS_REST_URL` and `UPSTASH_REDIS_REST_TOKEN` are set and `new
        Redis(...)` does not throw for them. */
    const canConnect: bool
    /** The module-level `redis` variable is not null. */
    var connected: bool
    /** How many clients have been constructed. */
    var creations: nat
    /** The server's key space and the ttl each key was last written with. */
    var store: map<string, string>
    var ttls: map<string, nat>

    ghost predicate Valid()
      reads this
    {
      && creations == (if connected then 1 else 0)
      && (connected ==> canConnect)
      && store.Keys == ttls.Keys
    }

    constructor (env: Env, constructorThrows: bool)
      ensures canConnect == (GetEnv(env, "UPSTASH_REDIS_REST_URL").Ok? &&
                             GetEnv(env, "UPSTASH_REDIS_REST_TOKEN").Ok? && !constructorThrows)
      ensures !connected && store == map[] && ttls == map[]
      ensures Valid()
    {
      canConnect := GetEnv(env, "UPSTASH_REDIS_REST_URL").Ok? &&
                    GetEnv(env, "UPSTASH_REDIS_REST_TOKEN").Ok? && !constructorThrows;
      connected := false;
      creations := 0;
      store := map[];
      ttls := map[];
    }

    /** `getRedis()` with `initRedis()`: a client is built only while there is none, so at
        most one is ever built, and once built it is reused. */
    method GetRedis() returns (ok: bool)
      requires Valid()
      modifies this`connected, this`creations
      ensures Valid()
      ensures ok == connected == (old(connected) || canConnect)
      ensures creations <= 1
    {
      if !connected {
        if canConnect {
          connected := true;
          creations := creations + 1;
        }
      }
      ok := connected;
    }

    /** `cache.get(key)` */
    method Get(key: string, fails: bool, parse: Parser) returns (v: Json)
      requires Valid()
      modifies this`connected, this`creations
      ensures Valid() && connected == (old(connected) || canConnect)
      ensures !connected || fails ==> v == JNull
      ensures connected && !fails ==> v == Read(store, key, parse)
    {
      var ok := GetRedis();
      if !ok || fails {
        return JNull;
      }
      v := Read(store, key, parse);
    }

    /** `cache.set(key, value, ttl)`, `ttl` being `None` when the caller leaves it out. */
    method Set(key: string, value: Json, ttl: Option<nat>, fails: bool, stringify: Json -> string)
      returns (ok: bool)
      requires Valid()
      modifies this
      ensures Valid() && connected == (old(connected) || canConnect)
      ensures ok <==> connected && !fails
      ensures ok ==> store == old(store)[key := Serialized(value, stringify)] &&
                     ttls == old(ttls)[key := if ttl.Some? then ttl.value else DefaultTtl]
      ensures !ok ==> store == old(store) && ttls == old(ttls)
    {
      var c := GetRedis();
      if !c || fails {
        return false;
      }
      store := store[key := Serialized(value, stringify)];
      ttls := ttls[key := if ttl.Some? then ttl.value else DefaultTtl];
      ok := true;
    }

    /** `cache.del(key)` */
    method Del(key: string, fails: bool) returns (ok: bool)
      requires Valid()
      modifies this
      ensures Valid() && connected == (old(connected) || canConnect)
      ensures ok <==> connected && !fails
      ensures ok ==> store == old(store) - {key} && ttls == old(ttls) - {key}
      ensures !ok ==> store == old(store) && ttls == old(ttls)
    {
      var c := GetRedis();
      if !c || fails {
        return false;
      }
      store := store - {key};
      ttls := ttls - {key};
      ok := true;
    }

    /** `cache.mget(keys)`: each requested key mapped to the value at its index in the
        server's answer, which the client deserialises as it does for `get`; `{}` without
        a client or on error. */
    method Mget(keys: seq<string>, fails: bool, parse: Parser) returns (result: map<string, Json>)
      requires Valid()
      modifies this`connected, this`creations
      ensures Valid() && connected == (old(connected) || canConnect)
      ensures !connected || fails ==> result == map[]
      ensures connected && !fails ==>
                && result.Keys == set k | k in keys
                && forall k :: k in keys ==> k in result && result[k] == Read(store, k, parse)
    {
      var c := GetRedis();
      if !c || fails {
        return map[];
      }
      var answer := store;
      var values := seq(|keys|, i requires 0 <= i < |keys| => Read(answer, keys[i], parse));
      result := map[];
      for i := 0 to |keys|
        invariant result.Keys == set j | 0 <= j < i :: keys[j]
        invariant forall j :: 0 <= j < i ==> keys[j] in result && result[keys[j]] == Read(store, keys[j], parse)
      {
        result := result[keys[i] := values[i]];
      }
      assert forall k :: k in keys ==> exists j :: 0 <= j < |keys| && keys[j] == k;
    }

    /** `cache.exists(key)`: true exactly when the server answers 1. */
    method Exists(key: string, fails: bool) returns (b: bool)
      requires Valid()
      modifies this`connected, this`creations
      ensures Valid() && connected == (old(connected) || canConnect)
      ensures b <==> connected && !fails && key in store
    {
      var c := GetRedis();
      if !c || fails {
        return false;
      }
      var count := if key in store then 1 else 0;
      b := count == 1;
    }
  }

  /** `cache.tenantKey(tenantId, resource, identifier)` */
  function TenantKey(tenantId: string, resource: string, identifier: string): (k: string)
    ensures StartsWith(k, "tenant:")
  {
    "tenant:" + tenantId + ":" + resource + (if identifier != "" then ":" + identifier else "")
  }

  /** `cache.shopifyKey(shop, endpoint, params)` */
  function ShopifyKey(shop: string, endpoint: string, params: string): (k: string)
    ensures StartsWith(k, "shopify:")
  {
    "shopify:" + shop + ":" + endpoint + (if params != "" then ":" + params else "")
  }

  /** The second ':'-separated field of a key is the tenant id when the id has no ':'. */
  lemma TenantField(tenantId: string, resource: string, identifier: string)
    requires ':' !in tenantId
    ensures |Split(TenantKey(tenantId, resource, identifier), ':')| >= 2
    ensures Split(TenantKey(tenantId, resource, identifier), ':')[1] == tenantId
  {
    var rest := resource + (if identifier != "" then ":" + identifier else "");
    assert TenantKey(tenantId, resource, identifier) == "tenant" + [':'] + (tenantId + [':'] + rest);
    SplitAfterFirst("tenant", tenantId + [':'] + rest, ':');
    SplitAfterFirst(tenantId, rest, ':');
  }

  /** A tenant key begins with its tenant and resource, and carries the tenant id as its
      second ':'-separated field when the id has no ':'. */
  lemma TenantKeyShape(tenantId: string, resource: string, identifier: string)
    ensures StartsWith(TenantKey(tenantId, resource, identifier), "tenant:" + tenantId + ":" + resource)
    ensures ':' !in tenantId ==> |Split(TenantKey(tenantId, resource, identifier), ':')| >= 2 &&
                                 Split(TenantKey(tenantId, resource, identifier), ':')[1] == tenantId
  {
    var p := "tenant:" + tenantId + ":" + resource;
    var k := TenantKey(tenantId, resource, identifier);
    assert k == p + (if identifier != "" then ":" + identifier else "");
    assert k[..|p|] == p;
    if ':' !in tenantId {
      TenantField(tenantId, resource, identifier);
    }
  }

  /** The second ':'-separated field of a Shopify key is the shop when the shop has no ':'. */
  lemma ShopifyField(shop: string, endpoint: string, params: string)
    requires ':' !in shop
    ensures |Split(ShopifyKey(shop, endpoint, params), ':')| >= 2
    ensures Split(ShopifyKey(shop, endpoint, params), ':')[1] == shop
  {
    var rest := endpoint + (if params != "" then ":" + params else "");
    assert ShopifyKey(shop, endpoint, params) == "shopify" + [':'] + (shop + [':'] + rest);
    SplitAfterFirst("shopify", shop + [':'] + rest, ':');
    SplitAfterFirst(shop, rest, ':');
  }

  /** A Shopify key begins with its shop and endpoint, and carries the shop as its second
      ':'-separated field when the shop has no ':'. */
  lemma ShopifyKeyShape(shop: string, endpoint: string, params: string)
    ensures StartsWith(ShopifyKey(shop, endpoint, params), "shopify:" + shop + ":" + endpoint)
    ensures ':' !in shop ==> |Split(ShopifyKey(shop, endpoint, params), ':')| >= 2 &&
                             Split(ShopifyKey(shop, endpoint, params), ':')[1] == shop
  {
    var p := "shopify:" + shop + ":" + endpoint;
    var k := ShopifyKey(shop, endpoint, params);
    assert k == p + (if params != "" then ":" + params else "");
    assert k[..|p|] == p;
    if ':' !in shop {
      ShopifyField(shop, endpoint, params);
    }
  }

  /** Tenants whose ids have no ':' never share a cache key. */
  lemma TenantKeysSeparateTenants(t1: string, r1: string, i1: string, t2: string, r2: string, i2: string)
    requires ':' !in t1 && ':' !in t2
    requires TenantKey(t1, r1, i1) == TenantKey(t2, r2, i2)
    ensures t1 == t2
  {
    TenantField(t1, r1, i1);
    TenantField(t2, r2, i2);
  }

  /** An empty identifier or parameter string adds no trailing separator, and tenant data
      and Shopify responses never share a key. */
  lemma KeyShapes(tenantId: string, resource: string, shop: string, endpoint: string, params: string)
    ensures TenantKey(tenantId, resource, "") == "tenant:" + tenantId + ":" + resource
    ensures ShopifyKey(shop, endpoint, "") == "shopify:" + shop + ":" + endpoint
    ensures TenantKey(tenantId, resource, params) != ShopifyKey(shop, endpoint, params)
  {
    assert TenantKey(tenantId, resource, params)[0] == 't';
    assert ShopifyKey(shop, endpoint, params)[0] == 's';
  }
}
