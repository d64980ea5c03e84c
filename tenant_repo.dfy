/** The tenant table, keyed by shop domain: the install upsert, the two lookups and the
    suspension on uninstall. */
module TenantRepo {
  import opened Base
  import opened Strings
  import opened Store

  /** The argument object of `upsertTenant`. `status` is `None` when the caller leaves it out. */
  datatype TenantInput = TenantInput(
    shopDomain: string,
    accessToken: Js<string>,
    scopes: Js<string>,
    shopName: Js<string>,
    email: Js<string>,
    currency: Js<string>,
    timezone: Js<string>,
    status: Option<string>)

  /** The `status = 'active'` parameter default. */
  function StatusOf(input: TenantInput): (s: string)
    ensures input.status.None? ==> s == "active"
    ensures input.status.Some? ==> s == input.status.value
  {
    if input.status.Some? then input.status.value else "active"
  }

  /** `'ten_' + crypto.randomBytes(8).toString('hex')` for the bytes `random8`. */
  function CryptoRandomId(random8: seq<byte>): (r: string)
    requires |random8| == 8
    ensures |r| == 20 && r[..4] == "ten_" && IsHex(r[4..])
    ensures Unhex(r[4..]) == random8
  {
    HexRoundTrip(random8);
    var r := "ten_" + Hex(random8);
    assert r[4..] == Hex(random8);
    r
  }

  /** The `update` half: every supplied field is overwritten in place, undefined ones stay. */
  function UpdatedTenant(e: Tenant, input: TenantInput): Tenant {
    e.(accessToken := Apply(UpdateOf(input.accessToken), e.accessToken),
       scopes := Apply(UpdateOf(input.scopes), e.scopes),
       shopName := Apply(UpdateOf(input.shopName), e.shopName),
       email := Apply(UpdateOf(input.email), e.email),
       currency := Apply(UpdateOf(input.currency), e.currency),
       timezone := Apply(UpdateOf(input.timezone), e.timezone),
       status := StatusOf(input))
  }

  /** The `create` half, with internal id `id` and a fresh external id. */
  function CreatedTenant(id: string, input: TenantInput, random8: seq<byte>): Tenant
    requires |random8| == 8
  {
    Tenant(id, CryptoRandomId(random8), input.shopDomain, CreateOf(input.accessToken),
           CreateOf(input.scopes), CreateOf(input.shopName), CreateOf(input.email),
           CreateOf(input.currency), CreateOf(input.timezone), StatusOf(input), None)
  }

  /** Every tenant sits under its own shop domain. */
  ghost predicate TenantsValid(tenants: map<string, Tenant>) {
    forall k :: k in tenants ==> tenants[k].shopDomain == k
  }

  /** `upsertTenant(input)`, `random8` being the bytes `randomBytes(8)` would return. */
  method UpsertTenant(db: Db, input: TenantInput, random8: seq<byte>) returns (t: Tenant)
    requires |random8| == 8
    modifies db`tenants, db`nextId
    ensures input.shopDomain in old(db.tenants) ==>
              t == UpdatedTenant(old(db.tenants)[input.shopDomain], input) && db.nextId == old(db.nextId)
    ensures input.shopDomain !in old(db.tenants) ==>
              t == CreatedTenant(IdText(old(db.nextId)), input, random8) && db.nextId == old(db.nextId) + 1
    ensures db.tenants == old(db.tenants)[input.shopDomain := t]
  {
    if input.shopDomain in db.tenants {
      t := UpdatedTenant(db.tenants[input.shopDomain], input);
    } else {
      t := CreatedTenant(IdText(db.nextId), input, random8);
      db.nextId := db.nextId + 1;
    }
    db.tenants := db.tenants[input.shopDomain := t];
  }

  /** What a Prisma update does to one nullable column given the value passed for it:
      undefined keeps the column, null clears it, a string is written. */
  predicate UpdatedField(x: Js<string>, before: Option<string>, after: Option<string>) {
    && (x.Undefined? ==> after == before)
    && (x.Null? ==> after.None?)
    && (x.Val? ==> after == Some(x.v))
  }

  /** A reinstall overwrites the supplied fields and the status in place, while the internal
      and external ids and the shop domain stay: `tenantId` is only ever set at create. */
  lemma ReinstallKeepsIds(e: Tenant, input: TenantInput)
    ensures var n := UpdatedTenant(e, input);
            && n.id == e.id && n.tenantId == e.tenantId && n.shopDomain == e.shopDomain
            && n.uninstalledAt == e.uninstalledAt
            && n.status == StatusOf(input)
            && UpdatedField(input.accessToken, e.accessToken, n.accessToken)
            && UpdatedField(input.scopes, e.scopes, n.scopes)
            && UpdatedField(input.shopName, e.shopName, n.shopName)
            && UpdatedField(input.email, e.email, n.email)
            && UpdatedField(input.currency, e.currency, n.currency)
            && UpdatedField(input.timezone, e.timezone, n.timezone)
  {
  }

  /** A created tenant carries the external id `ten_` plus the 16 hex digits of the random
      bytes, and the default status unless one is supplied. */
  lemma CreatedTenantShape(id: string, input: TenantInput, random8: seq<byte>)
    requires |random8| == 8
    ensures var n := CreatedTenant(id, input, random8);
            && n.shopDomain == input.shopDomain
            && |n.tenantId| == 20 && n.tenantId[..4] == "ten_" && IsHex(n.tenantId[4..])
            && (input.status.None? ==> n.status == "active")
            && n.uninstalledAt.None?
  {
  }

  lemma UpsertKeepsTenantsValid(tenants: map<string, Tenant>, input: TenantInput, t: Tenant)
    requires TenantsValid(tenants)
    requires input.shopDomain in tenants ==> t == UpdatedTenant(tenants[input.shopDomain], input)
    requires input.shopDomain !in tenants ==> t.shopDomain == input.shopDomain
    ensures TenantsValid(tenants[input.shopDomain := t])
  {
  }

  // ---------------------------------------------------------------------------
  // lookups
  // ---------------------------------------------------------------------------

  /** The `OR` filter of `findByShopOrTenantKey`. */
  predicate MatchesKey(t: Tenant, key: string) {
    t.shopDomain == key || t.tenantId == key || t.id == key
  }

  /** `findByShopOrTenantKey(key)`: `findFirst` without an order, so any tenant matching on
      any of the three fields may come back; none is preferred. */
  method FindByShopOrTenantKey(tenants: map<string, Tenant>, key: string) returns (r: Option<Tenant>)
    ensures r.Some? <==> exists k :: k in tenants && MatchesKey(tenants[k], key)
    ensures r.Some? ==> r.value in tenants.Values && MatchesKey(r.value, key)
  {
    if k :| k in tenants && MatchesKey(tenants[k], key) {
      r := Some(tenants[k]);
    } else {
      r := None;
    }
  }

  /** `findActiveTenant(shopDomain)` */
  function FindActiveTenant(tenants: map<string, Tenant>, shopDomain: string): (r: Option<Tenant>)
    requires TenantsValid(tenants)
    ensures r.Some? <==> exists k :: k in tenants && tenants[k].shopDomain == shopDomain && tenants[k].status == "active"
    ensures r.Some? ==> r.value in tenants.Values && r.value.shopDomain == shopDomain && r.value.status == "active"
  {
    if shopDomain in tenants && tenants[shopDomain].status == "active" then Some(tenants[shopDomain]) else None
  }

  /** What Prisma throws when `update` finds no row. */
  const RecordNotFound := "Record to update not found."

  /** `markTenantSuspended(shopDomain)` at time `now`. */
  method MarkTenantSuspended(db: Db, shopDomain: string, now: Time) returns (r: Result<Tenant>)
    modifies db`tenants
    ensures r.Err? <==> shopDomain !in old(db.tenants)
    ensures r.Err? ==> r.msg == RecordNotFound && db.tenants == old(db.tenants)
    ensures r.Ok? ==> r.value == old(db.tenants)[shopDomain].(status := "suspended", uninstalledAt := Some(now))
    ensures r.Ok? ==> db.tenants == old(db.tenants)[shopDomain := r.value]
  {
    if shopDomain !in db.tenants {
      return Err(RecordNotFound);
    }
    var t := db.tenants[shopDomain].(status := "suspended", uninstalledAt := Some(now));
    db.tenants := db.tenants[shopDomain := t];
    return Ok(t);
  }

  /** A suspended tenant is no longer found as active, and nothing else about it changed:
      the access token in particular is kept. */
  lemma SuspendedIsInactive(tenants: map<string, Tenant>, shopDomain: string, now: Time)
    requires TenantsValid(tenants) && shopDomain in tenants
    ensures var s := tenants[shopDomain].(status := "suspended", uninstalledAt := Some(now));
            && TenantsValid(tenants[shopDomain := s])
            && FindActiveTenant(tenants[shopDomain := s], shopDomain).None?
            && s.accessToken == tenants[shopDomain].accessToken && s.tenantId == tenants[shopDomain].tenantId
  {
  }
}
