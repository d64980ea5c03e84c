/** `webhook.controller.js`: the webhook endpoint. Only `app/uninstalled` changes anything
    (it suspends the tenant, a failure there being swallowed); the order, customer and
    product topics are only logged; every handled request is answered 200 `OK`. */
module WebhookController {
  import opened Base
  import opened JsonValue
  import opened Store
  import opened TenantRepo
  import opened Http

  /** The branches of the controller's `switch (topic)`. */
  datatype Handler = Uninstall | LogOrder | LogCustomer | LogProduct | Unhandled

  /** The branch a `X-Shopify-Topic` header selects; a missing header selects none of the
      cases. */
  function HandlerOf(topic: Option<string>): (h: Handler)
    ensures h == Uninstall <==> topic == Some("app/uninstalled")
    ensures h == LogOrder <==> topic == Some("orders/create") || topic == Some("orders/updated")
    ensures h == LogCustomer <==> topic == Some("customers/create") || topic == Some("customers/updated")
    ensures h == LogProduct <==> topic == Some("products/create") || topic == Some("products/updated")
  {
    match topic
    case None => Unhandled
    case Some(t) =>
      if t == "app/uninstalled" then Uninstall
      else if t == "orders/create" || t == "orders/updated" then LogOrder
      else if t == "customers/create" || t == "customers/updated" then LogCustomer
      else if t == "products/create" || t == "products/updated" then LogProduct
      else Unhandled
  }

  const Ok200 := SendText(200, "OK")

  /** The answer: the logging branches read `payload.id`, which throws for a `null` or
      missing body and hands the error to `next`; everything else ends in 200 `OK`. */
  function ResponseOf(topic: Option<string>, payload: Json): (o: Outcome)
    ensures o == Ok200 || o.CallNextWithError?
    ensures o.CallNextWithError? <==> HandlerOf(topic) in {LogOrder, LogCustomer, LogProduct} && IsNullish(payload)
  {
    match HandlerOf(topic)
    case Uninstall => Ok200
    case Unhandled => Ok200
    case _ =>
      match Prop(payload, "id")
      case Err(m) => CallNextWithError(m)
      case Ok(_) => Ok200
  }

  /** `handleAppUninstalled(shop)`: the tenant is suspended when the shop has one; the error
      `markTenantSuspended` throws otherwise is caught and only logged. */
  method HandleAppUninstalled(db: Db, shop: Option<string>, now: Time)
    modifies db`tenants
    ensures shop.Some? && shop.value in old(db.tenants) ==>
              db.tenants == old(db.tenants)[shop.value := old(db.tenants)[shop.value].(status := "suspended",
                                                                                      uninstalledAt := Some(now))]
    ensures !(shop.Some? && shop.value in old(db.tenants)) ==> db.tenants == old(db.tenants)
  {
    if shop.None? {
      return;
    }
    var r := MarkTenantSuspended(db, shop.value, now);
  }

  /** `handleShopifyWebhook(req, res, next)` with the topic and shop headers, the parsed body
      and the time of arrival. */
  method HandleShopifyWebhook(db: Db, topic: Option<string>, shop: Option<string>, payload: Json, now: Time)
    returns (o: Outcome)
    modifies db`tenants
    ensures o == ResponseOf(topic, payload)
    ensures HandlerOf(topic) == Uninstall && shop.Some? && shop.value in old(db.tenants) ==>
              db.tenants == old(db.tenants)[shop.value := old(db.tenants)[shop.value].(status := "suspended",
                                                                                      uninstalledAt := Some(now))]
    ensures !(HandlerOf(topic) == Uninstall && shop.Some? && shop.value in old(db.tenants)) ==>
              db.tenants == old(db.tenants)
  {
    var h := HandlerOf(topic);
    if h == Uninstall {
      HandleAppUninstalled(db, shop, now);
    } else if h != Unhandled {
      var id := Prop(payload, "id");
      if id.Err? {
        return CallNextWithError(id.msg);
      }
    }
    return Ok200;
  }

  // ---------------------------------------------------------------------------
  // properties
  // ---------------------------------------------------------------------------

  /** Every request with an object body is answered 200 `OK`, whatever its topic and
      whether or not a suspension failed; only a logging branch over a missing body hands
      an error to `next`. */
  lemma AlwaysOkForObjectBodies(topic: Option<string>, payload: Json)
    ensures !IsNullish(payload) ==> ResponseOf(topic, payload) == Ok200
    ensures ResponseOf(topic, payload) != Ok200 <==>
              IsNullish(payload) && HandlerOf(topic) in {LogOrder, LogCustomer, LogProduct}
  {
  }

  /** The topics registered at install as `customers/update` and `products/update`, and the
      other registered ones outside the list, reach the default branch. */
  lemma RegisteredUpdateTopicsUnhandled()
    ensures HandlerOf(Some("customers/update")) == Unhandled
    ensures HandlerOf(Some("products/update")) == Unhandled
    ensures HandlerOf(Some("orders/fulfilled")) == Unhandled
    ensures HandlerOf(Some("orders/cancelled")) == Unhandled
    ensures HandlerOf(Some("products/delete")) == Unhandled
  {
    assert "customers/update" != "customers/updated";
    assert "products/update" != "products/updated";
  }

  /** After an uninstall the shop's tenant is no longer active, so later webhooks and
      tenant-scoped requests for it are refused, while its token is kept. */
  lemma UninstallDeactivates(tenants: map<string, Tenant>, shop: string, now: Time)
    requires TenantsValid(tenants) && shop in tenants
    ensures var t := tenants[shop := tenants[shop].(status := "suspended", uninstalledAt := Some(now))];
            && FindActiveTenant(t, shop).None?
            && (forall k :: k in t && MatchesKey(t[k], shop) && t[k].shopDomain == shop ==> t[k].status != "active")
            && t[shop].accessToken == tenants[shop].accessToken
  {
    SuspendedIsInactive(tenants, shop, now);
  }
}
