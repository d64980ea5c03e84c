/** `webhook.service.js`: a webhook is accepted only for an active tenant; it is logged, and
    a product, customer or order topic then fetches the record afresh from Shopify and
    upserts it. Topic names are compared exactly. */
module WebhookService {
  import opened Base
  import opened JsonValue
  import opened Store
  import opened ShopifyConfig
  import opened KeyedUpsert
  import opened ProductRepo
  import opened CustomerRepo
  import opened OrderRepo
  import opened TenantRepo
  import opened IngestService

  const GateFailed := "Tenant not found or inactive for webhook"

  /** The three resources a webhook can refresh. */
  datatype Resource = Products | Customers | Orders

  /** The `switch (topic)`: which resource a topic refreshes, if any. */
  function Route(topic: string): (r: Option<Resource>)
    ensures r == Some(Products) <==> topic == "products/create" || topic == "products/updated"
    ensures r == Some(Customers) <==> topic == "customers/create" || topic == "customers/updated"
    ensures r == Some(Orders) <==> topic == "orders/create" || topic == "orders/updated"
  {
    if topic == "products/create" || topic == "products/updated" then Some(Products)
    else if topic == "customers/create" || topic == "customers/updated" then Some(Customers)
    else if topic == "orders/create" || topic == "orders/updated" then Some(Orders)
    else None
  }

  /** The property of the response body that holds the record. */
  function Member(r: Resource): string {
    match r
    case Products => "product"
    case Customers => "customer"
    case Orders => "order"
  }

  /** The path of the single-record GET; `id` is the payload's id as a template literal
      renders it. */
  function RecordPath(r: Resource, id: string): string {
    match r
    case Products => "/products/" + id + ".json"
    case Customers => "/customers/" + id + ".json"
    case Orders => "/orders/" + id + ".json"
  }

  /** How the JavaScript values at hand become the repositories' payload records: `show` is
      the template-literal rendering of a value, the others read a Shopify JSON record. */
  datatype Codec = Codec(show: Json -> string, product: Json -> RawProduct, customer: Json -> RawCustomer,
                         order: Json -> RawOrder)

  /** The three tables a webhook may write. */
  datatype Tables = Tables(products: map<int, Product>, customers: map<int, Customer>, orders: OrderTables)

  /** `res.data.<member> ?? payload`: the fetched record, else the payload itself. Reading a
      member of a `null` body throws. */
  function Refreshed(r: Resource, data: Json, payload: Json): (j: Result<Json>)
    ensures j.Err? <==> IsNullish(data)
    ensures j.Ok? && !IsNullish(Get(data, Member(r))) ==> j.value == Get(data, Member(r))
    ensures j.Ok? && IsNullish(Get(data, Member(r))) ==> j.value == payload
  {
    match Prop(data, Member(r))
    case Err(m) => Err(m)
    case Ok(v) => Ok(Coalesce(v, payload))
  }

  /** The upsert of one record into the table of its resource. */
  function UpsertRecord(s: Tables, tenantId: string, r: Resource, record: Json, codec: Codec): (u: (Tables, Result<nat>))
    ensures r != Products ==> u.0.products == s.products
    ensures r != Customers ==> u.0.customers == s.customers
    ensures r != Orders ==> u.0.orders == s.orders
  {
    match r
    case Products =>
      var (p, n) := UpsertAll(s.products, tenantId, [codec.product(record)], ProductId, UpdatedProduct, CreatedProduct);
      (s.(products := p), n)
    case Customers =>
      var (c, n) := UpsertAll(s.customers, tenantId, [codec.customer(record)], CustomerId, UpdatedCustomer, CreatedCustomer);
      (s.(customers := c), n)
    case Orders =>
      var (o, n) := UpsertOrders(s.orders, tenantId, [codec.order(record)]);
      (s.(orders := o), n)
  }

  /** What `handleWebhook` does after the event is logged, for the tenant `tenant`, the
      single-record GET answering with `reply`. */
  function Dispatch(s: Tables, tenant: Tenant, topic: string, payload: Json, reply: Reply<Json>, env: Env,
                    codec: Codec): (r: (Tables, Result<()>))
    ensures Route(topic) != Some(Products) ==> r.0.products == s.products
    ensures Route(topic) != Some(Customers) ==> r.0.customers == s.customers
    ensures Route(topic) != Some(Orders) ==> r.0.orders == s.orders
    ensures TenantClient(tenant, env).Ok? && Route(topic).None? ==> r == (s, Ok(()))
    ensures Route(topic).Some? && r.1.Ok? ==> !IsNullish(payload) && reply.Reply? && IsOk(reply.status)
    ensures TenantClient(tenant, env).Err? ==> r == (s, Err(TenantClient(tenant, env).msg))
  {
    match TenantClient(tenant, env)
    case Err(m) => (s, Err(m))
    case Ok(_) =>
      match Route(topic)
      case None => (s, Ok(()))
      case Some(r) => Refresh(s, tenant.id, r, payload, reply, codec)
  }

  /** A routed topic: the payload's id, the single-record GET answered by `reply`, and the
      upsert of the record it yields into the table of `r`. */
  function Refresh(s: Tables, tenantId: string, r: Resource, payload: Json, reply: Reply<Json>,
                   codec: Codec): (u: (Tables, Result<()>))
    ensures r != Products ==> u.0.products == s.products
    ensures r != Customers ==> u.0.customers == s.customers
    ensures r != Orders ==> u.0.orders == s.orders
    ensures u.1.Ok? ==> !IsNullish(payload) && reply.Reply? && IsOk(reply.status)
  {
    match Prop(payload, "id")
    case Err(m) => (s, Err(m))
    case Ok(id) =>
      match Request("GET", RecordPath(r, codec.show(id)), reply)
      case Err(m) => (s, Err(m))
      case Ok(res) =>
        match Refreshed(r, res.data, payload)
        case Err(m) => (s, Err(m))
        case Ok(record) =>
          var (s', n) := UpsertRecord(s, tenantId, r, record, codec);
          (s', if n.Err? then Err(n.msg) else Ok(()))
  }

  function TablesOf(db: Db): Tables
    reads db
  {
    Tables(db.products, db.customers, db.OrderView())
  }

  /** The `switch` of `handleWebhook` for `tenant`, once the event is logged. */
  method DispatchTopic(db: Db, tenant: Tenant, topic: string, payload: Json, reply: Reply<Json>, env: Env,
                       codec: Codec) returns (r: Result<()>)
    modifies db`products, db`customers, db`orders, db`lineItems, db`nextId
    ensures (TablesOf(db), r) == Dispatch(old(TablesOf(db)), tenant, topic, payload, reply, env, codec)
  {
    var client := TenantClient(tenant, env);
    if client.Err? {
      return Err(client.msg);
    }
    var route := Route(topic);
    if route.None? {
      return Ok(());
    }
    r := RefreshInto(db, tenant.id, route.value, payload, reply, codec);
  }

  /** A routed topic: fetch the record afresh and upsert it into the table of `route`. */
  method RefreshInto(db: Db, tenantId: string, route: Resource, payload: Json, reply: Reply<Json>, codec: Codec)
    returns (r: Result<()>)
    modifies db`products, db`customers, db`orders, db`lineItems, db`nextId
    ensures (TablesOf(db), r) == Refresh(old(TablesOf(db)), tenantId, route, payload, reply, codec)
  {
    var id := Prop(payload, "id");
    if id.Err? {
      r := Err(id.msg);
    } else {
      var res := Request("GET", RecordPath(route, codec.show(id.value)), reply);
      if res.Err? {
        r := Err(res.msg);
      } else {
        var record := Refreshed(route, res.value.data, payload);
        if record.Err? {
          r := Err(record.msg);
        } else {
          var n := UpsertRecordInto(db, tenantId, route, record.value, codec);
          r := if n.Err? then Err(n.msg) else Ok(());
        }
      }
    }
  }

  /** The upsert of one refreshed record into the table of its resource. */
  method UpsertRecordInto(db: Db, tenantId: string, r: Resource, record: Json, codec: Codec) returns (n: Result<nat>)
    modifies db`products, db`customers, db`orders, db`lineItems, db`nextId
    ensures (TablesOf(db), n) == UpsertRecord(old(TablesOf(db)), tenantId, r, record, codec)
  {
    match r {
      case Products =>
        n := UpsertProducts(db, tenantId, [codec.product(record)]);
      case Customers =>
        n := UpsertCustomers(db, tenantId, [codec.customer(record)]);
      case Orders =>
        n := UpsertOrdersWithItems(db, tenantId, [codec.order(record)]);
    }
  }

  /** `handleWebhook(topic, shopDomain, payload)` received at `now`. */
  method HandleWebhook(db: Db, topic: string, shopDomain: string, payload: Json, now: Time, reply: Reply<Json>,
                       env: Env, codec: Codec) returns (r: Result<()>)
    modifies db`webhookEvents, db`products, db`customers, db`orders, db`lineItems, db`nextId
    ensures (forall t :: t in old(db.tenants).Values && MatchesKey(t, shopDomain) ==> t.status != "active") ==>
              r == Err(GateFailed) && db.webhookEvents == old(db.webhookEvents) && TablesOf(db) == old(TablesOf(db))
    ensures || (r == Err(GateFailed) && db.webhookEvents == old(db.webhookEvents) && TablesOf(db) == old(TablesOf(db)))
            || exists t :: t in old(db.tenants).Values && MatchesKey(t, shopDomain) && t.status == "active"
                 && db.webhookEvents == old(db.webhookEvents) + [WebhookEvent(t.id, topic, shopDomain, payload, now)]
                 && (TablesOf(db), r) == Dispatch(old(TablesOf(db)), t, topic, payload, reply, env, codec)
    ensures (exists t :: t in old(db.tenants).Values && MatchesKey(t, shopDomain)) &&
            (forall t :: t in old(db.tenants).Values && MatchesKey(t, shopDomain) ==> t.status == "active") ==>
              exists t :: t in old(db.tenants).Values && MatchesKey(t, shopDomain)
                 && db.webhookEvents == old(db.webhookEvents) + [WebhookEvent(t.id, topic, shopDomain, payload, now)]
                 && (TablesOf(db), r) == Dispatch(old(TablesOf(db)), t, topic, payload, reply, env, codec)
  {
    var tenant := FindByShopOrTenantKey(db.tenants, shopDomain);
    if tenant.None? || tenant.value.status != "active" {
      return Err(GateFailed);
    }
    db.webhookEvents := db.webhookEvents + [WebhookEvent(tenant.value.id, topic, shopDomain, payload, now)];
    r := DispatchTopic(db, tenant.value, topic, payload, reply, env, codec);
  }

  // ---------------------------------------------------------------------------
  // properties
  // ---------------------------------------------------------------------------

  /** `app/uninstalled` and every topic outside the six routed ones write nothing. */
  lemma UnroutedTopicsWriteNothing(s: Tables, tenant: Tenant, topic: string, payload: Json, reply: Reply<Json>,
                                   env: Env, codec: Codec)
    requires Route(topic).None?
    ensures var (s', r) := Dispatch(s, tenant, topic, payload, reply, env, codec);
            s' == s && (r.Ok? <==> TenantClient(tenant, env).Ok?)
  {
  }

  /** The topics registered at install as `products/update` and `customers/update` (without
      the 'd'), and `app/uninstalled`, are not routed. */
  lemma RegisteredUpdateTopicsIgnored()
    ensures Route("products/update").None? && Route("customers/update").None?
    ensures Route("app/uninstalled").None? && Route("orders/fulfilled").None?
  {
    assert "products/update" != "products/updated";
    assert "customers/update" != "customers/updated";
  }

  /** A product topic whose GET succeeds upserts exactly one product, the fetched one when
      the response carries it and the payload otherwise, and touches no other table. */
  lemma ProductTopicUpsertsFetched(s: Tables, tenant: Tenant, topic: string, payload: Json, reply: Reply<Json>,
                                   env: Env, codec: Codec)
    requires Route(topic) == Some(Products) && TenantClient(tenant, env).Ok?
    requires !IsNullish(payload) && reply.Reply? && IsOk(reply.status) && !IsNullish(reply.body)
    ensures var record := Coalesce(Get(reply.body, "product"), payload);
            var (s', r) := Dispatch(s, tenant, topic, payload, reply, env, codec);
            && s'.customers == s.customers && s'.orders == s.orders
            && (r.Ok? <==> codec.product(record).id.Val?)
            && (r.Ok? ==> Ok(s'.products) == UpsertOne(s.products, tenant.id, codec.product(record), ProductId,
                                                       UpdatedProduct, CreatedProduct))
            && (r.Err? ==> s'.products == s.products)
  {
    var record := Coalesce(Get(reply.body, "product"), payload);
    var p := codec.product(record);
    assert [p][..0] == [];
  }

  /** A customer topic likewise upserts exactly one customer. */
  lemma CustomerTopicUpsertsFetched(s: Tables, tenant: Tenant, topic: string, payload: Json, reply: Reply<Json>,
                                    env: Env, codec: Codec)
    requires Route(topic) == Some(Customers) && TenantClient(tenant, env).Ok?
    requires !IsNullish(payload) && reply.Reply? && IsOk(reply.status) && !IsNullish(reply.body)
    ensures var record := Coalesce(Get(reply.body, "customer"), payload);
            var (s', r) := Dispatch(s, tenant, topic, payload, reply, env, codec);
            && s'.products == s.products && s'.orders == s.orders
            && (r.Ok? <==> codec.customer(record).id.Val?)
            && (r.Ok? ==> Ok(s'.customers) == UpsertOne(s.customers, tenant.id, codec.customer(record), CustomerId,
                                                        UpdatedCustomer, CreatedCustomer))
            && (r.Err? ==> s'.customers == s.customers)
  {
    var record := Coalesce(Get(reply.body, "customer"), payload);
    var c := codec.customer(record);
    assert [c][..0] == [];
  }

  /** An order topic upserts exactly one order with its line items. */
  lemma OrderTopicUpsertsFetched(s: Tables, tenant: Tenant, topic: string, payload: Json, reply: Reply<Json>,
                                 env: Env, codec: Codec)
    requires Route(topic) == Some(Orders) && TenantClient(tenant, env).Ok?
    requires !IsNullish(payload) && reply.Reply? && IsOk(reply.status) && !IsNullish(reply.body)
    ensures var record := Coalesce(Get(reply.body, "order"), payload);
            var (s', r) := Dispatch(s, tenant, topic, payload, reply, env, codec);
            && s'.products == s.products && s'.customers == s.customers
            && (r.Ok? <==> codec.order(record).id.Val?)
            && (r.Ok? ==> Ok(s'.orders) == UpsertOrder(s.orders, tenant.id, codec.order(record)))
            && (r.Err? ==> s'.orders == s.orders)
  {
    var record := Coalesce(Get(reply.body, "order"), payload);
    var o := codec.order(record);
    assert [o][..0] == [];
  }

  /** A failing GET, or a missing client, leaves every table as it was and reports the
      error. */
  lemma FailedFetchWritesNothing(s: Tables, tenant: Tenant, topic: string, payload: Json, reply: Reply<Json>,
                                 env: Env, codec: Codec)
    requires Route(topic).Some? && !IsNullish(payload)
    requires reply.NoReply? || !IsOk(reply.status)
    ensures var (s', r) := Dispatch(s, tenant, topic, payload, reply, env, codec);
            s' == s && r.Err?
  {
  }
}
