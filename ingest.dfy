/** `ingest.service.js`: the backfills walk the Shopify REST listing page by page, upsert the
    array each page carries and add up the counts. A page without the expected array counts
    0; the first failing fetch or upsert ends the call with that error, the rows written so
    far staying. */
module IngestService {
  import opened Base
  import opened Strings
  import opened Store
  import opened ShopifyConfig
  import opened KeyedUpsert
  import opened ProductRepo
  import opened CustomerRepo
  import opened OrderRepo

  /** `page.<resource> || []`: a page body holds the resource array or lacks it. */
  function Items<R>(body: Option<seq<R>>): (r: seq<R>)
    ensures body.None? ==> r == []
    ensures body.Some? ==> r == body.value
  {
    if body.Some? then body.value else []
  }

  /** The running total over the pages fetched so far and the table it leaves; the first
      failing upsert stops the sum. */
  function PagesFold<S, P>(s: S, tenantId: string, pages: seq<P>, upsertPage: (S, string, P) -> (S, Result<nat>))
    : (r: (S, Result<nat>))
    ensures pages == [] ==> r == (s, Ok(0))
  {
    if pages == [] then (s, Ok(0))
    else
      var (s', n) := PagesFold(s, tenantId, pages[..|pages| - 1], upsertPage);
      if n.Err? then (s', n)
      else
        var (s'', m) := upsertPage(s', tenantId, pages[|pages| - 1]);
        if m.Err? then (s'', m) else (s'', Ok(n.value + m.value))
  }

  /** What a backfill returns after the walk `w`: the error of the first failing upsert, else
      the error that ended the walk, else the total. */
  function Backfill<S, P>(s: S, tenantId: string, w: Walk<P>, upsertPage: (S, string, P) -> (S, Result<nat>))
    : (r: (S, Result<nat>))
    ensures r.1.Ok? ==> w.failure.None?
    ensures w.failure.None? ==> r == PagesFold(s, tenantId, w.pages, upsertPage)
  {
    var (s', n) := PagesFold(s, tenantId, w.pages, upsertPage);
    if n.Err? then (s', n)
    else if w.failure.Some? then (s', Err(w.failure.value))
    else (s', n)
  }

  /** One more page: the fold continues from where the earlier pages left it. */
  lemma PagesFoldStep<S, P>(s: S, tenantId: string, pages: seq<P>, page: P,
                            upsertPage: (S, string, P) -> (S, Result<nat>), s1: S, total: nat, s2: S, m: Result<nat>)
    requires PagesFold(s, tenantId, pages, upsertPage) == (s1, Ok(total))
    requires upsertPage(s1, tenantId, page) == (s2, m)
    ensures PagesFold(s, tenantId, pages + [page], upsertPage) == if m.Err? then (s2, m) else (s2, Ok(total + m.value))
  {
    assert (pages + [page])[..|pages|] == pages;
  }

  /** Once an upsert has failed, later pages change nothing. */
  lemma {:induction false} PagesFoldStopsAtError<S, P>(s: S, tenantId: string, pages: seq<P>, more: seq<P>,
                                                      upsertPage: (S, string, P) -> (S, Result<nat>))
    requires PagesFold(s, tenantId, pages, upsertPage).1.Err?
    ensures PagesFold(s, tenantId, pages + more, upsertPage) == PagesFold(s, tenantId, pages, upsertPage)
    decreases |more|
  {
    if more != [] {
      var init := more[..|more| - 1];
      PagesFoldStopsAtError(s, tenantId, pages, init, upsertPage);
      assert (pages + more)[..|pages + more| - 1] == pages + init;
    } else {
      assert pages + more == pages;
    }
  }

  /** A backfill whose upserts failed on the pages fetched so far returns that failure,
      whatever the rest of the walk holds. */
  lemma BackfillStopsAtError<S, P>(s: S, tenantId: string, w: Walk<P>, pages: seq<P>,
                                   upsertPage: (S, string, P) -> (S, Result<nat>))
    requires |pages| <= |w.pages| && w.pages[..|pages|] == pages
    requires PagesFold(s, tenantId, pages, upsertPage).1.Err?
    ensures Backfill(s, tenantId, w, upsertPage) == PagesFold(s, tenantId, pages, upsertPage)
  {
    PagesFoldStopsAtError(s, tenantId, pages, w.pages[|pages|..], upsertPage);
    assert pages + w.pages[|pages|..] == w.pages;
  }

  /** A walk cut short by `msg` after pages that all upserted fails with `msg`. */
  lemma BackfillFailed<S, P>(s: S, tenantId: string, w: Walk<P>, upsertPage: (S, string, P) -> (S, Result<nat>),
                             s1: S, total: nat, msg: string)
    requires PagesFold(s, tenantId, w.pages, upsertPage) == (s1, Ok(total)) && w.failure == Some(msg)
    ensures Backfill(s, tenantId, w, upsertPage) == (s1, Err(msg))
  {
  }

  /** The client of a stored tenant; a null token counts as missing. */
  function TenantClient(t: Tenant, env: Env): Result<Client> {
    BuildShopifyClient(t.shopDomain, if t.accessToken.Some? then t.accessToken.value else "", env)
  }

  const PageLimit: nat := 250

  // ---------------------------------------------------------------------------
  // products
  // ---------------------------------------------------------------------------

  const ProductsPath := "/products.json"
  const ProductsQuery: Params := [("fields", "id,title,status,variants")]

  function ProductPage(t: map<int, Product>, tenantId: string, body: Option<seq<RawProduct>>)
    : (map<int, Product>, Result<nat>)
  {
    UpsertAll(t, tenantId, Items(body), ProductId, UpdatedProduct, CreatedProduct)
  }

  function BackfillProductsResult(t: map<int, Product>, tenant: Tenant, replies: seq<Reply<Option<seq<RawProduct>>>>,
                                  env: Env, enc: string -> string): (map<int, Product>, Result<nat>)
  {
    match TenantClient(tenant, env)
    case Err(m) => (t, Err(m))
    case Ok(c) =>
      Backfill(t, tenant.id, WalkFrom(replies, ProductsPath, FirstPageUrl(c, ProductsPath, ProductsQuery, PageLimit, enc)),
               ProductPage)
  }

  /** One page of the listing: its array upserted and the running total advanced. */
  method UpsertProductPage(db: Db, tenantId: string, ghost s0: map<int, Product>, ghost pages: seq<Option<seq<RawProduct>>>,
                       body: Option<seq<RawProduct>>, total: nat) returns (acc: Result<nat>)
    requires (db.products, Ok(total)) == PagesFold(s0, tenantId, pages, ProductPage)
    modifies db`products
    ensures (db.products, acc) == PagesFold(s0, tenantId, pages + [body], ProductPage)
  {
    ghost var s1 := db.products;
    var n := UpsertProducts(db, tenantId, Items(body));
    PagesFoldStep(s0, tenantId, pages, body, ProductPage, s1, total, db.products, n);
    if n.Err? {
      return n;
    }
    return Ok(total + n.value);
  }

  /** The `while (true)` loop of `backfillProducts`: pages are drawn from the generator and
      upserted until it finishes or something fails. */
  method DrainProducts(db: Db, tenantId: string, pg: Paginator<Option<seq<RawProduct>>>) returns (r: Result<nat>)
    requires pg.Valid() && pg.pages == [] && pg.failure.None?
    modifies pg, db`products
    ensures (db.products, r) == Backfill(old(db.products), tenantId, pg.walk, ProductPage)
  {
    var total: nat := 0;
    while true
      invariant pg.Valid() && pg.failure.None?
      invariant (db.products, Ok(total)) == PagesFold(old(db.products), tenantId, pg.pages, ProductPage)
      decreases |pg.replies| - pg.consumed
    {
      ghost var before := pg.pages;
      var step := pg.Next();
      if step.Done? {
        return Ok(total);
      }
      if step.Failed? {
        BackfillFailed(old(db.products), tenantId, pg.walk, ProductPage, db.products, total, step.msg);
        return Err(step.msg);
      }
      var acc := UpsertProductPage(db, tenantId, old(db.products), before, step.body, total);
      if acc.Err? {
        BackfillStopsAtError(old(db.products), tenantId, pg.walk, pg.pages, ProductPage);
        return Err(acc.msg);
      }
      total := acc.value;
    }
  }

  /** `backfillProducts(tenant)`, the listing answering with `replies`. */
  method BackfillProducts(db: Db, tenant: Tenant, replies: seq<Reply<Option<seq<RawProduct>>>>, env: Env,
                          enc: string -> string) returns (r: Result<nat>)
    modifies db`products
    ensures (db.products, r) == BackfillProductsResult(old(db.products), tenant, replies, env, enc)
  {
    var client := TenantClient(tenant, env);
    if client.Err? {
      return Err(client.msg);
    }
    var pg := new Paginator(client.value, ProductsPath, ProductsQuery, PageLimit, replies, enc);
    assert BackfillProductsResult(old(db.products), tenant, replies, env, enc) == Backfill(old(db.products), tenant.id, pg.walk, ProductPage);
    r := DrainProducts(db, tenant.id, pg);
  }

  // ---------------------------------------------------------------------------
  // customers
  // ---------------------------------------------------------------------------

  const CustomersPath := "/customers.json"
  const CustomersQuery: Params := [("fields", "id,email,first_name,last_name,total_spent,orders_count")]

  function CustomerPage(t: map<int, Customer>, tenantId: string, body: Option<seq<RawCustomer>>)
    : (map<int, Customer>, Result<nat>)
  {
    UpsertAll(t, tenantId, Items(body), CustomerId, UpdatedCustomer, CreatedCustomer)
  }

  function BackfillCustomersResult(t: map<int, Customer>, tenant: Tenant, replies: seq<Reply<Option<seq<RawCustomer>>>>,
                                   env: Env, enc: string -> string): (map<int, Customer>, Result<nat>)
  {
    match TenantClient(tenant, env)
    case Err(m) => (t, Err(m))
    case Ok(c) =>
      Backfill(t, tenant.id, WalkFrom(replies, CustomersPath, FirstPageUrl(c, CustomersPath, CustomersQuery, PageLimit, enc)),
               CustomerPage)
  }

  /** One page of the listing: its array upserted and the running total advanced. */
  method UpsertCustomerPage(db: Db, tenantId: string, ghost s0: map<int, Customer>, ghost pages: seq<Option<seq<RawCustomer>>>,
                       body: Option<seq<RawCustomer>>, total: nat) returns (acc: Result<nat>)
    requires (db.customers, Ok(total)) == PagesFold(s0, tenantId, pages, CustomerPage)
    modifies db`customers
    ensures (db.customers, acc) == PagesFold(s0, tenantId, pages + [body], CustomerPage)
  {
    ghost var s1 := db.customers;
    var n := UpsertCustomers(db, tenantId, Items(body));
    PagesFoldStep(s0, tenantId, pages, body, CustomerPage, s1, total, db.customers, n);
    if n.Err? {
      return n;
    }
    return Ok(total + n.value);
  }

  /** The `while (true)` loop of `backfillCustomers`: pages are drawn from the generator and
      upserted until it finishes or something fails. */
  method DrainCustomers(db: Db, tenantId: string, pg: Paginator<Option<seq<RawCustomer>>>) returns (r: Result<nat>)
    requires pg.Valid() && pg.pages == [] && pg.failure.None?
    modifies pg, db`customers
    ensures (db.customers, r) == Backfill(old(db.customers), tenantId, pg.walk, CustomerPage)
  {
    var total: nat := 0;
    while true
      invariant pg.Valid() && pg.failure.None?
      invariant (db.customers, Ok(total)) == PagesFold(old(db.customers), tenantId, pg.pages, CustomerPage)
      decreases |pg.replies| - pg.consumed
    {
      ghost var before := pg.pages;
      var step := pg.Next();
      if step.Done? {
        return Ok(total);
      }
      if step.Failed? {
        BackfillFailed(old(db.customers), tenantId, pg.walk, CustomerPage, db.customers, total, step.msg);
        return Err(step.msg);
      }
      var acc := UpsertCustomerPage(db, tenantId, old(db.customers), before, step.body, total);
      if acc.Err? {
        BackfillStopsAtError(old(db.customers), tenantId, pg.walk, pg.pages, CustomerPage);
        return Err(acc.msg);
      }
      total := acc.value;
    }
  }

  /** `backfillCustomers(tenant)`, the listing answering with `replies`. */
  method BackfillCustomers(db: Db, tenant: Tenant, replies: seq<Reply<Option<seq<RawCustomer>>>>, env: Env,
                           enc: string -> string) returns (r: Result<nat>)
    modifies db`customers
    ensures (db.customers, r) == BackfillCustomersResult(old(db.customers), tenant, replies, env, enc)
  {
    var client := TenantClient(tenant, env);
    if client.Err? {
      return Err(client.msg);
    }
    var pg := new Paginator(client.value, CustomersPath, CustomersQuery, PageLimit, replies, enc);
    assert BackfillCustomersResult(old(db.customers), tenant, replies, env, enc) == Backfill(old(db.customers), tenant.id, pg.walk, CustomerPage);
    r := DrainCustomers(db, tenant.id, pg);
  }

  // ---------------------------------------------------------------------------
  // orders
  // ---------------------------------------------------------------------------

  const OrdersPath := "/orders.json"
  const OrderFields := "id,name,currency,financial_status,fulfillment_status,total_price,subtotal_price,total_tax,total_discounts,processed_at,customer,line_items"

  /** The query of `backfillOrders`: every status, the listed fields and, when `since` is
      truthy, its ISO rendering `iso(since)` as the lower creation bound. */
  function OrdersQuery(since: Js<string>, iso: string -> string): (q: Params)
    ensures ParamValue(q, "status") == Some("any")
    ensures ParamValue(q, "fields") == Some(OrderFields)
    ensures TruthyStr(since) ==> ParamValue(q, "created_at_min") == Some(iso(since.v))
    ensures !TruthyStr(since) ==> ParamValue(q, "created_at_min").None?
  {
    var tail := if TruthyStr(since) then [("created_at_min", iso(since.v))] else [];
    var q := [("status", "any"), ("fields", OrderFields)] + tail;
    assert q[1..][1..] == tail;
    assert ParamValue(q, "created_at_min") == ParamValue(tail, "created_at_min") by {
      assert q[0].0 != "created_at_min" && q[1..][0].0 != "created_at_min";
    }
    q
  }

  function OrderPage(t: OrderTables, tenantId: string, body: Option<seq<RawOrder>>): (OrderTables, Result<nat>) {
    UpsertOrders(t, tenantId, Items(body))
  }

  function BackfillOrdersResult(t: OrderTables, tenant: Tenant, since: Js<string>, replies: seq<Reply<Option<seq<RawOrder>>>>,
                                env: Env, enc: string -> string, iso: string -> string): (OrderTables, Result<nat>)
  {
    match TenantClient(tenant, env)
    case Err(m) => (t, Err(m))
    case Ok(c) =>
      Backfill(t, tenant.id, WalkFrom(replies, OrdersPath, FirstPageUrl(c, OrdersPath, OrdersQuery(since, iso), PageLimit, enc)),
               OrderPage)
  }

  /** One page of the listing: its array upserted and the running total advanced. */
  method UpsertOrderPage(db: Db, tenantId: string, ghost s0: OrderTables, ghost pages: seq<Option<seq<RawOrder>>>,
                       body: Option<seq<RawOrder>>, total: nat) returns (acc: Result<nat>)
    requires (db.OrderView(), Ok(total)) == PagesFold(s0, tenantId, pages, OrderPage)
    modifies db`orders, db`lineItems, db`nextId
    ensures (db.OrderView(), acc) == PagesFold(s0, tenantId, pages + [body], OrderPage)
  {
    ghost var s1 := db.OrderView();
    var n := UpsertOrdersWithItems(db, tenantId, Items(body));
    PagesFoldStep(s0, tenantId, pages, body, OrderPage, s1, total, db.OrderView(), n);
    if n.Err? {
      return n;
    }
    return Ok(total + n.value);
  }

  /** The `while (true)` loop of `backfillOrders`: pages are drawn from the generator and
      upserted until it finishes or something fails. */
  method DrainOrders(db: Db, tenantId: string, pg: Paginator<Option<seq<RawOrder>>>) returns (r: Result<nat>)
    requires pg.Valid() && pg.pages == [] && pg.failure.None?
    modifies pg, db`orders, db`lineItems, db`nextId
    ensures (db.OrderView(), r) == Backfill(old(db.OrderView()), tenantId, pg.walk, OrderPage)
  {
    var total: nat := 0;
    while true
      invariant pg.Valid() && pg.failure.None?
      invariant (db.OrderView(), Ok(total)) == PagesFold(old(db.OrderView()), tenantId, pg.pages, OrderPage)
      decreases |pg.replies| - pg.consumed
    {
      ghost var before := pg.pages;
      var step := pg.Next();
      if step.Done? {
        return Ok(total);
      }
      if step.Failed? {
        BackfillFailed(old(db.OrderView()), tenantId, pg.walk, OrderPage, db.OrderView(), total, step.msg);
        return Err(step.msg);
      }
      var acc := UpsertOrderPage(db, tenantId, old(db.OrderView()), before, step.body, total);
      if acc.Err? {
        BackfillStopsAtError(old(db.OrderView()), tenantId, pg.walk, pg.pages, OrderPage);
        return Err(acc.msg);
      }
      total := acc.value;
    }
  }

  /** `backfillOrders(tenant, { since })`, the listing answering with `replies`. */
  method BackfillOrders(db: Db, tenant: Tenant, since: Js<string>, replies: seq<Reply<Option<seq<RawOrder>>>>, env: Env,
                        enc: string -> string, iso: string -> string) returns (r: Result<nat>)
    modifies db`orders, db`lineItems, db`nextId
    ensures (db.OrderView(), r) == BackfillOrdersResult(old(db.OrderView()), tenant, since, replies, env, enc, iso)
  {
    var client := TenantClient(tenant, env);
    if client.Err? {
      return Err(client.msg);
    }
    var query := OrdersQuery(since, iso);
    var pg := new Paginator(client.value, OrdersPath, query, PageLimit, replies, enc);
    assert BackfillOrdersResult(old(db.OrderView()), tenant, since, replies, env, enc, iso) == Backfill(old(db.OrderView()), tenant.id, pg.walk, OrderPage);
    r := DrainOrders(db, tenant.id, pg);
  }

  // ---------------------------------------------------------------------------
  // all three
  // ---------------------------------------------------------------------------

  datatype Counts = Counts(products: nat, customers: nat, orders: nat)

  /** `backfillAll(tenant, { since })`. The three backfills share no table, so running them
      one after the other gives the tables `Promise.all` leaves; the call fails with the
      first failure in argument order. */
  method BackfillAll(db: Db, tenant: Tenant, since: Js<string>,
                     productReplies: seq<Reply<Option<seq<RawProduct>>>>,
                     customerReplies: seq<Reply<Option<seq<RawCustomer>>>>,
                     orderReplies: seq<Reply<Option<seq<RawOrder>>>>,
                     env: Env, enc: string -> string, iso: string -> string) returns (r: Result<Counts>)
    modifies db`products, db`customers, db`orders, db`lineItems, db`nextId
    ensures var p := BackfillProductsResult(old(db.products), tenant, productReplies, env, enc);
            var c := BackfillCustomersResult(old(db.customers), tenant, customerReplies, env, enc);
            var o := BackfillOrdersResult(old(db.OrderView()), tenant, since, orderReplies, env, enc, iso);
            && db.products == p.0 && db.customers == c.0 && db.OrderView() == o.0
            && (r.Ok? <==> p.1.Ok? && c.1.Ok? && o.1.Ok?)
            && (r.Ok? ==> r.value == Counts(p.1.value, c.1.value, o.1.value))
            && (p.1.Err? ==> r == Err(p.1.msg))
            && (p.1.Ok? && c.1.Err? ==> r == Err(c.1.msg))
            && (p.1.Ok? && c.1.Ok? && o.1.Err? ==> r == Err(o.1.msg))
  {
    var p := BackfillProducts(db, tenant, productReplies, env, enc);
    var c := BackfillCustomers(db, tenant, customerReplies, env, enc);
    var o := BackfillOrders(db, tenant, since, orderReplies, env, enc, iso);
    if p.Err? {
      return Err(p.msg);
    }
    if c.Err? {
      return Err(c.msg);
    }
    if o.Err? {
      return Err(o.msg);
    }
    return Ok(Counts(p.value, c.value, o.value));
  }

  // ---------------------------------------------------------------------------
  // properties
  // ---------------------------------------------------------------------------

  /** The number of records the pages carry, a missing array counting 0. */
  function ItemCount<R>(pages: seq<Option<seq<R>>>): nat {
    if pages == [] then 0 else ItemCount(pages[..|pages| - 1]) + |Items(pages[|pages| - 1])|
  }

  /** A successful product backfill returns the number of products on the pages fetched in
      order, a page without `products` adding 0. */
  lemma {:induction false} ProductPagesCount(t: map<int, Product>, tenantId: string, pages: seq<Option<seq<RawProduct>>>)
    ensures var r := PagesFold(t, tenantId, pages, ProductPage);
            r.1.Ok? ==> r.1.value == ItemCount(pages)
  {
    if pages != [] {
      ProductPagesCount(t, tenantId, pages[..|pages| - 1]);
    }
  }

  lemma {:induction false} CustomerPagesCount(t: map<int, Customer>, tenantId: string, pages: seq<Option<seq<RawCustomer>>>)
    ensures var r := PagesFold(t, tenantId, pages, CustomerPage);
            r.1.Ok? ==> r.1.value == ItemCount(pages)
  {
    if pages != [] {
      CustomerPagesCount(t, tenantId, pages[..|pages| - 1]);
    }
  }

  lemma {:induction false} OrderPagesCount(t: OrderTables, tenantId: string, pages: seq<Option<seq<RawOrder>>>)
    ensures var r := PagesFold(t, tenantId, pages, OrderPage);
            r.1.Ok? ==> r.1.value == ItemCount(pages)
  {
    if pages != [] {
      OrderPagesCount(t, tenantId, pages[..|pages| - 1]);
    }
  }

  /** A page without the expected array leaves the table and the total as they were. */
  lemma MissingArrayAddsNothing(p: map<int, Product>, c: map<int, Customer>, o: OrderTables, tenantId: string,
                                pp: seq<Option<seq<RawProduct>>>, cp: seq<Option<seq<RawCustomer>>>,
                                op: seq<Option<seq<RawOrder>>>)
    ensures PagesFold(p, tenantId, pp + [None], ProductPage) == PagesFold(p, tenantId, pp, ProductPage)
    ensures PagesFold(c, tenantId, cp + [None], CustomerPage) == PagesFold(c, tenantId, cp, CustomerPage)
    ensures PagesFold(o, tenantId, op + [None], OrderPage) == PagesFold(o, tenantId, op, OrderPage)
  {
    assert (pp + [None])[..|pp|] == pp;
    assert (cp + [None])[..|cp|] == cp;
    assert (op + [None])[..|op|] == op;
  }

  /** The three page upserts treat a page without its array as an empty one. */
  lemma MissingArraysAreEmpty(p: map<int, Product>, c: map<int, Customer>, o: OrderTables, tenantId: string)
    ensures ProductPage(p, tenantId, None) == (p, Ok(0))
    ensures CustomerPage(c, tenantId, None) == (c, Ok(0))
    ensures OrderPage(o, tenantId, None) == (o, Ok(0))
  {
  }
}
