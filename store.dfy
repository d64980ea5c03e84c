/** The database behind the Prisma client: one table per model, each a map from the key the
    repositories upsert by, plus the line items, the webhook event log and the users.
    Generated internal ids come from one counter. */
module Store {
  import opened Base
  import opened Strings
  import opened JsonValue

  /** A point in time, in milliseconds since the epoch. */
  type Time = int

  datatype Tenant = Tenant(
    id: string,
    tenantId: string,
    shopDomain: string,
    accessToken: Option<string>,
    scopes: Option<string>,
    shopName: Option<string>,
    email: Option<string>,
    currency: Option<string>,
    timezone: Option<string>,
    status: string,
    uninstalledAt: Option<Time>)

  datatype Product = Product(
    tenantId: string,
    shopId: int,
    title: Option<string>,
    status: Option<string>,
    priceMin: Option<real>,
    priceMax: Option<real>)

  datatype Customer = Customer(
    tenantId: string,
    shopId: int,
    email: Option<string>,
    firstName: Option<string>,
    lastName: Option<string>,
    totalSpent: Option<real>,
    ordersCount: int)

  datatype Order = Order(
    id: nat,
    tenantId: string,
    shopId: int,
    customerShopId: Option<int>,
    name: Option<string>,
    currency: Option<string>,
    financialStatus: Option<string>,
    fulfillmentStatus: Option<string>,
    totalPrice: real,
    subtotalPrice: Option<real>,
    totalTax: Option<real>,
    totalDiscount: Option<real>,
    processedAt: Option<Time>)

  datatype LineItem = LineItem(
    orderId: nat,
    shopId: Option<int>,
    productShopId: Option<int>,
    title: Option<string>,
    quantity: int,
    price: Option<real>,
    totalDiscount: Option<real>,
    sku: Option<string>)

  datatype WebhookEvent = WebhookEvent(
    tenantId: string,
    topic: string,
    shopDomain: string,
    payload: Json,
    receivedAt: Time)

  datatype User = User(
    id: nat,
    googleId: Option<string>,
    email: string,
    name: Option<string>,
    avatar: Option<string>,
    role: string)

  /** The text of a generated internal id. */
  function IdText(n: nat): string {
    "c" + NatToDecimal(n)
  }

  /** `BigInt(x)` of an id taken from a Shopify payload: a missing or null id throws. */
  function BigIntOf(x: Js<int>): (r: Result<int>)
    ensures r.Ok? <==> x.Val?
    ensures r.Ok? ==> r.value == x.v
  {
    match x
    case Undefined => Err("Cannot convert undefined to a BigInt")
    case Null => Err("Cannot convert null to a BigInt")
    case Val(i) => Ok(i)
  }

  /** A numeric id that is truthy, that is present and not 0. */
  function TruthyId(x: Js<int>): (r: Option<int>)
    ensures r.Some? <==> x.Val? && x.v != 0
    ensures r.Some? ==> r.value == x.v
  {
    if x.Val? && x.v != 0 then Some(x.v) else None
  }

  /** The order table with its line items and the id counter, the part of the database the
      order repository writes. */
  datatype OrderTables = OrderTables(orders: map<(string, int), Order>, lineItems: seq<LineItem>, nextId: nat)

  /** Orders sit under their (tenant, Shopify id) key, internal ids are distinct and below
      the counter, and every line item points below the counter. */
  ghost predicate OrdersValid(t: OrderTables) {
    && (forall k :: k in t.orders ==> t.orders[k].tenantId == k.0 && t.orders[k].shopId == k.1)
    && (forall k :: k in t.orders ==> t.orders[k].id < t.nextId)
    && (forall k1, k2 :: k1 in t.orders && k2 in t.orders && k1 != k2 ==> t.orders[k1].id != t.orders[k2].id)
    && (forall i :: 0 <= i < |t.lineItems| ==> t.lineItems[i].orderId < t.nextId)
  }

  class Db {
    /** Tenants by `shopDomain`. */
    var tenants: map<string, Tenant>
    /** Products by Shopify id, across tenants. */
    var products: map<int, Product>
    /** Customers by Shopify id, across tenants. */
    var customers: map<int, Customer>
    /** Orders by (tenant id, Shopify id). */
    var orders: map<(string, int), Order>
    var lineItems: seq<LineItem>
    var webhookEvents: seq<WebhookEvent>
    /** Users by internal id. */
    var users: map<nat, User>
    var nextId: nat

    constructor ()
      ensures tenants == map[] && products == map[] && customers == map[] && orders == map[]
      ensures lineItems == [] && webhookEvents == [] && users == map[] && nextId == 0
    {
      tenants := map[];
      products := map[];
      customers := map[];
      orders := map[];
      lineItems := [];
      webhookEvents := [];
      users := map[];
      nextId := 0;
    }

    /** The order table, the line items and the counter as one value. */
    function OrderView(): OrderTables
      reads this
    {
      OrderTables(orders, lineItems, nextId)
    }
  }
}
