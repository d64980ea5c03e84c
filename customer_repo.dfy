/** `upsertCustomers`: customers keyed by their global Shopify id. An update writes only the
    truthy contact fields, a truthy `total_spent` and a numeric `orders_count`; a create
    stores the contact fields as given, `totalSpent` or null, and `ordersCount` or 0. */
module CustomerRepo {
  import opened Base
  import opened Store
  import opened KeyedUpsert

  /** A Shopify customer payload; `totalSpent` is `Some` exactly when `total_spent` is a
      non-empty string, holding its parsed value, and `ordersCount` is `Some` exactly when
      `orders_count` is a number. */
  datatype RawCustomer = RawCustomer(
    id: Js<int>,
    email: Js<string>,
    firstName: Js<string>,
    lastName: Js<string>,
    totalSpent: Option<real>,
    ordersCount: Option<int>)

  function CustomerId(c: RawCustomer): Js<int> { c.id }

  /** The `update` half; `tenantId` is never written. */
  function UpdatedCustomer(e: Customer, c: RawCustomer): Customer {
    e.(email := Apply(StrOrKeep(c.email), e.email),
       firstName := Apply(StrOrKeep(c.firstName), e.firstName),
       lastName := Apply(StrOrKeep(c.lastName), e.lastName),
       totalSpent := Apply(OptOrKeep(c.totalSpent), e.totalSpent),
       ordersCount := if c.ordersCount.Some? then c.ordersCount.value else e.ordersCount)
  }

  /** The `create` half. */
  function CreatedCustomer(tenantId: string, shopId: int, c: RawCustomer): Customer {
    Customer(tenantId, shopId, CreateOf(c.email), CreateOf(c.firstName), CreateOf(c.lastName),
             c.totalSpent, if c.ordersCount.Some? then c.ordersCount.value else 0)
  }

  /** `upsertCustomers(tenantId, customers)` against the customer table. */
  method UpsertCustomers(db: Db, tenantId: string, customers: seq<RawCustomer>) returns (r: Result<nat>)
    modifies db`customers
    ensures (db.customers, r) == UpsertAll(old(db.customers), tenantId, customers, CustomerId, UpdatedCustomer, CreatedCustomer)
  {
    if |customers| == 0 {
      return Ok(0);
    }
    var count := 0;
    for i := 0 to |customers|
      invariant (db.customers, Ok(count)) ==
                UpsertAll(old(db.customers), tenantId, customers[..i], CustomerId, UpdatedCustomer, CreatedCustomer)
    {
      assert customers[..i + 1][..i] == customers[..i];
      var c := customers[i];
      var shopId := BigIntOf(c.id);
      if shopId.Err? {
        UpsertAllStopsAtError(old(db.customers), tenantId, customers, i + 1, CustomerId, UpdatedCustomer, CreatedCustomer);
        return Err(shopId.msg);
      }
      if shopId.value in db.customers {
        db.customers := db.customers[shopId.value := UpdatedCustomer(db.customers[shopId.value], c)];
      } else {
        db.customers := db.customers[shopId.value := CreatedCustomer(tenantId, shopId.value, c)];
      }
      count := count + 1;
    }
    assert customers[..|customers|] == customers;
    return Ok(count);
  }

  // ---------------------------------------------------------------------------
  // properties
  // ---------------------------------------------------------------------------

  /** On update the owning tenant and the key stay, falsy contact fields and a falsy
      `total_spent` leave the stored values, and a non-numeric `orders_count` leaves the
      stored count. */
  lemma UpdateKeepsFalsyFields(e: Customer, c: RawCustomer)
    ensures var n := UpdatedCustomer(e, c);
            && n.tenantId == e.tenantId && n.shopId == e.shopId
            && (!TruthyStr(c.email) ==> n.email == e.email)
            && (!TruthyStr(c.firstName) ==> n.firstName == e.firstName)
            && (!TruthyStr(c.lastName) ==> n.lastName == e.lastName)
            && (c.totalSpent.None? ==> n.totalSpent == e.totalSpent)
            && (c.ordersCount.None? ==> n.ordersCount == e.ordersCount)
            && (c.ordersCount.Some? ==> n.ordersCount == c.ordersCount.value)
  {
  }

  /** A create records the calling tenant, null for an absent `total_spent` and 0 for a
      non-numeric `orders_count`. */
  lemma CreateDefaults(tenantId: string, shopId: int, c: RawCustomer)
    ensures var n := CreatedCustomer(tenantId, shopId, c);
            && n.tenantId == tenantId && n.shopId == shopId
            && (c.totalSpent.None? ==> n.totalSpent.None?)
            && (c.ordersCount.None? ==> n.ordersCount == 0)
  {
  }

  /** Upserting the same customer twice leaves the table as one upsert does, whether the
      first call created or updated the row. */
  lemma UpsertCustomerIdempotent(t: map<int, Customer>, tenantId: string, c: RawCustomer)
    requires c.id.Val?
    ensures var t1 := UpsertOne(t, tenantId, c, CustomerId, UpdatedCustomer, CreatedCustomer).value;
            UpsertOne(t1, tenantId, c, CustomerId, UpdatedCustomer, CreatedCustomer) == Ok(t1)
  {
    var k := c.id.v;
    var t1 := UpsertOne(t, tenantId, c, CustomerId, UpdatedCustomer, CreatedCustomer).value;
    assert UpdatedCustomer(t1[k], c) == t1[k];
    assert t1[k := t1[k]] == t1;
  }
}
