/** `upsertOrdersWithItems`: orders are upserted one by one under the key (tenant id,
    Shopify order id); an incoming order that carries line items replaces the stored line
    items of that order, one that carries none leaves them as they are. */
module OrderRepo {
  import opened Base
  import opened Store

  /** A line item of a Shopify order payload. Numeric ids are `Val` when present; money
      fields are `Some` exactly when the payload string is non-empty, holding its parsed
      value; `quantity` is `Some` exactly when the payload value is a number. */
  datatype RawLineItem = RawLineItem(
    id: Js<int>,
    productId: Js<int>,
    title: Js<string>,
    quantity: Option<int>,
    price: Option<real>,
    totalDiscount: Option<real>,
    sku: Js<string>)

  /** A Shopify order payload. `customerId` is `o.customer?.id`; a missing or empty
      `line_items` array is the empty sequence. */
  datatype RawOrder = RawOrder(
    id: Js<int>,
    customerId: Js<int>,
    name: Js<string>,
    currency: Js<string>,
    financialStatus: Js<string>,
    fulfillmentStatus: Js<string>,
    totalPrice: Option<real>,
    subtotalPrice: Option<real>,
    totalTax: Option<real>,
    totalDiscounts: Option<real>,
    processedAt: Option<Time>,
    lineItems: seq<RawLineItem>)

  /** `parseFloat(o.total_price || '0')`: an absent total is 0. */
  function TotalPrice(o: RawOrder): (p: real)
    ensures o.totalPrice.Some? ==> p == o.totalPrice.value
    ensures o.totalPrice.None? ==> p == 0.0
  {
    if o.totalPrice.Some? then o.totalPrice.value else 0.0
  }

  /** The row an existing order becomes: absent optional fields are left alone, the total is
      always written. */
  function UpdatedOrder(e: Order, o: RawOrder): Order {
    e.(customerShopId := Apply(OptOrKeep(TruthyId(o.customerId)), e.customerShopId),
       name := Apply(StrOrKeep(o.name), e.name),
       currency := Apply(StrOrKeep(o.currency), e.currency),
       financialStatus := Apply(StrOrKeep(o.financialStatus), e.financialStatus),
       fulfillmentStatus := Apply(StrOrKeep(o.fulfillmentStatus), e.fulfillmentStatus),
       totalPrice := TotalPrice(o),
       subtotalPrice := Apply(OptOrKeep(o.subtotalPrice), e.subtotalPrice),
       totalTax := Apply(OptOrKeep(o.totalTax), e.totalTax),
       totalDiscount := Apply(OptOrKeep(o.totalDiscounts), e.totalDiscount),
       processedAt := Apply(OptOrKeep(o.processedAt), e.processedAt))
  }

  /** The row a new order is created as: absent optional fields are null. */
  function CreatedOrder(id: nat, tenantId: string, shopId: int, o: RawOrder): Order {
    Order(id, tenantId, shopId, TruthyId(o.customerId), StrOrNull(o.name), StrOrNull(o.currency),
          StrOrNull(o.financialStatus), StrOrNull(o.fulfillmentStatus), TotalPrice(o),
          o.subtotalPrice, o.totalTax, o.totalDiscounts, o.processedAt)
  }

  /** The line-item row created for `li` under order `orderId`. */
  function NewLineItem(orderId: nat, li: RawLineItem): (r: LineItem)
    ensures r.orderId == orderId
    ensures r.quantity == (if li.quantity.Some? then li.quantity.value else 0)
    ensures r.price == li.price && r.totalDiscount == li.totalDiscount
    ensures r.sku.Some? <==> TruthyStr(li.sku)
    ensures r.title.Some? <==> TruthyStr(li.title)
    ensures r.shopId.Some? <==> li.id.Val? && li.id.v != 0
    ensures r.productShopId.Some? <==> li.productId.Val? && li.productId.v != 0
  {
    LineItem(orderId, TruthyId(li.id), TruthyId(li.productId), StrOrNull(li.title),
             if li.quantity.Some? then li.quantity.value else 0,
             li.price, li.totalDiscount, StrOrNull(li.sku))
  }

  function NewLineItems(orderId: nat, lis: seq<RawLineItem>): (r: seq<LineItem>)
    ensures |r| == |lis|
    ensures forall k :: 0 <= k < |lis| ==> r[k] == NewLineItem(orderId, lis[k])
  {
    seq(|lis|, k requires 0 <= k < |lis| => NewLineItem(orderId, lis[k]))
  }

  /** The stored line items of order `orderId`, in insertion order. */
  function ItemsOf(items: seq<LineItem>, orderId: nat): (r: seq<LineItem>)
    ensures forall k :: 0 <= k < |r| ==> r[k].orderId == orderId
    ensures |r| <= |items|
  {
    if items == [] then []
    else ItemsOf(items[..|items| - 1], orderId)
         + (if items[|items| - 1].orderId == orderId then [items[|items| - 1]] else [])
  }

  /** `deleteMany({ where: { orderId } })`: the stored line items of every other order. */
  function Others(items: seq<LineItem>, orderId: nat): (r: seq<LineItem>)
    ensures forall k :: 0 <= k < |r| ==> r[k].orderId != orderId
    ensures forall k :: 0 <= k < |r| ==> r[k] in items
  {
    if items == [] then []
    else
      var init := Others(items[..|items| - 1], orderId);
      assert forall k :: 0 <= k < |init| ==> init[k] in items[..|items| - 1];
      init + (if items[|items| - 1].orderId != orderId then [items[|items| - 1]] else [])
  }

  /** One pass of the loop body: the order upsert and, when the order carries line items,
      the delete-then-create of its items. A missing id throws before anything is written. */
  function UpsertOrder(t: OrderTables, tenantId: string, o: RawOrder): (r: Result<OrderTables>)
    ensures r.Ok? <==> o.id.Val?
  {
    match BigIntOf(o.id)
    case Err(m) => Err(m)
    case Ok(shopId) =>
      var key := (tenantId, shopId);
      var row := if key in t.orders then UpdatedOrder(t.orders[key], o) else CreatedOrder(t.nextId, tenantId, shopId, o);
      var next := if key in t.orders then t.nextId else t.nextId + 1;
      var items := if o.lineItems == [] then t.lineItems
                   else Others(t.lineItems, row.id) + NewLineItems(row.id, o.lineItems);
      Ok(OrderTables(t.orders[key := row], items, next))
  }

  /** The tables and the result after upserting `os` in order: the first order without an id
      stops the loop, with the earlier orders already written. */
  function UpsertOrders(t: OrderTables, tenantId: string, os: seq<RawOrder>): (r: (OrderTables, Result<nat>))
    ensures r.1.Ok? <==> forall i :: 0 <= i < |os| ==> os[i].id.Val?
    ensures r.1.Ok? ==> r.1.value == |os|
    ensures os == [] ==> r == (t, Ok(0))
  {
    if os == [] then (t, Ok(0))
    else
      var init := os[..|os| - 1];
      assert forall i :: 0 <= i < |init| ==> init[i] == os[i];
      var (t', n) := UpsertOrders(t, tenantId, init);
      if n.Err? then (t', n)
      else
        match UpsertOrder(t', tenantId, os[|os| - 1])
        case Err(m) => (t', Err(m))
        case Ok(t'') => (t'', Ok(n.value + 1))
  }

  lemma NewLineItemsPrefix(orderId: nat, lis: seq<RawLineItem>, j: nat)
    requires j < |lis|
    ensures NewLineItems(orderId, lis[..j + 1]) == NewLineItems(orderId, lis[..j]) + [NewLineItem(orderId, lis[j])]
  {
  }

  /** Once an order without an id has stopped the loop, the later orders change nothing. */
  lemma {:induction false} UpsertOrdersStopsAtError(t: OrderTables, tenantId: string, os: seq<RawOrder>, i: nat)
    requires i <= |os|
    requires UpsertOrders(t, tenantId, os[..i]).1.Err?
    ensures UpsertOrders(t, tenantId, os) == UpsertOrders(t, tenantId, os[..i])
    decreases |os| - i
  {
    if i < |os| {
      assert os[..i + 1][..i] == os[..i];
      UpsertOrdersStopsAtError(t, tenantId, os, i + 1);
    } else {
      assert os[..i] == os;
    }
  }

  /** One iteration of the loop in `upsertOrdersWithItems`: the order upsert, then the line
      items deleted and re-created one at a time. */
  method UpsertOrderWithItems(db: Db, tenantId: string, o: RawOrder) returns (ok: Result<()>)
    modifies db`orders, db`lineItems, db`nextId
    ensures ok.Ok? <==> o.id.Val?
    ensures ok.Ok? ==> UpsertOrder(old(db.OrderView()), tenantId, o) == Ok(db.OrderView())
    ensures ok.Err? ==> UpsertOrder(old(db.OrderView()), tenantId, o) == Err(ok.msg) && db.OrderView() == old(db.OrderView())
  {
    ghost var t0 := db.OrderView();
    var shopId := BigIntOf(o.id);
    if shopId.Err? {
      return Err(shopId.msg);
    }
    var key := (tenantId, shopId.value);
    ghost var created := key !in db.orders;
    var row: Order;
    if key in db.orders {
      row := UpdatedOrder(db.orders[key], o);
    } else {
      row := CreatedOrder(db.nextId, tenantId, shopId.value, o);
      db.nextId := db.nextId + 1;
    }
    db.orders := db.orders[key := row];
    if |o.lineItems| > 0 {
      db.lineItems := Others(db.lineItems, row.id);
      ghost var kept := db.lineItems;
      for j := 0 to |o.lineItems|
        invariant db.lineItems == kept + NewLineItems(row.id, o.lineItems[..j])
        invariant db.orders == t0.orders[key := row]
        invariant db.nextId == if created then t0.nextId + 1 else t0.nextId
      {
        NewLineItemsPrefix(row.id, o.lineItems, j);
        db.lineItems := db.lineItems + [NewLineItem(row.id, o.lineItems[j])];
      }
      assert o.lineItems[..|o.lineItems|] == o.lineItems;
      assert db.lineItems == Others(t0.lineItems, row.id) + NewLineItems(row.id, o.lineItems);
    } else {
      assert o.lineItems == [];
    }
    assert row == if created then CreatedOrder(t0.nextId, tenantId, shopId.value, o) else UpdatedOrder(t0.orders[key], o);
    assert db.nextId == if created then t0.nextId + 1 else t0.nextId;
    return Ok(());
  }

  /** `upsertOrdersWithItems(tenantId, orders)` against the order and line-item tables. */
  method UpsertOrdersWithItems(db: Db, tenantId: string, orders: seq<RawOrder>) returns (r: Result<nat>)
    modifies db`orders, db`lineItems, db`nextId
    ensures (db.OrderView(), r) == UpsertOrders(old(db.OrderView()), tenantId, orders)
  {
    if |orders| == 0 {
      return Ok(0);
    }
    var count := 0;
    for i := 0 to |orders|
      invariant (db.OrderView(), Ok(count)) == UpsertOrders(old(db.OrderView()), tenantId, orders[..i])
    {
      assert orders[..i + 1][..i] == orders[..i];
      var ok := UpsertOrderWithItems(db, tenantId, orders[i]);
      if ok.Err? {
        UpsertOrdersStopsAtError(old(db.OrderView()), tenantId, orders, i + 1);
        return Err(ok.msg);
      }
      count := count + 1;
    }
    assert orders[..|orders|] == orders;
    return Ok(count);
  }
}

module OrderRepoFacts {
  import opened Base
  import opened Store
  import opened OrderRepo

  // ---------------------------------------------------------------------------
  // filters over the line-item table
  // ---------------------------------------------------------------------------

  lemma {:induction false} ItemsOfConcat(a: seq<LineItem>, b: seq<LineItem>, x: nat)
    ensures ItemsOf(a + b, x) == ItemsOf(a, x) + ItemsOf(b, x)
    decreases |b|
  {
    if b == [] {
      assert a + b == a;
    } else {
      assert (a + b)[..|a + b| - 1] == a + b[..|b| - 1];
      ItemsOfConcat(a, b[..|b| - 1], x);
    }
  }

  lemma {:induction false} OthersConcat(a: seq<LineItem>, b: seq<LineItem>, x: nat)
    ensures Others(a + b, x) == Others(a, x) + Others(b, x)
    decreases |b|
  {
    if b == [] {
      assert a + b == a;
    } else {
      assert (a + b)[..|a + b| - 1] == a + b[..|b| - 1];
      OthersConcat(a, b[..|b| - 1], x);
    }
  }

  /** Filtering keeps a sequence whole when every element passes and empties it when none does. */
  lemma {:induction false} FilterUniform(s: seq<LineItem>, x: nat)
    ensures (forall k :: 0 <= k < |s| ==> s[k].orderId == x) ==> ItemsOf(s, x) == s && Others(s, x) == []
    ensures (forall k :: 0 <= k < |s| ==> s[k].orderId != x) ==> ItemsOf(s, x) == [] && Others(s, x) == s
    decreases |s|
  {
    if s != [] {
      var init, last := s[..|s| - 1], s[|s| - 1];
      FilterUniform(init, x);
      assert s == init + [last];
      assert forall k :: 0 <= k < |init| ==> init[k] == s[k];
    }
  }

  /** Removing the items of one order leaves every other order's items as they were. */
  lemma {:induction false} ItemsOfOthers(s: seq<LineItem>, x: nat, y: nat)
    ensures ItemsOf(Others(s, x), y) == if x == y then [] else ItemsOf(s, y)
    decreases |s|
  {
    if s != [] {
      var init := s[..|s| - 1];
      var last := s[|s| - 1];
      ItemsOfOthers(init, x, y);
      ItemsOfConcat(Others(init, x), if last.orderId != x then [last] else [], y);
    }
  }

  lemma OthersTwice(s: seq<LineItem>, x: nat)
    ensures Others(Others(s, x), x) == Others(s, x)
  {
    FilterUniform(Others(s, x), x);
  }

  // ---------------------------------------------------------------------------
  // one order
  // ---------------------------------------------------------------------------

  /** Updating an existing order keeps its identity, always writes the total (0 when the
      payload has none) and leaves every absent optional field as it was. */
  lemma UpdateLeavesAbsentFields(t: OrderTables, tenantId: string, o: RawOrder)
    requires o.id.Val? && (tenantId, o.id.v) in t.orders
    ensures var e := t.orders[(tenantId, o.id.v)];
            var r := UpsertOrder(t, tenantId, o).value;
            var n := r.orders[(tenantId, o.id.v)];
            && r.nextId == t.nextId
            && n.id == e.id && n.tenantId == e.tenantId && n.shopId == e.shopId
            && n.totalPrice == (if o.totalPrice.Some? then o.totalPrice.value else 0.0)
            && (!(o.customerId.Val? && o.customerId.v != 0) ==> n.customerShopId == e.customerShopId)
            && (!TruthyStr(o.name) ==> n.name == e.name)
            && (!TruthyStr(o.currency) ==> n.currency == e.currency)
            && (!TruthyStr(o.financialStatus) ==> n.financialStatus == e.financialStatus)
            && (!TruthyStr(o.fulfillmentStatus) ==> n.fulfillmentStatus == e.fulfillmentStatus)
            && (o.subtotalPrice.None? ==> n.subtotalPrice == e.subtotalPrice)
            && (o.totalTax.None? ==> n.totalTax == e.totalTax)
            && (o.totalDiscounts.None? ==> n.totalDiscount == e.totalDiscount)
            && (o.processedAt.None? ==> n.processedAt == e.processedAt)
  {
  }

  /** A new order takes the next id and stores every absent optional field as null. */
  lemma CreateNullsAbsentFields(t: OrderTables, tenantId: string, o: RawOrder)
    requires o.id.Val? && (tenantId, o.id.v) !in t.orders
    ensures var r := UpsertOrder(t, tenantId, o).value;
            var n := r.orders[(tenantId, o.id.v)];
            && r.nextId == t.nextId + 1 && r.orders.Keys == t.orders.Keys + {(tenantId, o.id.v)}
            && n.id == t.nextId && n.tenantId == tenantId && n.shopId == o.id.v
            && n.totalPrice == (if o.totalPrice.Some? then o.totalPrice.value else 0.0)
            && (n.customerShopId.None? <==> !(o.customerId.Val? && o.customerId.v != 0))
            && (n.name.None? <==> !TruthyStr(o.name))
            && (n.currency.None? <==> !TruthyStr(o.currency))
            && (n.financialStatus.None? <==> !TruthyStr(o.financialStatus))
            && (n.fulfillmentStatus.None? <==> !TruthyStr(o.fulfillmentStatus))
            && n.subtotalPrice == o.subtotalPrice && n.totalTax == o.totalTax
            && n.totalDiscount == o.totalDiscounts && n.processedAt == o.processedAt
  {
  }

  /** An order that carries line items leaves exactly those items stored for it, never a
      union with the old ones, and every other order's items untouched. */
  lemma LineItemsReplaced(t: OrderTables, tenantId: string, o: RawOrder, other: nat)
    requires o.id.Val? && o.lineItems != []
    ensures var r := UpsertOrder(t, tenantId, o).value;
            var id := r.orders[(tenantId, o.id.v)].id;
            && ItemsOf(r.lineItems, id) == NewLineItems(id, o.lineItems)
            && (other != id ==> ItemsOf(r.lineItems, other) == ItemsOf(t.lineItems, other))
  {
    var r := UpsertOrder(t, tenantId, o).value;
    var id := r.orders[(tenantId, o.id.v)].id;
    var added := NewLineItems(id, o.lineItems);
    assert r.lineItems == Others(t.lineItems, id) + added;
    ItemsOfConcat(Others(t.lineItems, id), added, id);
    ItemsOfConcat(Others(t.lineItems, id), added, other);
    ItemsOfOthers(t.lineItems, id, id);
    ItemsOfOthers(t.lineItems, id, other);
    FilterUniform(added, id);
    FilterUniform(added, other);
  }

  /** An order without line items leaves the line-item table as it was. */
  lemma NoLineItemsKeepsItems(t: OrderTables, tenantId: string, o: RawOrder)
    requires o.id.Val? && o.lineItems == []
    ensures UpsertOrder(t, tenantId, o).value.lineItems == t.lineItems
  {
  }

  lemma UpdateTwice(e: Order, o: RawOrder)
    ensures UpdatedOrder(UpdatedOrder(e, o), o) == UpdatedOrder(e, o)
  {
  }

  lemma UpdateAfterCreate(id: nat, tenantId: string, shopId: int, o: RawOrder)
    ensures UpdatedOrder(CreatedOrder(id, tenantId, shopId, o), o) == CreatedOrder(id, tenantId, shopId, o)
  {
  }

  /** Upserting the same order a second time changes nothing: one row, the same items, no
      id consumed. */
  lemma UpsertOrderIdempotent(t: OrderTables, tenantId: string, o: RawOrder)
    requires o.id.Val?
    ensures UpsertOrder(UpsertOrder(t, tenantId, o).value, tenantId, o) == UpsertOrder(t, tenantId, o)
  {
    var key := (tenantId, o.id.v);
    var t1 := UpsertOrder(t, tenantId, o).value;
    var row := t1.orders[key];
    if key in t.orders {
      UpdateTwice(t.orders[key], o);
    } else {
      UpdateAfterCreate(t.nextId, tenantId, o.id.v, o);
    }
    assert UpdatedOrder(row, o) == row;
    assert t1.orders[key := row] == t1.orders;
    if o.lineItems != [] {
      var added := NewLineItems(row.id, o.lineItems);
      assert t1.lineItems == Others(t.lineItems, row.id) + added;
      OthersConcat(Others(t.lineItems, row.id), added, row.id);
      OthersTwice(t.lineItems, row.id);
      FilterUniform(added, row.id);
      assert Others(t1.lineItems, row.id) == Others(t.lineItems, row.id);
    }
    assert UpsertOrder(t1, tenantId, o) == Ok(t1);
  }

  /** An upsert keeps the tables consistent: rows under their key, distinct ids below the
      counter, line items pointing below the counter. */
  lemma UpsertOrderValid(t: OrderTables, tenantId: string, o: RawOrder)
    requires OrdersValid(t) && o.id.Val?
    ensures OrdersValid(UpsertOrder(t, tenantId, o).value)
  {
    var r := UpsertOrder(t, tenantId, o).value;
    var key := (tenantId, o.id.v);
    var row := r.orders[key];
    assert row.id < r.nextId;
    if o.lineItems != [] {
      var kept := Others(t.lineItems, row.id);
      var added := NewLineItems(row.id, o.lineItems);
      assert forall i :: 0 <= i < |kept| ==> kept[i] in t.lineItems;
      assert forall i :: 0 <= i < |r.lineItems| ==> r.lineItems[i].orderId < r.nextId by {
        forall i | 0 <= i < |r.lineItems| ensures r.lineItems[i].orderId < r.nextId {
          if i < |kept| {
            assert r.lineItems[i] == kept[i];
          } else {
            assert r.lineItems[i] == added[i - |kept|];
          }
        }
      }
    }
  }

  // ---------------------------------------------------------------------------
  // the whole loop
  // ---------------------------------------------------------------------------

  /** The Shopify ids of a batch, under one tenant. */
  function KeysOf(tenantId: string, os: seq<RawOrder>): set<(string, int)> {
    set i | 0 <= i < |os| && os[i].id.Val? :: (tenantId, os[i].id.v)
  }

  lemma KeysOfSnoc(tenantId: string, os: seq<RawOrder>)
    requires os != []
    ensures KeysOf(tenantId, os) == KeysOf(tenantId, os[..|os| - 1]) +
              (if os[|os| - 1].id.Val? then {(tenantId, os[|os| - 1].id.v)} else {})
  {
    var init := os[..|os| - 1];
    forall k | k in KeysOf(tenantId, os)
      ensures k in KeysOf(tenantId, init) || (os[|os| - 1].id.Val? && k == (tenantId, os[|os| - 1].id.v))
    {
      var i :| 0 <= i < |os| && os[i].id.Val? && k == (tenantId, os[i].id.v);
      if i < |os| - 1 {
        assert init[i] == os[i];
      }
    }
    forall k | k in KeysOf(tenantId, init) ensures k in KeysOf(tenantId, os) {
      var i :| 0 <= i < |init| && init[i].id.Val? && k == (tenantId, init[i].id.v);
      assert os[i] == init[i];
    }
  }

  /** After a successful call the order table holds exactly the old keys plus one key per
      input order: upserting the same order twice leaves one row. */
  lemma {:induction false} UpsertOrdersKeys(t: OrderTables, tenantId: string, os: seq<RawOrder>)
    ensures var r := UpsertOrders(t, tenantId, os);
            r.1.Ok? ==> r.0.orders.Keys == t.orders.Keys + KeysOf(tenantId, os)
  {
    if os != [] {
      var init := os[..|os| - 1];
      UpsertOrdersKeys(t, tenantId, init);
      KeysOfSnoc(tenantId, os);
    }
  }

  /** When every order of the batch is already stored, the call adds no row and consumes no
      id: a repeated identical call creates nothing. */
  lemma {:induction false} UpsertOrdersNoNewRows(t: OrderTables, tenantId: string, os: seq<RawOrder>)
    requires KeysOf(tenantId, os) <= t.orders.Keys
    ensures var r := UpsertOrders(t, tenantId, os);
            r.0.orders.Keys == t.orders.Keys && r.0.nextId == t.nextId
  {
    if os != [] {
      var init := os[..|os| - 1];
      KeysOfSnoc(tenantId, os);
      UpsertOrdersNoNewRows(t, tenantId, init);
    }
  }

  lemma RepeatedCallAddsNoRows(t: OrderTables, tenantId: string, os: seq<RawOrder>)
    requires UpsertOrders(t, tenantId, os).1.Ok?
    ensures var t1 := UpsertOrders(t, tenantId, os).0;
            var t2 := UpsertOrders(t1, tenantId, os).0;
            t2.orders.Keys == t1.orders.Keys && t2.nextId == t1.nextId
  {
    UpsertOrdersKeys(t, tenantId, os);
    UpsertOrdersNoNewRows(UpsertOrders(t, tenantId, os).0, tenantId, os);
  }

  /** The loop keeps the tables consistent, whether it completes or stops at a bad order. */
  lemma {:induction false} UpsertOrdersValid(t: OrderTables, tenantId: string, os: seq<RawOrder>)
    requires OrdersValid(t)
    ensures OrdersValid(UpsertOrders(t, tenantId, os).0)
  {
    if os != [] {
      var init := os[..|os| - 1];
      UpsertOrdersValid(t, tenantId, init);
      var t' := UpsertOrders(t, tenantId, init).0;
      if UpsertOrders(t, tenantId, init).1.Ok? && os[|os| - 1].id.Val? {
        UpsertOrderValid(t', tenantId, os[|os| - 1]);
      }
    }
  }
}
