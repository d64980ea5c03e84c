/** `insights.controller.js`: the tenant-scoped dashboards. Each handler needs the tenant set
    by the tenant middleware, validates its numeric query parameters, reads the tables and
    turns BigInt values into decimal strings before answering.

    `Number(text)` and `new Date(text)` are parameters; the raw SQL aggregations are answers
    given as data, their errors included. */
module InsightsController {
  import opened Base
  import opened Strings
  import opened JsonValue
  import opened Store
  import opened Sorting
  import opened ShopifyConfig
  import opened TenantMiddleware

  /** What a handler does: answer 400 with `{success: false, error}`, answer 200 with a
      body, or hand a thrown error to `next`. */
  datatype Insight<+T> = Refused(status: int, error: string) | Served(body: T) | Thrown(error: string)

  const MissingTenant := "Tenant context is missing"
  const InvalidLimit := "Invalid limit parameter"
  const InvalidOffset := "Invalid offset parameter"

  /** `!req.tenant || !req.tenant.id` */
  predicate NoTenant(ctx: Option<TenantContext>) {
    ctx.None? || ctx.value.id == ""
  }

  // ---------------------------------------------------------------------------
  // numeric query parameters
  // ---------------------------------------------------------------------------

  /** `Number(req.query.k || d)`; an array converts through its comma-joined text. */
  function NumberParam(q: Query, k: string, d: nat, number: string -> Num): Num {
    if QTruthy(Lookup(q, k)) then number(Render(Lookup(q, k).value)) else Finite(d as real)
  }

  /** `n <= 0` on a JavaScript number: false for NaN. */
  predicate AtMostZero(n: Num) {
    match n
    case NaN => false
    case Infinity(negative) => negative
    case Finite(r) => r <= 0.0
  }

  /** `n < 0` on a JavaScript number. */
  predicate BelowZero(n: Num) {
    match n
    case NaN => false
    case Infinity(negative) => negative
    case Finite(r) => r < 0.0
  }

  predicate Positive(n: Num) {
    (n.Finite? && n.r > 0.0) || n == Infinity(false)
  }

  predicate NonNegative(n: Num) {
    (n.Finite? && n.r >= 0.0) || n == Infinity(false)
  }

  /** `limit = Number(req.query.limit || d)`, refused when `isNaN(limit) || limit <= 0`. */
  function LimitParam(q: Query, d: nat, number: string -> Num): (r: Result<Num>)
    requires d > 0
    ensures r.Err? ==> r.msg == InvalidLimit
    ensures r.Ok? ==> Positive(r.value)
    ensures !QTruthy(Lookup(q, "limit")) ==> r == Ok(Finite(d as real))
    ensures QTruthy(Lookup(q, "limit")) ==>
              (r.Ok? <==> Positive(number(Render(Lookup(q, "limit").value))))
  {
    var limit := NumberParam(q, "limit", d, number);
    if limit.NaN? || AtMostZero(limit) then Err(InvalidLimit) else Ok(limit)
  }

  /** `offset = Number(req.query.offset || 0)`, refused when `isNaN(offset) || offset < 0`. */
  function OffsetParam(q: Query, number: string -> Num): (r: Result<Num>)
    ensures r.Err? ==> r.msg == InvalidOffset
    ensures r.Ok? ==> NonNegative(r.value)
    ensures !QTruthy(Lookup(q, "offset")) ==> r == Ok(Finite(0.0))
    ensures QTruthy(Lookup(q, "offset")) ==>
              (r.Ok? <==> NonNegative(number(Render(Lookup(q, "offset").value))))
  {
    var offset := NumberParam(q, "offset", 0, number);
    if offset.NaN? || BelowZero(offset) then Err(InvalidOffset) else Ok(offset)
  }

  /** `a + b` on JavaScript numbers. */
  function Add(a: Num, b: Num): Num {
    match (a, b)
    case (NaN, _) => NaN
    case (_, NaN) => NaN
    case (Infinity(x), Infinity(y)) => if x == y then a else NaN
    case (Infinity(_), _) => a
    case (_, Infinity(_)) => b
    case (Finite(x), Finite(y)) => Finite(x + y)
  }

  /** `a < t` for a JavaScript number `a`. */
  predicate Less(a: Num, t: real) {
    match a
    case NaN => false
    case Infinity(negative) => negative
    case Finite(r) => r < t
  }

  /** The whole number Prisma accepts for `take` or `skip`. */
  function IntValue(n: Num): (r: Option<nat>)
    ensures r.Some? ==> n == Finite(r.value as real)
  {
    if n.Finite? && n.r >= 0.0 && n.r.Floor as real == n.r then Some(n.r.Floor as nat) else None
  }

  // ---------------------------------------------------------------------------
  // BigInt serialisation
  // ---------------------------------------------------------------------------

  /** A row of a raw query: its columns in order. */
  type Row = seq<(string, Json)>

  /** A BigInt becomes its decimal text; every other value stays. */
  function SerializedValue(v: Json): Json {
    if v.JBigInt? then JStr(IntToDecimal(v.i)) else v
  }

  function SerializedRow(row: Row): (r: Row) {
    seq(|row|, i requires 0 <= i < |row| => (row[i].0, SerializedValue(row[i].1)))
  }

  function SerializedRows(rows: seq<Row>): (r: seq<Row>) {
    seq(|rows|, i requires 0 <= i < |rows| => SerializedRow(rows[i]))
  }

  /** `const serializedRow = { ...row }; for (const key in serializedRow) …`: the copy is
      rewritten column by column. */
  method SerializeRow(row: Row) returns (r: Row)
    ensures r == SerializedRow(row)
  {
    r := row;
    for i := 0 to |r|
      invariant |r| == |row|
      invariant forall j :: 0 <= j < i ==> r[j] == (row[j].0, SerializedValue(row[j].1))
      invariant forall j :: i <= j < |r| ==> r[j] == row[j]
    {
      if r[i].1.JBigInt? {
        r := r[i := (r[i].0, JStr(IntToDecimal(r[i].1.i)))];
      }
    }
  }

  /** `rows.map(row => …)` */
  method SerializeRows(rows: seq<Row>) returns (r: seq<Row>)
    ensures r == SerializedRows(rows)
  {
    r := [];
    for i := 0 to |rows|
      invariant |r| == i
      invariant forall j :: 0 <= j < i ==> r[j] == SerializedRow(rows[j])
    {
      var row := SerializeRow(rows[i]);
      r := r + [row];
    }
  }

  /** After serialisation no BigInt is left, the columns keep their names and order, other
      values are untouched, and every former BigInt reads back as the same integer. */
  lemma SerializationMeaning(row: Row)
    ensures var r := SerializedRow(row);
            && |r| == |row|
            && (forall i :: 0 <= i < |r| ==> r[i].0 == row[i].0 && !r[i].1.JBigInt?)
            && (forall i :: 0 <= i < |r| && !row[i].1.JBigInt? ==> r[i].1 == row[i].1)
            && (forall i :: 0 <= i < |r| && row[i].1.JBigInt? ==>
                  r[i].1.JStr? && DecimalToInt(r[i].1.s) == Int(row[i].1.i))
  {
    forall i | 0 <= i < |row| && row[i].1.JBigInt? {
      IntDecimalRoundTrip(row[i].1.i);
    }
  }

  /** Serialising twice changes nothing more. */
  lemma SerializationIdempotent(rows: seq<Row>)
    ensures SerializedRows(SerializedRows(rows)) == SerializedRows(rows)
  {
    forall i | 0 <= i < |rows| ensures SerializedRow(SerializedRow(rows[i])) == SerializedRow(rows[i]) {
      assert forall j :: 0 <= j < |rows[i]| ==> !SerializedValue(rows[i][j].1).JBigInt?;
    }
  }

  // ---------------------------------------------------------------------------
  // summary
  // ---------------------------------------------------------------------------

  function TenantOrderKeys(orders: map<(string, int), Order>, tid: string): (r: set<(string, int)>)
    ensures r <= orders.Keys
  {
    set k | k in orders && orders[k].tenantId == tid
  }

  function TenantCustomerKeys(customers: map<int, Customer>, tid: string): set<int> {
    set k | k in customers && customers[k].tenantId == tid
  }

  /** The sum of the `totalPrice` of the orders under `keys`. */
  ghost function Revenue(orders: map<(string, int), Order>, keys: set<(string, int)>): real
    requires keys <= orders.Keys
    decreases |keys|
  {
    if keys == {} then 0.0
    else
      var k :| k in keys;
      orders[k].totalPrice + Revenue(orders, keys - {k})
  }

  /** Any order can be taken out of the sum first. */
  lemma {:induction false} RevenueWithout(orders: map<(string, int), Order>, keys: set<(string, int)>, k: (string, int))
    requires keys <= orders.Keys && k in keys
    ensures Revenue(orders, keys) == orders[k].totalPrice + Revenue(orders, keys - {k})
    decreases |keys|
  {
    var j :| j in keys && Revenue(orders, keys) == orders[j].totalPrice + Revenue(orders, keys - {j});
    if j != k {
      RevenueWithout(orders, keys - {j}, k);
      RevenueWithout(orders, keys - {k}, j);
      assert keys - {j} - {k} == keys - {k} - {j};
    }
  }

  /** The sum reads only the orders under `keys`. */
  lemma {:induction false} RevenueFrame(a: map<(string, int), Order>, b: map<(string, int), Order>,
                                        keys: set<(string, int)>)
    requires keys <= a.Keys && keys <= b.Keys
    requires forall k :: k in keys ==> a[k].totalPrice == b[k].totalPrice
    ensures Revenue(a, keys) == Revenue(b, keys)
    decreases |keys|
  {
    if keys != {} {
      var k :| k in keys && Revenue(a, keys) == a[k].totalPrice + Revenue(a, keys - {k});
      RevenueWithout(b, keys, k);
      RevenueFrame(a, b, keys - {k});
    }
  }

  datatype Totals = Totals(customers: nat, orders: nat, revenue: real)

  /** `summary(req, res, next)`: the tenant's customer count, order count and revenue, 0
      when it has no orders (`Number(_sum.totalPrice || 0)`). */
  ghost function Summary(ctx: Option<TenantContext>, customers: map<int, Customer>,
                         orders: map<(string, int), Order>): (r: Insight<Totals>)
    ensures NoTenant(ctx) <==> r.Refused?
    ensures r.Refused? ==> r == Refused(400, MissingTenant)
    ensures r.Served? ==>
              && r.body.customers == |TenantCustomerKeys(customers, ctx.value.id)|
              && r.body.orders == |TenantOrderKeys(orders, ctx.value.id)|
              && r.body.revenue == Revenue(orders, TenantOrderKeys(orders, ctx.value.id))
  {
    if NoTenant(ctx) then Refused(400, MissingTenant)
    else
      var tid := ctx.value.id;
      var keys := TenantOrderKeys(orders, tid);
      Served(Totals(|TenantCustomerKeys(customers, tid)|, |keys|, if keys == {} then 0.0 else Revenue(orders, keys)))
  }

  /** Storing a new order of the tenant adds one to the order count and its price to the
      revenue; the customer count stays. */
  lemma SummaryCountsNewOrder(ctx: Option<TenantContext>, customers: map<int, Customer>,
                              orders: map<(string, int), Order>, k: (string, int), o: Order)
    requires !NoTenant(ctx) && k !in orders && o.tenantId == ctx.value.id
    ensures var before := Summary(ctx, customers, orders).body;
            var after := Summary(ctx, customers, orders[k := o]).body;
            && after.customers == before.customers
            && after.orders == before.orders + 1
            && after.revenue == before.revenue + o.totalPrice
  {
    var tid := ctx.value.id;
    var old_ := TenantOrderKeys(orders, tid);
    var new_ := TenantOrderKeys(orders[k := o], tid);
    assert new_ == old_ + {k};
    assert new_ - {k} == old_;
    RevenueWithout(orders[k := o], new_, k);
    RevenueFrame(orders, orders[k := o], old_);
  }

  /** A tenant without orders has an order count and a revenue of 0. */
  lemma SummaryWithoutOrders(ctx: Option<TenantContext>, customers: map<int, Customer>,
                             orders: map<(string, int), Order>)
    requires !NoTenant(ctx)
    requires forall k :: k in orders ==> orders[k].tenantId != ctx.value.id
    ensures Summary(ctx, customers, orders) ==
              Served(Totals(|TenantCustomerKeys(customers, ctx.value.id)|, 0, 0.0))
  {
    assert TenantOrderKeys(orders, ctx.value.id) == {};
  }

  /** Storing a new customer of the tenant adds one to the customer count; the order count
      and the revenue stay. */
  lemma SummaryCountsNewCustomer(ctx: Option<TenantContext>, customers: map<int, Customer>,
                                 orders: map<(string, int), Order>, k: int, c: Customer)
    requires !NoTenant(ctx) && k !in customers && c.tenantId == ctx.value.id
    ensures var before := Summary(ctx, customers, orders).body;
            var after := Summary(ctx, customers[k := c], orders).body;
            && after.customers == before.customers + 1
            && after.orders == before.orders
            && after.revenue == before.revenue
  {
    var tid := ctx.value.id;
    assert TenantCustomerKeys(customers[k := c], tid) == TenantCustomerKeys(customers, tid) + {k};
  }

  /** Orders of other tenants do not count. */
  lemma SummaryIgnoresOtherTenants(ctx: Option<TenantContext>, customers: map<int, Customer>,
                                   orders: map<(string, int), Order>, k: (string, int), o: Order)
    requires !NoTenant(ctx) && k !in orders && o.tenantId != ctx.value.id
    ensures Summary(ctx, customers, orders[k := o]) == Summary(ctx, customers, orders)
  {
    var tid := ctx.value.id;
    assert TenantOrderKeys(orders[k := o], tid) == TenantOrderKeys(orders, tid);
    RevenueFrame(orders, orders[k := o], TenantOrderKeys(orders, tid));
  }

  // ---------------------------------------------------------------------------
  // orders by date
  // ---------------------------------------------------------------------------

  const DayMs := 86400000

  datatype ByDate = ByDate(from: Time, to: Time, data: seq<Row>)

  const InvalidDate := "Invalid Date"

  /** `from ? new Date(from) : subDays(new Date(), 30)` and `to ? new Date(to) : new Date()`;
      `parseDate` gives `None` for an invalid date, which the count query then refuses. */
  function DateRange(q: Query, now: Time, parseDate: string -> Option<Time>): (r: Result<(Time, Time)>)
    ensures !QTruthy(Lookup(q, "from")) && !QTruthy(Lookup(q, "to")) ==> r == Ok((now - 30 * DayMs, now))
    ensures r.Err? <==> (QTruthy(Lookup(q, "from")) && parseDate(Render(Lookup(q, "from").value)).None?) ||
                        (QTruthy(Lookup(q, "to")) && parseDate(Render(Lookup(q, "to").value)).None?)
    ensures r.Err? ==> r.msg == InvalidDate
    ensures r.Ok? && QTruthy(Lookup(q, "from")) ==> parseDate(Render(Lookup(q, "from").value)) == Some(r.value.0)
    ensures r.Ok? && !QTruthy(Lookup(q, "from")) ==> r.value.0 == now - 30 * DayMs
    ensures r.Ok? && QTruthy(Lookup(q, "to")) ==> parseDate(Render(Lookup(q, "to").value)) == Some(r.value.1)
    ensures r.Ok? && !QTruthy(Lookup(q, "to")) ==> r.value.1 == now
  {
    var start := if QTruthy(Lookup(q, "from")) then parseDate(Render(Lookup(q, "from").value)) else Some(now - 30 * DayMs);
    var end := if QTruthy(Lookup(q, "to")) then parseDate(Render(Lookup(q, "to").value)) else Some(now);
    if start.None? || end.None? then Err(InvalidDate) else Ok((start.value, end.value))
  }

  /** The tenant's orders processed between `start` and `end`, both included. */
  function OrdersInRange(orders: map<(string, int), Order>, tid: string, start: Time, end: Time): set<(string, int)> {
    set k | k in orders && orders[k].tenantId == tid && orders[k].processedAt.Some?
                        && start <= orders[k].processedAt.value <= end
  }

  /** `ordersByDate(req, res, next)`; `dayRows` answers the per-day aggregation. */
  function OrdersByDate(ctx: Option<TenantContext>, q: Query, now: Time, parseDate: string -> Option<Time>,
                        orders: map<(string, int), Order>, dayRows: Result<seq<Row>>): (r: Insight<ByDate>)
    ensures r.Refused? <==> NoTenant(ctx)
    ensures r.Refused? ==> r == Refused(400, MissingTenant)
    ensures r.Served? ==> DateRange(q, now, parseDate) == Ok((r.body.from, r.body.to))
    ensures r.Served? ==> r.body.data == [] || (dayRows.Ok? && r.body.data == SerializedRows(dayRows.value))
    ensures r.Thrown? ==> r.error == InvalidDate || (dayRows.Err? && r.error == dayRows.msg)
    ensures !NoTenant(ctx) && DateRange(q, now, parseDate).Err? ==> r == Thrown(InvalidDate)
    ensures !NoTenant(ctx) && DateRange(q, now, parseDate).Ok? ==>
              var (start, end) := DateRange(q, now, parseDate).value;
              && (OrdersInRange(orders, ctx.value.id, start, end) == {} ==> r == Served(ByDate(start, end, [])))
              && (OrdersInRange(orders, ctx.value.id, start, end) != {} && dayRows.Ok? ==>
                    r == Served(ByDate(start, end, SerializedRows(dayRows.value))))
              && (OrdersInRange(orders, ctx.value.id, start, end) != {} && dayRows.Err? ==>
                    r == Thrown(dayRows.msg))
  {
    if NoTenant(ctx) then Refused(400, MissingTenant)
    else
      match DateRange(q, now, parseDate)
      case Err(m) => Thrown(m)
      case Ok(range) =>
        if |OrdersInRange(orders, ctx.value.id, range.0, range.1)| == 0 then Served(ByDate(range.0, range.1, []))
        else
          match dayRows
          case Err(m) => Thrown(m)
          case Ok(rows) => Served(ByDate(range.0, range.1, SerializedRows(rows)))
  }

  /** Without `from` and `to` the range is the last 30 days; when no order falls in the
      range the data is empty and the aggregation is not consulted. */
  lemma OrdersByDateDefaults(ctx: Option<TenantContext>, q: Query, now: Time, parseDate: string -> Option<Time>,
                             orders: map<(string, int), Order>, rows1: Result<seq<Row>>, rows2: Result<seq<Row>>)
    requires !NoTenant(ctx)
    ensures !QTruthy(Lookup(q, "from")) && !QTruthy(Lookup(q, "to")) ==>
              var r := OrdersByDate(ctx, q, now, parseDate, orders, rows1);
              r.Served? || r.Thrown?
    ensures !QTruthy(Lookup(q, "from")) && !QTruthy(Lookup(q, "to")) &&
            OrdersByDate(ctx, q, now, parseDate, orders, rows1).Served? ==>
              var b := OrdersByDate(ctx, q, now, parseDate, orders, rows1).body;
              b.from == now - 30 * DayMs && b.to == now
    ensures DateRange(q, now, parseDate).Ok? &&
            OrdersInRange(orders, ctx.value.id, DateRange(q, now, parseDate).value.0,
                          DateRange(q, now, parseDate).value.1) == {} ==>
              OrdersByDate(ctx, q, now, parseDate, orders, rows1) == OrdersByDate(ctx, q, now, parseDate, orders, rows2)
              && OrdersByDate(ctx, q, now, parseDate, orders, rows1).body.data == []
  {
  }

  // ---------------------------------------------------------------------------
  // top customers and top products
  // ---------------------------------------------------------------------------

  /** `topCustomers(req, res, next)`: with no orders the tenant's customers are listed with
      nothing spent (`zeroSpent`), otherwise ranked by what they spent (`ranked`). */
  function TopCustomers(ctx: Option<TenantContext>, q: Query, number: string -> Num,
                        orders: map<(string, int), Order>, zeroSpent: Result<seq<Row>>,
                        ranked: Result<seq<Row>>): (r: Insight<seq<Row>>)
    ensures NoTenant(ctx) ==> r == Refused(400, MissingTenant)
    ensures !NoTenant(ctx) ==> (r.Refused? <==> LimitParam(q, 5, number).Err?)
    ensures r.Refused? ==> r.status == 400 && r.error in {MissingTenant, InvalidLimit}
    ensures r.Served? ==> (zeroSpent.Ok? && r.body == SerializedRows(zeroSpent.value)) ||
                          (ranked.Ok? && r.body == SerializedRows(ranked.value))
    ensures r.Thrown? ==> (zeroSpent.Err? && r.error == zeroSpent.msg) || (ranked.Err? && r.error == ranked.msg)
    ensures !NoTenant(ctx) && LimitParam(q, 5, number).Ok? ==>
              var rows := if TenantOrderKeys(orders, ctx.value.id) == {} then zeroSpent else ranked;
              && (rows.Ok? ==> r == Served(SerializedRows(rows.value)))
              && (rows.Err? ==> r == Thrown(rows.msg))
  {
    if NoTenant(ctx) then Refused(400, MissingTenant)
    else
      match LimitParam(q, 5, number)
      case Err(m) => Refused(400, m)
      case Ok(_) =>
        var rows := if |TenantOrderKeys(orders, ctx.value.id)| == 0 then zeroSpent else ranked;
        match rows
        case Err(m) => Thrown(m)
        case Ok(rs) => Served(SerializedRows(rs))
  }

  /** The line items of the tenant's orders. */
  function TenantLineItemCount(orders: map<(string, int), Order>, lineItems: seq<LineItem>, tid: string): nat {
    var indices := set i | 0 <= i < |lineItems| && exists k :: k in orders && orders[k].tenantId == tid
                                                           && orders[k].id == lineItems[i].orderId;
    |indices|
  }

  /** `topProducts(req, res, next)`: empty without line items, otherwise the ranking. */
  function TopProducts(ctx: Option<TenantContext>, q: Query, number: string -> Num,
                       orders: map<(string, int), Order>, lineItems: seq<LineItem>,
                       ranked: Result<seq<Row>>): (r: Insight<seq<Row>>)
    ensures NoTenant(ctx) ==> r == Refused(400, MissingTenant)
    ensures !NoTenant(ctx) ==> (r.Refused? <==> LimitParam(q, 10, number).Err?)
    ensures r.Refused? ==> r.status == 400 && r.error in {MissingTenant, InvalidLimit}
    ensures r.Served? ==> r.body == [] || (ranked.Ok? && r.body == SerializedRows(ranked.value))
    ensures r.Thrown? ==> ranked.Err? && r.error == ranked.msg
    ensures !NoTenant(ctx) && LimitParam(q, 10, number).Ok? ==>
              && (TenantLineItemCount(orders, lineItems, ctx.value.id) == 0 ==> r == Served([]))
              && (TenantLineItemCount(orders, lineItems, ctx.value.id) > 0 && ranked.Ok? ==>
                    r == Served(SerializedRows(ranked.value)))
              && (TenantLineItemCount(orders, lineItems, ctx.value.id) > 0 && ranked.Err? ==>
                    r == Thrown(ranked.msg))
  {
    if NoTenant(ctx) then Refused(400, MissingTenant)
    else
      match LimitParam(q, 10, number)
      case Err(m) => Refused(400, m)
      case Ok(_) =>
        if TenantLineItemCount(orders, lineItems, ctx.value.id) == 0 then Served([])
        else
          match ranked
          case Err(m) => Thrown(m)
          case Ok(rs) => Served(SerializedRows(rs))
  }

  /** The default limits: 5 customers and 10 products; an invalid limit is refused before
      the tables are read. */
  lemma TopDefaults(ctx: Option<TenantContext>, q: Query, number: string -> Num, orders: map<(string, int), Order>,
                    lineItems: seq<LineItem>, z: Result<seq<Row>>, ranked: Result<seq<Row>>)
    requires !NoTenant(ctx)
    ensures !QTruthy(Lookup(q, "limit")) ==>
              !TopCustomers(ctx, q, number, orders, z, ranked).Refused? &&
              !TopProducts(ctx, q, number, orders, lineItems, ranked).Refused?
    ensures QTruthy(Lookup(q, "limit")) && !Positive(number(Render(Lookup(q, "limit").value))) ==>
              && TopCustomers(ctx, q, number, orders, z, ranked) == Refused(400, InvalidLimit)
              && TopProducts(ctx, q, number, orders, lineItems, ranked) == Refused(400, InvalidLimit)
    ensures QTruthy(Lookup(q, "limit")) && Positive(number(Render(Lookup(q, "limit").value))) &&
            |TenantOrderKeys(orders, ctx.value.id)| == 0 && z.Ok? ==>
              TopCustomers(ctx, q, number, orders, z, ranked) == Served(SerializedRows(z.value))
  {
  }

  // ---------------------------------------------------------------------------
  // recent orders
  // ---------------------------------------------------------------------------

  datatype OrderRow = OrderRow(orderId: string, name: Option<string>, totalPrice: real,
                               financialStatus: Option<string>, createdAt: Option<Time>)

  datatype Pagination = Pagination(limit: Num, offset: Num, total: nat, hasMore: bool)

  datatype RecentPage = RecentPage(data: seq<OrderRow>, pagination: Pagination)

  function OrderRowOf(o: Order): OrderRow {
    OrderRow(IntToDecimal(o.shopId), o.name, o.totalPrice, o.financialStatus, o.processedAt)
  }

  function Rows(os: seq<Order>): (r: seq<OrderRow>)
    ensures |r| == |os| && forall i :: 0 <= i < |os| ==> r[i] == OrderRowOf(os[i])
  {
    seq(|os|, i requires 0 <= i < |os| => OrderRowOf(os[i]))
  }

  /** `orderBy: { processedAt: 'desc' }` as PostgreSQL sorts: orders without a date first,
      then the newest first. */
  predicate NewerFirst(a: Order, b: Order) {
    a.processedAt.None? || (b.processedAt.Some? && b.processedAt.value <= a.processedAt.value)
  }

  /** `listing` is the tenant's orders as the database sorts them, each once. */
  ghost predicate ListsTenantOrders(listing: seq<Order>, orders: map<(string, int), Order>, tid: string) {
    && SortedBy(listing, NewerFirst)
    && |listing| == |TenantOrderKeys(orders, tid)|
    && forall i :: 0 <= i < |listing| ==> listing[i] in orders.Values && listing[i].tenantId == tid
  }

  function Min(a: nat, b: nat): nat { if a <= b then a else b }

  /** `hasMore: offset + limit < totalCount` */
  predicate HasMore(offset: Num, limit: Num, total: nat) {
    Less(Add(offset, limit), total as real)
  }

  const InvalidTake := "Argument `take`: Invalid value provided. Expected Int."
  const InvalidSkip := "Argument `skip`: Invalid value provided. Expected Int."

  /** `recentOrders(req, res, next)`; `listing` is the tenant's orders in the order the
      database sorts them, from which `skip`/`take` cut the page. */
  function RecentOrders(ctx: Option<TenantContext>, q: Query, number: string -> Num,
                        orders: map<(string, int), Order>, listing: seq<Order>): (r: Insight<RecentPage>)
    ensures NoTenant(ctx) ==> r == Refused(400, MissingTenant)
    ensures !NoTenant(ctx) ==>
              (r.Refused? <==> LimitParam(q, 20, number).Err? || OffsetParam(q, number).Err?)
    ensures r.Refused? ==> r.status == 400 && r.error in {MissingTenant, InvalidLimit, InvalidOffset}
    ensures r.Thrown? ==> r.error in {InvalidTake, InvalidSkip}
    ensures r.Served? ==> r.body.pagination.total == |TenantOrderKeys(orders, ctx.value.id)|
  {
    if NoTenant(ctx) then Refused(400, MissingTenant)
    else
      match LimitParam(q, 20, number)
      case Err(m) => Refused(400, m)
      case Ok(limit) =>
        match OffsetParam(q, number)
        case Err(m) => Refused(400, m)
        case Ok(offset) =>
          ListingPage(limit, offset, |TenantOrderKeys(orders, ctx.value.id)|, listing)
  }

  /** The page for validated `limit` and `offset` when the tenant has `total` orders:
      Prisma refuses a `take` or `skip` that is not a whole number. */
  function ListingPage(limit: Num, offset: Num, total: nat, listing: seq<Order>): (r: Insight<RecentPage>)
    ensures !r.Refused?
    ensures r.Thrown? <==> total > 0 && (IntValue(limit).None? || IntValue(offset).None?)
    ensures r.Served? ==> r.body.pagination == Pagination(limit, offset, total, HasMore(offset, limit, total))
    ensures r.Served? && total == 0 ==> r.body.data == []
    ensures r.Served? && total > 0 ==>
              && |r.body.data| <= IntValue(limit).value
              && forall i :: 0 <= i < |r.body.data| ==>
                   IntValue(offset).value + i < |listing| &&
                   r.body.data[i] == OrderRowOf(listing[IntValue(offset).value + i])
  {
    var pagination := Pagination(limit, offset, total, HasMore(offset, limit, total));
    if total == 0 then Served(RecentPage([], pagination))
    else if IntValue(limit).None? then Thrown(InvalidTake)
    else if IntValue(offset).None? then Thrown(InvalidSkip)
    else Served(RecentPage(Window(listing, IntValue(offset).value, IntValue(limit).value), pagination))
  }

  /** `skip: offset, take: limit` on the listing: at most `take` rows, the `i`-th being the
      order `skip + i` of the listing. */
  function Window(listing: seq<Order>, skip: nat, take: nat): (w: seq<OrderRow>)
    ensures |w| <= take
    ensures forall i :: 0 <= i < |w| ==> skip + i < |listing| && w[i] == OrderRowOf(listing[skip + i])
  {
    var s := Min(skip, |listing|);
    var e := Min(skip + take, |listing|);
    var w := listing[s..e];
    assert forall i :: 0 <= i < |w| ==> w[i] == listing[skip + i];
    Rows(w)
  }

  /** A slice of the listing holds orders of the tenant, newest first. */
  lemma WindowOfListing(listing: seq<Order>, orders: map<(string, int), Order>, tid: string, s: nat, e: nat)
    requires ListsTenantOrders(listing, orders, tid) && s <= e <= |listing|
    ensures var data := Rows(listing[s..e]);
            && (forall i, j :: 0 <= i < j < |data| ==>
                  data[i].createdAt.None? ||
                  (data[j].createdAt.Some? && data[j].createdAt.value <= data[i].createdAt.value))
            && (forall i :: 0 <= i < |data| ==>
                  exists o :: o in orders.Values && o.tenantId == tid && data[i] == OrderRowOf(o))
  {
    var w := listing[s..e];
    forall i, j | 0 <= i < j < |w| ensures NewerFirst(w[i], w[j]) {
      assert w[i] == listing[s + i] && w[j] == listing[s + j];
    }
    forall i | 0 <= i < |w| ensures w[i] in orders.Values && w[i].tenantId == tid {
      assert w[i] == listing[s + i];
    }
  }

  /** The page is the window `[offset, offset + limit)` of the sorted listing, so it holds
      at most `limit` orders of the tenant, newest first; it is empty when the tenant has
      no orders; and `hasMore` says exactly whether orders follow the window. */
  lemma RecentOrdersWindow(ctx: Option<TenantContext>, q: Query, number: string -> Num,
                           orders: map<(string, int), Order>, listing: seq<Order>)
    requires !NoTenant(ctx) && ListsTenantOrders(listing, orders, ctx.value.id)
    requires RecentOrders(ctx, q, number, orders, listing).Served?
    ensures var p := RecentOrders(ctx, q, number, orders, listing).body;
            && p.pagination.total == |listing|
            && (|listing| == 0 ==> p.data == [] && !p.pagination.hasMore)
            && (|listing| > 0 ==>
                  && IntValue(p.pagination.limit).Some? && IntValue(p.pagination.offset).Some?
                  && var take := IntValue(p.pagination.limit).value;
                     var skip := IntValue(p.pagination.offset).value;
                     && |p.data| <= take
                     && (skip >= |listing| ==> p.data == [])
                     && (skip < |listing| ==> p.data == Rows(listing[skip..Min(skip + take, |listing|)]))
                     && (p.pagination.hasMore <==> skip + take < |listing|))
            && (forall i, j :: 0 <= i < j < |p.data| ==>
                  p.data[i].createdAt.None? ||
                  (p.data[j].createdAt.Some? && p.data[j].createdAt.value <= p.data[i].createdAt.value))
            && (forall i :: 0 <= i < |p.data| ==>
                  exists o :: o in orders.Values && o.tenantId == ctx.value.id && p.data[i] == OrderRowOf(o))
  {
    var limit := LimitParam(q, 20, number).value;
    var offset := OffsetParam(q, number).value;
    assert RecentOrders(ctx, q, number, orders, listing) == ListingPage(limit, offset, |listing|, listing);
    ListingPageWindow(listing, orders, ctx.value.id, limit, offset);
  }

  /** `RecentOrdersWindow` for validated `limit` and `offset`. */
  lemma ListingPageWindow(listing: seq<Order>, orders: map<(string, int), Order>, tid: string, limit: Num, offset: Num)
    requires ListsTenantOrders(listing, orders, tid)
    requires Positive(limit) && NonNegative(offset)
    requires ListingPage(limit, offset, |listing|, listing).Served?
    ensures var p := ListingPage(limit, offset, |listing|, listing).body;
            && p.pagination.total == |listing|
            && (|listing| == 0 ==> p.data == [] && !p.pagination.hasMore)
            && (|listing| > 0 ==>
                  && IntValue(p.pagination.limit).Some? && IntValue(p.pagination.offset).Some?
                  && var take := IntValue(p.pagination.limit).value;
                     var skip := IntValue(p.pagination.offset).value;
                     && |p.data| <= take
                     && (skip >= |listing| ==> p.data == [])
                     && (skip < |listing| ==> p.data == Rows(listing[skip..Min(skip + take, |listing|)]))
                     && (p.pagination.hasMore <==> skip + take < |listing|))
            && (forall i, j :: 0 <= i < j < |p.data| ==>
                  p.data[i].createdAt.None? ||
                  (p.data[j].createdAt.Some? && p.data[j].createdAt.value <= p.data[i].createdAt.value))
            && (forall i :: 0 <= i < |p.data| ==>
                  exists o :: o in orders.Values && o.tenantId == tid && p.data[i] == OrderRowOf(o))
  {
    var n := |listing|;
    var pagination := Pagination(limit, offset, n, HasMore(offset, limit, n));
    if n > 0 {
      var s := Min(IntValue(offset).value, n);
      var e := Min(IntValue(offset).value + IntValue(limit).value, n);
      assert ListingPage(limit, offset, n, listing) == Served(RecentPage(Rows(listing[s..e]), pagination));
      WindowPage(listing, orders, tid, limit, offset);
    }
  }

  /** The served page of a non-empty listing for whole-number `limit` and `offset`. */
  lemma WindowPage(listing: seq<Order>, orders: map<(string, int), Order>, tid: string, limit: Num, offset: Num)
    requires ListsTenantOrders(listing, orders, tid) && |listing| > 0
    requires IntValue(limit).Some? && IntValue(offset).Some?
    ensures var take := IntValue(limit).value;
            var skip := IntValue(offset).value;
            var data := Rows(listing[Min(skip, |listing|)..Min(skip + take, |listing|)]);
            && |data| <= take
            && (skip >= |listing| ==> data == [])
            && (skip < |listing| ==> data == Rows(listing[skip..Min(skip + take, |listing|)]))
            && (HasMore(offset, limit, |listing|) <==> skip + take < |listing|)
            && (forall i, j :: 0 <= i < j < |data| ==>
                  data[i].createdAt.None? ||
                  (data[j].createdAt.Some? && data[j].createdAt.value <= data[i].createdAt.value))
            && (forall i :: 0 <= i < |data| ==>
                  exists o :: o in orders.Values && o.tenantId == tid && data[i] == OrderRowOf(o))
  {
    var take := IntValue(limit).value;
    var skip := IntValue(offset).value;
    assert Add(offset, limit) == Finite((skip + take) as real);
    WindowOfListing(listing, orders, tid, Min(skip, |listing|), Min(skip + take, |listing|));
  }
}
