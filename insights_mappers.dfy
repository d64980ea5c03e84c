/** `frontend/src/lib/insights.mappers.ts`: turns whatever the insights API answered into
    the shapes the dashboard draws. `Number(text)` and `JSON.parse` are parameters;
    numbers are the reals they denote. */
module InsightsMappers {
  import opened Base
  import opened Strings
  import opened JsonValue

  /** `Number(text)` */
  type NumberOf = string -> Num
  /** `JSON.parse(text)`: `None` when it throws. */
  type Parser = string -> Option<Json>

  /** `toNum(v, d)`: a finite number read from a number or a numeric string, else `d`. */
  function ToNum(v: Json, d: real, number: NumberOf): (r: real)
    ensures IsNullish(v) ==> r == d
    ensures !v.JStr? && !v.JNum? ==> r == d
    ensures v.JNum? ==> r == (if v.n.Finite? then v.n.r else d)
    ensures v.JStr? ==> r == (if number(v.s).Finite? then number(v.s).r else d)
  {
    if IsNullish(v) then d
    else
      var n := if v.JStr? then number(v.s) else if v.JNum? then v.n else NaN;
      if n.Finite? then n.r else d
  }

  /** `JSON.parse` turns a string into a strictly shorter one, as a JSON string literal is
      longer than its contents. */
  ghost predicate ParseShrinks(parse: Parser) {
    forall s :: parse(s).Some? && parse(s).value.JStr? ==> |parse(s).value.s| < |s|
  }

  /** The first array among `.data`, `.items`, `.results`, `.orders`. */
  function Wrapped(input: Json): (r: Option<seq<Json>>)
    ensures r.Some? ==> exists k :: k in ["data", "items", "results", "orders"] && Get(input, k) == JArr(r.value)
    ensures r.None? ==> forall k :: k in ["data", "items", "results", "orders"] ==> !Get(input, k).JArr?
  {
    if Get(input, "data").JArr? then Some(Get(input, "data").items)
    else if Get(input, "items").JArr? then Some(Get(input, "items").items)
    else if Get(input, "results").JArr? then Some(Get(input, "results").items)
    else if Get(input, "orders").JArr? then Some(Get(input, "orders").items)
    else None
  }

  /** `normalizeArray(input)` */
  function NormalizeArray(input: Json, parse: Parser): (r: seq<Json>)
    requires ParseShrinks(parse)
    ensures input.JArr? ==> r == input.items
    ensures input.JObj? && Wrapped(input).Some? ==> r == Wrapped(input).value
    ensures input.JObj? && Wrapped(input).None? ==> r == []
    ensures input.JStr? && parse(input.s).None? ==> r == []
    ensures !input.JArr? && !input.JObj? && !input.JStr? ==> r == []
    decreases if input.JStr? then |input.s| + 1 else 0
  {
    if input.JArr? then input.items
    else if Wrapped(input).Some? then Wrapped(input).value
    else if input.JStr? then
      match parse(input.s)
      case Some(j) => NormalizeArray(j, parse)
      case None => []
    else []
  }

  /** What `normalizeArray` accepts, and that it gives [] for everything else. */
  lemma NormalizeArrayShapes(xs: seq<Json>, parse: Parser, s: string, other: Json)
    requires ParseShrinks(parse)
    ensures NormalizeArray(JArr(xs), parse) == xs
    ensures NormalizeArray(JObj([("data", JArr(xs))]), parse) == xs
    ensures NormalizeArray(JObj([("orders", JArr(xs))]), parse) == xs
    ensures parse(s) == Some(JArr(xs)) ==> NormalizeArray(JStr(s), parse) == xs
    ensures parse(s).None? ==> NormalizeArray(JStr(s), parse) == []
    ensures other.JNull? || other.JUndefined? || other.JNum? || other.JBool? ==> NormalizeArray(other, parse) == []
  {
    var o := [("orders", JArr(xs))];
    assert Field(o, "data") == JUndefined && Field(o, "items") == JUndefined && Field(o, "results") == JUndefined
      by { assert "orders"[0] != "data"[0] && "orders"[0] != "items"[0] && "orders"[0] != "results"[0]; }
  }

  /** A JSON text of a wrapped array, even a doubly encoded one, normalises to the array. */
  lemma NormalizeEncoded(xs: seq<Json>, parse: Parser, outer: string, inner: string)
    requires ParseShrinks(parse)
    requires parse(outer) == Some(JStr(inner)) && parse(inner) == Some(JObj([("data", JArr(xs))]))
    ensures NormalizeArray(JStr(outer), parse) == xs
  {
    assert NormalizeArray(JStr(inner), parse) == xs;
  }

  // ---------------------------------------------------------------------------
  // mapSummaryToKpis
  // ---------------------------------------------------------------------------

  datatype Totals = Totals(customers: real, orders: real, products: real, lineItems: real, liveVariants: real)
  datatype Financials = Financials(grossRevenue: real, netRevenue: real, refunds: real, discounts: real,
                                   taxCollected: real, shippingCollected: real)
  /** `aov` is passed through untouched when the summary carries one, so it stays a JSON
      value. */
  datatype Rates = Rates(aov: Json, conversionRatePct: real, repeatPurchaseRatePct: real)
  datatype Last24h = Last24h(revenue: real, orders: real, newCustomers: real)
  datatype Kpis = Kpis(totals: Totals, financials: Financials, rates: Rates, last24h: Last24h)

  /** `s?.a?.b` through `toNum` with default 0. */
  function At(s: Json, a: string, b: string, number: NumberOf): real {
    ToNum(Get(Get(s, a), b), 0.0, number)
  }

  /** `Math.round(x)`: the nearest integer, halves rounded up. */
  function Round(x: real): (r: int)
    ensures x - 0.5 < r as real <= x + 0.5
  {
    (x + 0.5).Floor
  }

  /** `s?.rates?.aov ?? (totalOrders ? Math.round(gross / totalOrders) : 0)` */
  function Aov(s: Json, number: NumberOf): (a: Json)
    ensures !IsNullish(Get(Get(s, "rates"), "aov")) ==> a == Get(Get(s, "rates"), "aov")
    ensures IsNullish(Get(Get(s, "rates"), "aov")) && At(s, "totals", "orders", number) == 0.0 ==> a == JNum(Finite(0.0))
  {
    var gross := At(s, "financials", "grossRevenue", number);
    var orders := At(s, "totals", "orders", number);
    Coalesce(Get(Get(s, "rates"), "aov"),
             JNum(Finite(if orders != 0.0 then Round(gross / orders) as real else 0.0)))
  }

  /** `mapSummaryToKpis(s)`: each numeric KPI field is read from its own section and field
      of the summary, and `aov` is the reported or derived one. */
  function MapSummaryToKpis(s: Json, number: NumberOf): (k: Kpis)
    ensures forall i :: 0 <= i < KpiCount ==> KpiField(k, i) == At(s, KpiPath(i).0, KpiPath(i).1, number)
    ensures k.rates.aov == Aov(s, number)
  {
    var k := Kpis(TotalsOf(s, number), FinancialsOf(s, number), RatesOf(s, number), Last24hOf(s, number));
    assert forall i :: 0 <= i < KpiCount ==> KpiField(k, i) == At(s, KpiPath(i).0, KpiPath(i).1, number) by {
      forall i | 0 <= i < KpiCount
        ensures KpiField(k, i) == At(s, KpiPath(i).0, KpiPath(i).1, number)
      {
        KpiFieldOfSections(s, number, i);
      }
    }
    k
  }

  function TotalsOf(s: Json, number: NumberOf): Totals {
    Totals(At(s, "totals", "customers", number), At(s, "totals", "orders", number),
           At(s, "totals", "products", number), At(s, "totals", "lineItems", number),
           At(s, "totals", "liveVariants", number))
  }

  function FinancialsOf(s: Json, number: NumberOf): Financials {
    Financials(At(s, "financials", "grossRevenue", number), At(s, "financials", "netRevenue", number),
               At(s, "financials", "refunds", number), At(s, "financials", "discounts", number),
               At(s, "financials", "taxCollected", number), At(s, "financials", "shippingCollected", number))
  }

  function RatesOf(s: Json, number: NumberOf): Rates {
    Rates(Aov(s, number), At(s, "rates", "conversionRatePct", number), At(s, "rates", "repeatPurchaseRatePct", number))
  }

  function Last24hOf(s: Json, number: NumberOf): Last24h {
    Last24h(At(s, "last24h", "revenue", number), At(s, "last24h", "orders", number),
            At(s, "last24h", "newCustomers", number))
  }

  /** The number of numeric KPI fields (all but `aov`). */
  const KpiCount := 16

  /** The `(section, field)` of the summary that numeric KPI field `i` reads. */
  function KpiPath(i: nat): (string, string)
    requires i < KpiCount
  {
    match i
    case 0 => ("totals", "customers")
    case 1 => ("totals", "orders")
    case 2 => ("totals", "products")
    case 3 => ("totals", "lineItems")
    case 4 => ("totals", "liveVariants")
    case 5 => ("financials", "grossRevenue")
    case 6 => ("financials", "netRevenue")
    case 7 => ("financials", "refunds")
    case 8 => ("financials", "discounts")
    case 9 => ("financials", "taxCollected")
    case 10 => ("financials", "shippingCollected")
    case 11 => ("rates", "conversionRatePct")
    case 12 => ("rates", "repeatPurchaseRatePct")
    case 13 => ("last24h", "revenue")
    case 14 => ("last24h", "orders")
    case _ => ("last24h", "newCustomers")
  }

  /** The KPI field that `KpiPath(i)` of the summary feeds. */
  function KpiField(k: Kpis, i: nat): real
    requires i < KpiCount
  {
    match i
    case 0 => k.totals.customers
    case 1 => k.totals.orders
    case 2 => k.totals.products
    case 3 => k.totals.lineItems
    case 4 => k.totals.liveVariants
    case 5 => k.financials.grossRevenue
    case 6 => k.financials.netRevenue
    case 7 => k.financials.refunds
    case 8 => k.financials.discounts
    case 9 => k.financials.taxCollected
    case 10 => k.financials.shippingCollected
    case 11 => k.rates.conversionRatePct
    case 12 => k.rates.repeatPurchaseRatePct
    case 13 => k.last24h.revenue
    case 14 => k.last24h.orders
    case _ => k.last24h.newCustomers
  }

  /** Each numeric KPI field of the record built from the four sections is read from its
      own path of the summary. */
  lemma KpiFieldOfSections(s: Json, number: NumberOf, i: nat)
    requires i < KpiCount
    ensures KpiField(Kpis(TotalsOf(s, number), FinancialsOf(s, number), RatesOf(s, number), Last24hOf(s, number)), i) == At(s, KpiPath(i).0, KpiPath(i).1, number)
  {
    var k := Kpis(TotalsOf(s, number), FinancialsOf(s, number), RatesOf(s, number), Last24hOf(s, number));
    match i
    case 0 => assert KpiField(k, i) == TotalsOf(s, number).customers;
    case 1 => assert KpiField(k, i) == TotalsOf(s, number).orders;
    case 2 => assert KpiField(k, i) == TotalsOf(s, number).products;
    case 3 => assert KpiField(k, i) == TotalsOf(s, number).lineItems;
    case 4 => assert KpiField(k, i) == TotalsOf(s, number).liveVariants;
    case 5 => assert KpiField(k, i) == FinancialsOf(s, number).grossRevenue;
    case 6 => assert KpiField(k, i) == FinancialsOf(s, number).netRevenue;
    case 7 => assert KpiField(k, i) == FinancialsOf(s, number).refunds;
    case 8 => assert KpiField(k, i) == FinancialsOf(s, number).discounts;
    case 9 => assert KpiField(k, i) == FinancialsOf(s, number).taxCollected;
    case 10 => assert KpiField(k, i) == FinancialsOf(s, number).shippingCollected;
    case 11 => assert KpiField(k, i) == RatesOf(s, number).conversionRatePct;
    case 12 => assert KpiField(k, i) == RatesOf(s, number).repeatPurchaseRatePct;
    case 13 => assert KpiField(k, i) == Last24hOf(s, number).revenue;
    case 14 => assert KpiField(k, i) == Last24hOf(s, number).orders;
    case _ => assert KpiField(k, i) == Last24hOf(s, number).newCustomers;
  }

  /** Every numeric KPI field goes through `toNum` on its own: an absent or nullish value,
      or one that is neither a number nor a string, gives 0, whatever the other fields
      hold; a finite number is kept; a string is read with `Number`. */
  lemma KpiFieldsThroughToNum(s: Json, number: NumberOf, i: nat)
    requires i < KpiCount
    ensures var v := Get(Get(s, KpiPath(i).0), KpiPath(i).1);
            var f := KpiField(MapSummaryToKpis(s, number), i);
            && (IsNullish(v) || (!v.JStr? && !v.JNum?) ==> f == 0.0)
            && (v.JNum? ==> f == (if v.n.Finite? then v.n.r else 0.0))
            && (v.JStr? ==> f == (if number(v.s).Finite? then number(v.s).r else 0.0))
  {
  }

  /** A missing or empty summary maps to all zeros. */
  lemma EmptySummaryIsZero(s: Json, number: NumberOf)
    requires s.JUndefined? || s.JNull? || s == JObj([])
    ensures MapSummaryToKpis(s, number) ==
              Kpis(Totals(0.0, 0.0, 0.0, 0.0, 0.0), Financials(0.0, 0.0, 0.0, 0.0, 0.0, 0.0),
                   Rates(JNum(Finite(0.0)), 0.0, 0.0), Last24h(0.0, 0.0, 0.0))
  {
  }

  /** Without a reported `aov`, it is the gross revenue per order rounded to the nearest
      whole unit. */
  lemma AovFromTotals(s: Json, number: NumberOf)
    requires IsNullish(Get(Get(s, "rates"), "aov"))
    requires At(s, "totals", "orders", number) != 0.0
    ensures var a := MapSummaryToKpis(s, number).rates.aov;
            var k := MapSummaryToKpis(s, number);
            && a.JNum? && a.n.Finite?
            && k.financials.grossRevenue / k.totals.orders - 0.5 < a.n.r <= k.financials.grossRevenue / k.totals.orders + 0.5
  {
  }

  // ---------------------------------------------------------------------------
  // mapOrdersToTimeSeries
  // ---------------------------------------------------------------------------

  /** One point of the orders chart; the display renderings of the date and the rounded
      crore and thousand figures are not modelled. */
  datatype Point = Point(date: Json, revenue: real, orders: real)

  /** `d?.date ?? d?.day ?? ""` */
  function DateOf(d: Json): (r: Json)
    ensures !IsNullish(Get(d, "date")) ==> r == Get(d, "date")
    ensures IsNullish(Get(d, "date")) && !IsNullish(Get(d, "day")) ==> r == Get(d, "day")
    ensures IsNullish(Get(d, "date")) && IsNullish(Get(d, "day")) ==> r == JStr("")
  {
    Coalesce(Get(d, "date"), Coalesce(Get(d, "day"), JStr("")))
  }

  function PointOf(d: Json, number: NumberOf): Point {
    Point(DateOf(d), ToNum(Get(d, "revenue"), 0.0, number), ToNum(Get(d, "orders"), 0.0, number))
  }

  /** `mapOrdersToTimeSeries(resp)`: one point per element, in order. */
  function MapOrdersToTimeSeries(resp: Json, parse: Parser, number: NumberOf): (r: seq<Point>)
    requires ParseShrinks(parse)
    ensures |r| == |NormalizeArray(resp, parse)|
    ensures forall i :: 0 <= i < |r| ==> r[i] == PointOf(NormalizeArray(resp, parse)[i], number)
  {
    var raw := NormalizeArray(resp, parse);
    seq(|raw|, i requires 0 <= i < |raw| => PointOf(raw[i], number))
  }

  /** The series keeps the API's order and dates: a day bucket with a `day` but no `date`
      is plotted under its day, with its numbers read through `toNum`. */
  lemma SeriesFollowsBuckets(xs: seq<Json>, parse: Parser, number: NumberOf, i: nat)
    requires ParseShrinks(parse)
    requires i < |xs|
    ensures var r := MapOrdersToTimeSeries(JObj([("data", JArr(xs))]), parse, number);
            && |r| == |xs|
            && r[i].date == DateOf(xs[i])
            && r[i].revenue == ToNum(Get(xs[i], "revenue"), 0.0, number)
  {
    NormalizeArrayShapes(xs, parse, "", JNull);
  }

  // ---------------------------------------------------------------------------
  // productsToPseudoCategories
  // ---------------------------------------------------------------------------

  datatype Category = Category(name: string, value: real, percentage: string)

  function Min(a: int, b: int): int { if a < b then a else b }

  /** `title.split(" ").slice(0, 2).join(" ") || "Product"` */
  function NameOf(title: string): (name: string)
    ensures name != ""
  {
    var parts := Split(title, ' ');
    var n := Join(parts[..Min(2, |parts|)], " ");
    if n == "" then "Product" else n
  }

  const SplitNotAFunction := "title.split is not a function"

  /** One category; a truthy title that is not a string has no `split` and throws. */
  function CategoryOf(p: Json, number: NumberOf): (r: Result<Category>)
    ensures r.Ok? ==> r.value.percentage == "0" && r.value.name != ""
    ensures r.Err? <==> Truthy(Get(p, "title")) && !Get(p, "title").JStr?
  {
    var title := Get(p, "title");
    if Truthy(title) && !title.JStr? then Err(SplitNotAFunction)
    else
      var t := if title.JStr? then title.s else "";
      Ok(Category(NameOf(t), ToNum(Get(p, "revenue"), 0.0, number), "0"))
  }

  function CategoriesOf(ps: seq<Json>, number: NumberOf): (r: Result<seq<Category>>)
    ensures r.Ok? ==> |r.value| == |ps|
    ensures r.Ok? ==> forall i :: 0 <= i < |ps| ==> CategoryOf(ps[i], number) == Ok(r.value[i])
    ensures r.Err? ==> exists i :: 0 <= i < |ps| && CategoryOf(ps[i], number).Err?
    decreases |ps|
  {
    if ps == [] then Ok([])
    else
      match CategoryOf(ps[0], number)
      case Err(m) => Err(m)
      case Ok(c) =>
        match CategoriesOf(ps[1..], number)
        case Err(m) =>
          assert exists i :: 0 <= i < |ps| - 1 && CategoryOf(ps[1..][i], number).Err?;
          Err(m)
        case Ok(cs) => Ok([c] + cs)
  }

  /** `productsToPseudoCategories(top)` */
  function ProductsToPseudoCategories(top: Json, parse: Parser, number: NumberOf): (r: Result<seq<Category>>)
    requires ParseShrinks(parse)
    ensures r.Ok? ==> |r.value| <= 8
  {
    var data := NormalizeArray(top, parse);
    CategoriesOf(data[..Min(8, |data|)], number)
  }

  /** The first eight products, in order, each labelled "0" per cent. */
  lemma CategoriesAreFirstEight(top: Json, parse: Parser, number: NumberOf)
    requires ParseShrinks(parse)
    requires ProductsToPseudoCategories(top, parse, number).Ok?
    ensures var data := NormalizeArray(top, parse);
            var cs := ProductsToPseudoCategories(top, parse, number).value;
            && |cs| == Min(8, |data|)
            && forall i :: 0 <= i < |cs| ==> CategoryOf(data[i], number) == Ok(cs[i]) && cs[i].percentage == "0"
  {
  }

  /** Joining the first parts gives a prefix of the whole. */
  lemma {:induction false} JoinPrefix(parts: seq<string>, k: nat, sep: string)
    requires 1 <= k <= |parts|
    ensures StartsWith(Join(parts, sep), Join(parts[..k], sep))
    decreases k
  {
    if k == 1 {
      assert Join(parts[..1], sep) == parts[0];
    } else {
      JoinPrefix(parts[1..], k - 1, sep);
      assert parts[..k][1..] == parts[1..][..k - 1];
      var rest := Join(parts[1..], sep);
      var prefix := Join(parts[1..][..k - 1], sep);
      assert Join(parts, sep) == parts[0] + sep + rest;
      assert Join(parts[..k], sep) == parts[0] + sep + prefix;
      assert rest[..|prefix|] == prefix;
      assert (parts[0] + sep + rest)[..|parts[0] + sep + prefix|] == parts[0] + sep + prefix;
    }
  }

  /** A category name is the title's first word, or its first two words, or "Product" for
      an empty title. */
  lemma NameIsFirstTwoWords(title: string)
    ensures var name := NameOf(title);
            || name == "Product"
            || (StartsWith(title, name) && 1 <= |Split(name, ' ')| <= 2)
  {
    var parts := Split(title, ' ');
    var k := Min(2, |parts|);
    var n := Join(parts[..k], " ");
    if n != "" {
      JoinPrefix(parts, k, " ");
      SplitJoin(parts[..k], ' ');
    }
  }
}
