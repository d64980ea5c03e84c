/** `upsertProducts`: products keyed by their global Shopify id. An update writes the title
    as given, a truthy status, and the minimum and maximum variant price when there are
    variants; a create takes the calling tenant's id and the FIRST variant's price for both
    bounds. */
module ProductRepo {
  import opened Base
  import opened Store
  import opened KeyedUpsert

  /** A Shopify product payload; `variants` holds the parsed `price` of each variant, empty
      when the array is missing or empty. */
  datatype RawProduct = RawProduct(id: Js<int>, title: Js<string>, status: Js<string>, variants: seq<real>)

  function ProductId(p: RawProduct): Js<int> { p.id }

  /** `vs.reduce((m, v) => m < v ? m : v, vs[0])` */
  function MinPrice(vs: seq<real>): (m: real)
    requires vs != []
    ensures m in vs
    ensures forall i :: 0 <= i < |vs| ==> m <= vs[i]
  {
    if |vs| == 1 then vs[0]
    else
      var m := MinPrice(vs[..|vs| - 1]);
      assert vs == vs[..|vs| - 1] + [vs[|vs| - 1]];
      if m < vs[|vs| - 1] then m else vs[|vs| - 1]
  }

  /** `vs.reduce((m, v) => m > v ? m : v, vs[0])` */
  function MaxPrice(vs: seq<real>): (m: real)
    requires vs != []
    ensures m in vs
    ensures forall i :: 0 <= i < |vs| ==> vs[i] <= m
  {
    if |vs| == 1 then vs[0]
    else
      var m := MaxPrice(vs[..|vs| - 1]);
      assert vs == vs[..|vs| - 1] + [vs[|vs| - 1]];
      if m > vs[|vs| - 1] then m else vs[|vs| - 1]
  }

  /** The `update` half: the title passed through, a falsy status left alone, the price bounds
      recomputed only when there are variants. `tenantId` is never written. */
  function UpdatedProduct(e: Product, p: RawProduct): Product {
    e.(title := Apply(UpdateOf(p.title), e.title),
       status := Apply(StrOrKeep(p.status), e.status),
       priceMin := if p.variants != [] then Some(MinPrice(p.variants)) else e.priceMin,
       priceMax := if p.variants != [] then Some(MaxPrice(p.variants)) else e.priceMax)
  }

  /** The `create` half. */
  function CreatedProduct(tenantId: string, shopId: int, p: RawProduct): Product {
    var first := if p.variants != [] then Some(p.variants[0]) else None;
    Product(tenantId, shopId, CreateOf(p.title), StrOrNull(p.status), first, first)
  }

  /** `upsertProducts(tenantId, products)` against the product table. */
  method UpsertProducts(db: Db, tenantId: string, products: seq<RawProduct>) returns (r: Result<nat>)
    modifies db`products
    ensures (db.products, r) == UpsertAll(old(db.products), tenantId, products, ProductId, UpdatedProduct, CreatedProduct)
  {
    if |products| == 0 {
      return Ok(0);
    }
    var count := 0;
    for i := 0 to |products|
      invariant (db.products, Ok(count)) ==
                UpsertAll(old(db.products), tenantId, products[..i], ProductId, UpdatedProduct, CreatedProduct)
    {
      assert products[..i + 1][..i] == products[..i];
      var p := products[i];
      var shopId := BigIntOf(p.id);
      if shopId.Err? {
        UpsertAllStopsAtError(old(db.products), tenantId, products, i + 1, ProductId, UpdatedProduct, CreatedProduct);
        return Err(shopId.msg);
      }
      if shopId.value in db.products {
        db.products := db.products[shopId.value := UpdatedProduct(db.products[shopId.value], p)];
      } else {
        db.products := db.products[shopId.value := CreatedProduct(tenantId, shopId.value, p)];
      }
      count := count + 1;
    }
    assert products[..|products|] == products;
    return Ok(count);
  }

  // ---------------------------------------------------------------------------
  // properties
  // ---------------------------------------------------------------------------

  /** On update with variants the bounds are the least and greatest variant price, both of
      them prices of some variant; without variants, and for a falsy status, the stored
      values stay. The owning tenant never changes. */
  lemma UpdateBounds(e: Product, p: RawProduct)
    ensures var n := UpdatedProduct(e, p);
            && n.tenantId == e.tenantId && n.shopId == e.shopId
            && (p.variants != [] ==>
                  && n.priceMin.Some? && n.priceMax.Some?
                  && n.priceMin.value in p.variants && n.priceMax.value in p.variants
                  && forall i :: 0 <= i < |p.variants| ==> n.priceMin.value <= p.variants[i] <= n.priceMax.value)
            && (p.variants == [] ==> n.priceMin == e.priceMin && n.priceMax == e.priceMax)
            && (!TruthyStr(p.status) ==> n.status == e.status)
            && (p.title.Undefined? ==> n.title == e.title)
  {
  }

  /** A create stores the first variant's price as both bounds, whatever the other variants
      cost: [2, 1] gives a minimum of 2. */
  lemma CreateUsesFirstVariant(tenantId: string, shopId: int, p: RawProduct)
    requires p.id == Val(shopId) && p.variants == [2.0, 1.0]
    ensures CreatedProduct(tenantId, shopId, p).priceMin == Some(2.0)
    ensures UpdatedProduct(CreatedProduct(tenantId, shopId, p), p).priceMin == Some(1.0)
  {
    assert MinPrice([2.0, 1.0]) == 1.0 by {
      assert [2.0, 1.0][..1] == [2.0];
    }
  }

  /** Hence upserting one product twice is not idempotent: the second call moves `priceMin`
      from the first variant's price to the minimum. */
  lemma UpsertProductsTwiceDiffers(tenantId: string, p: RawProduct)
    requires p.id == Val(7) && p.variants == [2.0, 1.0]
    ensures var t1 := UpsertAll(map[], tenantId, [p], ProductId, UpdatedProduct, CreatedProduct).0;
            var t2 := UpsertAll(t1, tenantId, [p], ProductId, UpdatedProduct, CreatedProduct).0;
            && t1.Keys == t2.Keys == {7}
            && t1[7].priceMin == Some(2.0) && t2[7].priceMin == Some(1.0)
  {
    CreateUsesFirstVariant(tenantId, 7, p);
    assert [p][..0] == [];
    var t1 := UpsertAll(map[], tenantId, [p], ProductId, UpdatedProduct, CreatedProduct).0;
    assert t1 == map[7 := CreatedProduct(tenantId, 7, p)];
  }

  /** The key is global: a second tenant upserting a stored product id updates that row,
      which keeps the first tenant's id. */
  lemma SecondTenantUpdatesSharedRow(t: map<int, Product>, tenantId: string, p: RawProduct)
    requires p.id.Val? && p.id.v in t
    ensures var r := UpsertOne(t, tenantId, p, ProductId, UpdatedProduct, CreatedProduct).value;
            r.Keys == t.Keys && r[p.id.v].tenantId == t[p.id.v].tenantId
  {
  }
}
