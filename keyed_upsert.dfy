/** The loop shared by `upsertProducts` and `upsertCustomers`: each record is upserted into a
    table keyed by its global Shopify id alone, an existing row being updated and a missing
    one created with the calling tenant's id. A record without an id throws at `BigInt` and
    stops the loop, the earlier records staying written. */
module KeyedUpsert {
  import opened Base
  import opened Store

  /** One `prisma.<model>.upsert({ where: { shopId: BigInt(r.id) }, update, create })`. */
  function UpsertOne<R, W>(t: map<int, W>, tenantId: string, r: R, id: R -> Js<int>,
                           update: (W, R) -> W, create: (string, int, R) -> W): (res: Result<map<int, W>>)
    ensures res.Ok? <==> id(r).Val?
    ensures res.Ok? ==> res.value.Keys == t.Keys + {id(r).v}
    ensures res.Ok? ==> forall k :: k in t && k != id(r).v ==> res.value[k] == t[k]
  {
    match BigIntOf(id(r))
    case Err(m) => Err(m)
    case Ok(shopId) =>
      Ok(t[shopId := if shopId in t then update(t[shopId], r) else create(tenantId, shopId, r)])
  }

  /** The table and the result after upserting `rs` in order. */
  function UpsertAll<R, W>(t: map<int, W>, tenantId: string, rs: seq<R>, id: R -> Js<int>,
                           update: (W, R) -> W, create: (string, int, R) -> W): (res: (map<int, W>, Result<nat>))
    ensures res.1.Ok? <==> forall i :: 0 <= i < |rs| ==> id(rs[i]).Val?
    ensures res.1.Ok? ==> res.1.value == |rs|
    ensures rs == [] ==> res == (t, Ok(0))
  {
    if rs == [] then (t, Ok(0))
    else
      var (t', n) := UpsertAll(t, tenantId, rs[..|rs| - 1], id, update, create);
      if n.Err? then (t', n)
      else
        match UpsertOne(t', tenantId, rs[|rs| - 1], id, update, create)
        case Err(m) => (t', Err(m))
        case Ok(t'') => (t'', Ok(n.value + 1))
  }

  /** Once a record without an id has stopped the loop, the later records change nothing. */
  lemma {:induction false} UpsertAllStopsAtError<R, W>(t: map<int, W>, tenantId: string, rs: seq<R>, i: nat,
                                                      id: R -> Js<int>, update: (W, R) -> W, create: (string, int, R) -> W)
    requires i <= |rs|
    requires UpsertAll(t, tenantId, rs[..i], id, update, create).1.Err?
    ensures UpsertAll(t, tenantId, rs, id, update, create) == UpsertAll(t, tenantId, rs[..i], id, update, create)
    decreases |rs| - i
  {
    if i < |rs| {
      assert rs[..i + 1][..i] == rs[..i];
      UpsertAllStopsAtError(t, tenantId, rs, i + 1, id, update, create);
    } else {
      assert rs[..i] == rs;
    }
  }

  /** The Shopify ids present in a batch. */
  function IdsOf<R>(rs: seq<R>, id: R -> Js<int>): set<int> {
    set i | 0 <= i < |rs| && id(rs[i]).Val? :: id(rs[i]).v
  }

  lemma IdsOfSnoc<R>(rs: seq<R>, id: R -> Js<int>)
    requires rs != []
    ensures IdsOf(rs, id) == IdsOf(rs[..|rs| - 1], id) +
              (if id(rs[|rs| - 1]).Val? then {id(rs[|rs| - 1]).v} else {})
  {
    var init := rs[..|rs| - 1];
    forall k | k in IdsOf(rs, id)
      ensures k in IdsOf(init, id) || (id(rs[|rs| - 1]).Val? && k == id(rs[|rs| - 1]).v)
    {
      var i :| 0 <= i < |rs| && id(rs[i]).Val? && k == id(rs[i]).v;
      if i < |rs| - 1 {
        assert init[i] == rs[i];
      }
    }
    forall k | k in IdsOf(init, id) ensures k in IdsOf(rs, id) {
      var i :| 0 <= i < |init| && id(init[i]).Val? && k == id(init[i]).v;
      assert rs[i] == init[i];
    }
  }

  /** After a successful call the table holds the old keys plus one key per distinct input
      id, whichever tenant made the call, and rows of other ids are as they were. */
  lemma {:induction false} UpsertAllKeys<R, W>(t: map<int, W>, tenantId: string, rs: seq<R>, id: R -> Js<int>,
                                              update: (W, R) -> W, create: (string, int, R) -> W)
    ensures var res := UpsertAll(t, tenantId, rs, id, update, create);
            && (res.1.Ok? ==> res.0.Keys == t.Keys + IdsOf(rs, id))
            && (forall k :: k in t && k !in IdsOf(rs, id) ==> k in res.0 && res.0[k] == t[k])
  {
    if rs != [] {
      UpsertAllKeys(t, tenantId, rs[..|rs| - 1], id, update, create);
      IdsOfSnoc(rs, id);
    }
  }

  /** When every id of the batch is already stored, the call adds no row. */
  lemma {:induction false} UpsertAllNoNewRows<R, W>(t: map<int, W>, tenantId: string, rs: seq<R>, id: R -> Js<int>,
                                                   update: (W, R) -> W, create: (string, int, R) -> W)
    requires IdsOf(rs, id) <= t.Keys
    ensures UpsertAll(t, tenantId, rs, id, update, create).0.Keys == t.Keys
  {
    if rs != [] {
      IdsOfSnoc(rs, id);
      UpsertAllNoNewRows(t, tenantId, rs[..|rs| - 1], id, update, create);
    }
  }

  /** Repeating a successful call, by the same or another tenant, creates no new row. */
  lemma RepeatedUpsertAddsNoRows<R, W>(t: map<int, W>, tenantId: string, other: string, rs: seq<R>, id: R -> Js<int>,
                                       update: (W, R) -> W, create: (string, int, R) -> W)
    requires UpsertAll(t, tenantId, rs, id, update, create).1.Ok?
    ensures var t1 := UpsertAll(t, tenantId, rs, id, update, create).0;
            UpsertAll(t1, other, rs, id, update, create).0.Keys == t1.Keys
  {
    UpsertAllKeys(t, tenantId, rs, id, update, create);
    UpsertAllNoNewRows(UpsertAll(t, tenantId, rs, id, update, create).0, other, rs, id, update, create);
  }
}
