/**
 * The order data store (includes/data-stores/wc-taxify-order-data-store.php):
 * a per-order list of metadata entries behind a cached order object.
 *
 * The cache is sticky: once an order object has been stored, every accessor
 * works on that order, whatever id it is given. A lookup that finds no order
 * stores `false`, so the next accessor looks up again.
 */
module OrderDataStore {
  import opened Php
  import opened Format

  /**
   * What a WC_Order object offers the store: its order number, the array
   * `get_data()` returns (string keys only), the customer id, the status as
   * `get_status()` reports it (without the `wc-` prefix) and its metadata
   * entries in storage order.
   */
  datatype OrderRecord = OrderRecord(
    number: Value,
    data: seq<Entry>,
    customerId: int,
    status: string,
    meta: seq<MetaEntry>)

  // ---------------------------------------------------------------------
  // Metadata lists
  // ---------------------------------------------------------------------

  /** `$order->get_meta( $key, true )`: the first entry's value, or ''. */
  function MetaGet(meta: seq<MetaEntry>, key: string): Value
  {
    if |meta| == 0 then VStr("")
    else if meta[0].key == key then meta[0].value
    else MetaGet(meta[1..], key)
  }

  /** `delete_meta_data( $key )`: every entry with that key goes. */
  function MetaRemove(meta: seq<MetaEntry>, key: string): (r: seq<MetaEntry>)
    ensures forall m :: m in r <==> m in meta && m.key != key
  {
    if |meta| == 0 then []
    else if meta[0].key == key then MetaRemove(meta[1..], key)
    else [meta[0]] + MetaRemove(meta[1..], key)
  }

  /** `update_meta`: delete the key, then add one fresh entry at the end. */
  function MetaUpdate(meta: seq<MetaEntry>, key: string, v: Value): seq<MetaEntry>
  {
    MetaRemove(meta, key) + [MetaEntry(key, v)]
  }

  lemma {:induction false} MetaGetAbsent(meta: seq<MetaEntry>, key: string, tail: seq<MetaEntry>)
    requires forall m :: m in meta ==> m.key != key
    ensures MetaGet(meta + tail, key) == MetaGet(tail, key)
  {
    if |meta| > 0 {
      assert meta[0] in meta;
      assert (meta + tail)[0] == meta[0];
      assert (meta + tail)[1..] == meta[1..] + tail;
      MetaGetAbsent(meta[1..], key, tail);
    } else {
      assert meta + tail == tail;
    }
  }

  lemma {:induction false} MetaGetOther(meta: seq<MetaEntry>, key: string, other: string)
    requires other != key
    ensures MetaGet(MetaRemove(meta, key), other) == MetaGet(meta, other)
  {
    if |meta| > 0 {
      MetaGetOther(meta[1..], key, other);
    }
  }

  lemma {:induction false} MetaGetAppendOther(meta: seq<MetaEntry>, e: MetaEntry, key: string)
    requires e.key != key
    ensures MetaGet(meta + [e], key) == MetaGet(meta, key)
  {
    if |meta| > 0 {
      assert (meta + [e])[1..] == meta[1..] + [e];
      MetaGetAppendOther(meta[1..], e, key);
    }
  }

  /** After update_meta the key reads back exactly the new value. */
  lemma MetaUpdateReads(meta: seq<MetaEntry>, key: string, v: Value)
    ensures MetaGet(MetaUpdate(meta, key, v), key) == v
  {
    MetaGetAbsent(MetaRemove(meta, key), key, [MetaEntry(key, v)]);
  }

  /** update_meta leaves every other key's value as it was. */
  lemma MetaUpdateKeepsOthers(meta: seq<MetaEntry>, key: string, v: Value, other: string)
    requires other != key
    ensures MetaGet(MetaUpdate(meta, key, v), other) == MetaGet(meta, other)
  {
    MetaGetAppendOther(MetaRemove(meta, key), MetaEntry(key, v), other);
    MetaGetOther(meta, key, other);
  }

  /** After delete_meta the key reads back empty and other keys are unchanged. */
  lemma MetaRemoveReads(meta: seq<MetaEntry>, key: string, other: string)
    ensures MetaGet(MetaRemove(meta, key), key) == VStr("")
    ensures other != key ==> MetaGet(MetaRemove(meta, key), other) == MetaGet(meta, other)
  {
    MetaGetAbsent(MetaRemove(meta, key), key, []);
    assert MetaRemove(meta, key) + [] == MetaRemove(meta, key);
    if other != key {
      MetaGetOther(meta, key, other);
    }
  }

  // ---------------------------------------------------------------------
  // The cache
  // ---------------------------------------------------------------------

  /**
   * The order an accessor works on: the cached one when set, otherwise
   * whatever the lookup for `id` finds.
   */
  function Target(cached: Option<int>, orders: map<int, OrderRecord>, id: int): (t: Option<int>)
    ensures cached.Some? ==> t == cached
    ensures cached.None? ==> (t.Some? <==> id in orders)
    ensures t.Some? && cached.None? ==> t.value == id
  {
    if cached.Some? then cached
    else if id in orders then Some(id)
    else None
  }

  /** The orders after `update_meta` through target `t`. */
  function UpdatedOrders(orders: map<int, OrderRecord>, t: Option<int>, key: string, v: Value): map<int, OrderRecord>
  {
    if t.Some? && t.value in orders then
      orders[t.value := orders[t.value].(meta := MetaUpdate(orders[t.value].meta, key, v))]
    else orders
  }

  /** The orders after `delete_meta` through target `t`. */
  function DeletedOrders(orders: map<int, OrderRecord>, t: Option<int>, key: string): map<int, OrderRecord>
  {
    if t.Some? && t.value in orders then
      orders[t.value := orders[t.value].(meta := MetaRemove(orders[t.value].meta, key))]
    else orders
  }

  /** The array `get_meta_data` returns for order `id`. */
  function MetaDataArray(id: int, rec: OrderRecord): seq<Entry>
  {
    MergeStr(
      MergeStr([Entry(SK("id"), VInt(id)), Entry(SK("number"), rec.number)], rec.data),
      [Entry(SK("meta_data"), VArr(MetaArray(rec.meta)))])
  }

  /** `get_meta_data` puts the flattened metadata under `meta_data`. */
  lemma MetaDataArrayMeta(id: int, rec: OrderRecord)
    ensures Lookup(MetaDataArray(id, rec), SK("meta_data")) == Some(VArr(MetaArray(rec.meta)))
  {
  }

  /**
   * `get_meta_data`: `id` and `number`, overridden by the order data where it
   * has those keys; every other key but `meta_data` comes from the order data.
   */
  lemma MetaDataArrayReads(id: int, rec: OrderRecord, k: string)
    requires UniqueKeys(rec.data) && k != "meta_data"
    ensures Lookup(MetaDataArray(id, rec), SK(k)) ==
      if Lookup(rec.data, SK(k)).Some? then Lookup(rec.data, SK(k))
      else if k == "id" then Some(VInt(id))
      else if k == "number" then Some(rec.number)
      else None
  {
    var head := [Entry(SK("id"), VInt(id)), Entry(SK("number"), rec.number)];
    var merged := MergeStr(head, rec.data);
    MergeStrSingle(merged, Entry(SK("meta_data"), VArr(MetaArray(rec.meta))));
    MergeStrLookup(head, rec.data, SK(k));
    assert head == [head[0]] + [head[1]];
    LookupSingleton(head[0], SK(k));
    LookupSingleton(head[1], SK(k));
    LookupConcat([head[0]], [head[1]], SK(k));
  }

  /**
   * The cache redirects writes: with order `a` cached, `update_meta` called
   * for another order `b` changes `a`'s value and leaves `b` alone.
   */
  lemma StickyUpdate(orders: map<int, OrderRecord>, a: int, b: int, key: string, v: Value)
    requires a in orders && b in orders && a != b
    ensures var after := UpdatedOrders(orders, Target(Some(a), orders, b), key, v);
      a in after && b in after
      && MetaGet(after[a].meta, key) == v
      && after[b] == orders[b]
  {
    MetaUpdateReads(orders[a].meta, key, v);
  }

  /** The store, with the orders WooCommerce knows and the cached order object. */
  class Store {
    var orders: map<int, OrderRecord>
    var cached: Option<int>

    ghost predicate Valid()
      reads this
    {
      cached.Some? ==> cached.value in orders
    }

    constructor(known: map<int, OrderRecord>)
      ensures Valid() && orders == known && cached == None
    {
      orders := known;
      cached := None;
    }

    /** get_order_object: looks the order up and stores the result, `false` included. */
    method GetOrderObject(id: int) returns (o: Option<int>)
      modifies this
      ensures orders == old(orders) && Valid()
      ensures o == (if id in orders then Some(id) else None) && cached == o
    {
      if id in orders {
        o := Some(id);
      } else {
        o := None;
      }
      cached := o;
    }

    /** `is_object( $this->order_object ) ? $this->order_object : $this->get_order_object( $order )`. */
    method Resolve(id: int) returns (o: Option<int>)
      requires Valid()
      modifies this
      ensures orders == old(orders) && Valid()
      ensures o == Target(old(cached), orders, id) && cached == o
    {
      if cached.Some? {
        o := cached;
      } else {
        o := GetOrderObject(id);
      }
    }

    /** get_meta: the target order's value for `key` ('' when unset), or false with no order. */
    method GetMeta(id: int, key: string) returns (v: Value)
      requires Valid()
      modifies this
      ensures orders == old(orders) && Valid()
      ensures cached == Target(old(cached), orders, id)
      ensures cached.None? ==> v == VBool(false)
      ensures cached.Some? ==> v == MetaGet(orders[cached.value].meta, key)
    {
      var o := Resolve(id);
      if o.Some? {
        v := MetaGet(orders[o.value].meta, key);
      } else {
        v := VBool(false);
      }
    }

    /** get_meta_data: the merged order array, or false with no order. */
    method GetMetaData(id: int) returns (v: Value)
      requires Valid()
      modifies this
      ensures orders == old(orders) && Valid()
      ensures cached == Target(old(cached), orders, id)
      ensures cached.None? ==> v == VBool(false)
      ensures cached.Some? ==> v == VArr(MetaDataArray(cached.value, orders[cached.value]))
    {
      var o := Resolve(id);
      if o.Some? {
        var rec := orders[o.value];
        var flat := FlattenMetaObject(rec.meta);
        v := VArr(MergeStr(
          MergeStr([Entry(SK("id"), VInt(o.value)), Entry(SK("number"), rec.number)], rec.data),
          [Entry(SK("meta_data"), VArr(flat))]));
      } else {
        v := VBool(false);
      }
    }

    /** update_meta: delete, then add, then save, on the target order. */
    method UpdateMeta(id: int, key: string, v: Value)
      requires Valid()
      modifies this
      ensures Valid()
      ensures cached == Target(old(cached), old(orders), id)
      ensures orders == UpdatedOrders(old(orders), cached, key, v)
    {
      var o := Resolve(id);
      if o.Some? {
        DeleteMeta(id, key);
        var rec := orders[o.value];
        orders := orders[o.value := rec.(meta := rec.meta + [MetaEntry(key, v)])];
      }
    }

    /** delete_meta: every entry with `key` is removed from the target order. */
    method DeleteMeta(id: int, key: string)
      requires Valid()
      modifies this
      ensures Valid()
      ensures cached == Target(old(cached), old(orders), id)
      ensures orders == DeletedOrders(old(orders), cached, key)
    {
      var o := Resolve(id);
      if o.Some? {
        var rec := orders[o.value];
        orders := orders[o.value := rec.(meta := MetaRemove(rec.meta, key))];
      }
    }

    /** get_customer_id: the target order's customer id, or false with no order. */
    method GetCustomerId(id: int) returns (v: Value)
      requires Valid()
      modifies this
      ensures orders == old(orders) && Valid()
      ensures cached == Target(old(cached), orders, id)
      ensures cached.None? ==> v == VBool(false)
      ensures cached.Some? ==> v == VInt(orders[cached.value].customerId)
    {
      var o := Resolve(id);
      if o.Some? {
        v := VInt(orders[o.value].customerId);
      } else {
        v := VBool(false);
      }
    }

    /**
     * has_status_completed: whether the target order's status is `completed`;
     * `None` where the source calls a method on `false` (a fatal error).
     */
    method HasStatusCompleted(id: int) returns (r: Option<bool>)
      requires Valid()
      modifies this
      ensures orders == old(orders) && Valid()
      ensures cached == Target(old(cached), orders, id)
      ensures cached.None? ==> r == None
      ensures cached.Some? ==> r == Some(orders[cached.value].status == "completed")
    {
      var o := Resolve(id);
      if o.Some? {
        r := Some(orders[o.value].status == "completed");
      } else {
        r := None;
      }
    }
  }
}
