/**
 * Array and address formatting helpers (includes/wc-taxify-format.php).
 * The `apply_filters` hooks around the address arrays are taken to be the
 * identity.
 */
module Format {
  import opened Php

  // ---------------------------------------------------------------------
  // flatten_array
  // ---------------------------------------------------------------------

  /** PHP 7 `count()`: an array's size, 0 for null, 1 for any other scalar. */
  function Count(v: Value): nat
  {
    match v
    case VArr(a) => |a|
    case VNull => 0
    case _ => 1
  }

  /** What flatten_array stores for one value it keeps. */
  function Flat(v: Value): Value
  {
    if v.VArr? && Count(v) == 1 then Get0(v) else v
  }

  /** `$value[0]`: null when the single element is not at index 0. */
  function Get0(v: Value): Value
  {
    match v
    case VArr(a) => (match Lookup(a, IK(0)) case Some(x) => x case None => VNull)
    case _ => VNull
  }

  /**
   * The flattened array as a reference definition: in input order, every
   * entry with a non-zero count, one-element arrays replaced by their
   * element at index 0.
   */
  function Flattened(a: seq<Entry>): (r: seq<Entry>)
    ensures |r| <= |a|
  {
    if |a| == 0 then []
    else
      var rest := Flattened(a[..|a| - 1]);
      var last := a[|a| - 1];
      if Count(last.v) >= 1 then rest + [Entry(last.k, Flat(last.v))] else rest
  }

  /** A key the input never uses is absent from the flattened array. */
  lemma {:induction false} FlattenedMissingKey(a: seq<Entry>, k: Key)
    requires forall j :: 0 <= j < |a| ==> a[j].k != k
    ensures Lookup(Flattened(a), k).None?
  {
    if |a| > 0 {
      FlattenedMissingKey(a[..|a| - 1], k);
    }
  }

  /**
   * A key present in the input: a value with count 0 is dropped, a
   * one-element array is replaced by its `[0]` element, and any other value
   * is kept as it is.
   */
  lemma {:induction false} FlattenedLookup(a: seq<Entry>, j: nat)
    requires UniqueKeys(a) && j < |a|
    ensures Lookup(Flattened(a), a[j].k) ==
      if Count(a[j].v) == 0 then None
      else if a[j].v.VArr? && Count(a[j].v) == 1 then Some(Get0(a[j].v))
      else Some(a[j].v)
  {
    var init := a[..|a| - 1];
    var last := a[|a| - 1];
    var k := a[j].k;
    if j == |a| - 1 {
      FlattenedMissingKey(init, k);
    } else {
      assert init[j] == a[j];
      FlattenedLookup(init, j);
      assert last.k != k;
    }
    if Count(last.v) >= 1 {
      LookupConcat(Flattened(init), [Entry(last.k, Flat(last.v))], k);
      LookupSingleton(Entry(last.k, Flat(last.v)), k);
    }
  }

  /**
   * flatten_array: keeps every key whose value has a non-zero count, moving
   * a one-element array's `[0]` element up one level; anything but a
   * non-empty array gives [].
   */
  method FlattenArray(data: Value) returns (r: seq<Entry>)
    ensures Empty(data) || !data.VArr? ==> r == []
    ensures data.VArr? && UniqueKeys(data.a) ==> r == Flattened(data.a)
  {
    r := [];
    if !Empty(data) && data.VArr? {
      var a := data.a;
      var i := 0;
      while i < |a|
        invariant 0 <= i <= |a|
        invariant UniqueKeys(a) ==> r == Flattened(a[..i])
      {
        var value := a[i].v;
        if UniqueKeys(a) {
          FlattenedMissingKey(a[..i], a[i].k);
        }
        if Count(value) == 1 {
          if value.VArr? {
            r := Put(r, a[i].k, Get0(value));
          } else {
            r := Put(r, a[i].k, value);
          }
        } else if Count(value) > 1 {
          r := Put(r, a[i].k, value);
        }
        assert a[..i + 1][..i] == a[..i];
        i := i + 1;
      }
      assert a[..|a|] == a;
    }
  }

  /**
   * get_meta_flattened: post or user meta, flattened; `None` (false) for
   * another type, an empty type or empty meta. The meta arrays are the
   * values `get_post_meta` / `get_user_meta` return.
   */
  method GetMetaFlattened(kind: string, postMeta: Value, userMeta: Value) returns (r: Option<seq<Entry>>)
    ensures kind != "post" && kind != "user" ==> r == None
    ensures kind == "post" ==> (r.Some? <==> !Empty(postMeta))
    ensures kind == "user" ==> (r.Some? <==> !Empty(userMeta))
    ensures kind == "post" && postMeta.VArr? && UniqueKeys(postMeta.a) && !Empty(postMeta) ==>
      r == Some(Flattened(postMeta.a))
    ensures kind == "user" && userMeta.VArr? && UniqueKeys(userMeta.a) && !Empty(userMeta) ==>
      r == Some(Flattened(userMeta.a))
  {
    r := None;
    if !EmptyStr(kind) {
      var meta := VNull;
      if kind == "post" {
        meta := postMeta;
      }
      if kind == "user" {
        meta := userMeta;
      }
      if !Empty(meta) {
        var f := FlattenArray(meta);
        r := Some(f);
      }
    }
  }

  // ---------------------------------------------------------------------
  // flatten_meta_object
  // ---------------------------------------------------------------------

  /** One WC_Meta_Data object: its `key` and `value`. */
  datatype MetaEntry = MetaEntry(key: string, value: Value)

  /** The last non-empty value stored under `key`, reading front to back. */
  function LastNonEmpty(data: seq<MetaEntry>, key: string): Option<Value>
  {
    if |data| == 0 then None
    else
      var last := data[|data| - 1];
      if last.key == key && !Empty(last.value) then Some(last.value)
      else LastNonEmpty(data[..|data| - 1], key)
  }

  /**
   * The flattened metadata as a reference definition: entries are taken in
   * order, an empty value is skipped and any other is written with `$a[$k] = $v`.
   */
  function MetaArray(data: seq<MetaEntry>): (r: seq<Entry>)
    ensures UniqueKeys(r)
  {
    if |data| == 0 then []
    else
      var rest := MetaArray(data[..|data| - 1]);
      var m := data[|data| - 1];
      if Empty(m.value) then rest else Put(rest, SK(m.key), m.value)
  }

  /** In the flattened metadata each key holds its last non-empty value. */
  lemma {:induction false} MetaArrayLookup(data: seq<MetaEntry>, key: string)
    ensures Lookup(MetaArray(data), SK(key)) == LastNonEmpty(data, key)
  {
    if |data| > 0 {
      MetaArrayLookup(data[..|data| - 1], key);
    }
  }

  /**
   * flatten_meta_object: a key => value array in which each key holds the
   * last non-empty value the list gives it; keys whose values are all
   * empty are absent.
   */
  method FlattenMetaObject(data: seq<MetaEntry>) returns (r: seq<Entry>)
    ensures r == MetaArray(data)
    ensures UniqueKeys(r)
    ensures forall key :: Lookup(r, SK(key)) == LastNonEmpty(data, key)
  {
    r := [];
    var i := 0;
    while i < |data|
      invariant 0 <= i <= |data|
      invariant r == MetaArray(data[..i])
    {
      var m := data[i];
      assert data[..i + 1][..i] == data[..i];
      if !Empty(m.value) {
        r := Put(r, SK(m.key), m.value);
      }
      i := i + 1;
    }
    assert data[..|data|] == data;
    forall key ensures Lookup(r, SK(key)) == LastNonEmpty(data, key) {
      MetaArrayLookup(data, key);
    }
  }

  // ---------------------------------------------------------------------
  // Formatted addresses
  // ---------------------------------------------------------------------

  /** `! empty( $data[group][field] ) ? $data[group][field] : ''`. */
  function AddressField(data: Value, group: string, field: string): (r: Value)
    ensures Empty(Get(Get(data, group), field)) ==> r == VStr("")
    ensures !Empty(Get(Get(data, group), field)) ==> r == Get(Get(data, group), field)
  {
    var x := Get(Get(data, group), field);
    if Empty(x) then VStr("") else x
  }

  /** The destination keys and the order-data fields they are read from. */
  const BillingFields: seq<(string, string)> := [
    ("destination_first_name", "first_name"), ("destination_last_name", "last_name"),
    ("destination_company", "company"), ("destination_address_1", "address_1"),
    ("destination_address_2", "address_2"), ("destination_city", "city"),
    ("destination_state", "state"), ("destination_zip", "postcode"),
    ("destination_country", "country"), ("destination_email", "email"),
    ("destination_phone", "phone")]

  /** The shipping address carries no email or phone. */
  const ShippingFields: seq<(string, string)> := BillingFields[..9]

  function FormatFields(data: Value, group: string, fields: seq<(string, string)>): (r: seq<Entry>)
    ensures |r| == |fields|
    ensures forall i :: 0 <= i < |fields| ==>
      r[i] == Entry(SK(fields[i].0), AddressField(data, group, fields[i].1))
  {
    if |fields| == 0 then []
    else
      [Entry(SK(fields[0].0), AddressField(data, group, fields[0].1))]
      + FormatFields(data, group, fields[1..])
  }

  /** get_formatted_billing_address: 11 `destination_*` keys read from `billing`. */
  function BillingAddress(data: Value): (r: seq<Entry>)
    ensures |r| == 11
    ensures forall i :: 0 <= i < 11 ==>
      r[i] == Entry(SK(BillingFields[i].0), AddressField(data, "billing", BillingFields[i].1))
  {
    FormatFields(data, "billing", BillingFields)
  }

  /** get_formatted_shipping_address: the first 9 of those keys, read from `shipping`. */
  function ShippingAddress(data: Value): (r: seq<Entry>)
    ensures |r| == 9
    ensures forall i :: 0 <= i < 9 ==>
      r[i] == Entry(SK(ShippingFields[i].0), AddressField(data, "shipping", ShippingFields[i].1))
  {
    FormatFields(data, "shipping", ShippingFields)
  }

  /** Reading a destination key back out of a formatted address. */
  lemma AddressLookup(data: Value, group: string, fields: seq<(string, string)>, i: nat)
    requires i < |fields|
    requires forall j :: 0 <= j < i ==> fields[j].0 != fields[i].0
    ensures Lookup(FormatFields(data, group, fields), SK(fields[i].0))
      == Some(AddressField(data, group, fields[i].1))
  {
    var r := FormatFields(data, group, fields);
    var j := KeyIndex(r, SK(fields[i].0));
    assert r[i].k == SK(fields[i].0);
    assert j == i;
  }
}
