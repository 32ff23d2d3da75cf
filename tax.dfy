/**
 * The tax rules (includes/wc-taxify-tax.php): US-address validation, the
 * taxability-code mapping, the tax-class resolution order, the
 * shipping-taxable rule, `find_needle`, the SKU fallback, the flags read
 * from order metadata, the tax-class list and the rate filter.
 *
 * Options come from a snapshot of the options table, products and posts
 * from `Host.Shop`; the flags that read order metadata go through the order
 * data store and so move its cached order object.
 */
module Tax {
  import opened Php
  import opened Host
  import opened Plugin
  import opened OrderDataStore

  // ---------------------------------------------------------------------
  // valid_address
  // ---------------------------------------------------------------------

  /** `array_change_key_case`: string keys lower-cased. */
  function LowerKey(k: Key): Key
  {
    match k
    case SK(s) => SK(Lower(s))
    case IK(_) => k
  }

  /** `strtolower` applied by `array_map`: a nested array gives null. */
  function LowerValue(v: Value): Value
  {
    if v.VArr? then VNull else VStr(Lower(ToStr(v)))
  }

  /**
   * `array_change_key_case( array_map( 'strtolower', $a ) )`: entry by entry,
   * so a later key that lower-cases onto an earlier one overwrites its value.
   */
  function LowerArray(a: seq<Entry>): seq<Entry>
  {
    if |a| == 0 then []
    else Put(LowerArray(a[..|a| - 1]), LowerKey(a[|a| - 1].k), LowerValue(a[|a| - 1].v))
  }

  /**
   * valid_address: an array whose lower-cased country, state and zip are set
   * and non-empty, with the country `us`, `usa` or `united states`.
   */
  function ValidAddress(address: Value): (r: bool)
    ensures !address.VArr? ==> !r
  {
    match address
    case VArr(a) =>
      var lowered := VArr(LowerArray(a));
      var country := Get(lowered, "destination_country");
      !Empty(country) && !Empty(Get(lowered, "destination_state")) && !Empty(Get(lowered, "destination_zip"))
      && (LooseEqStr(country, "us") || LooseEqStr(country, "usa") || LooseEqStr(country, "united states"))
    case _ => false
  }

  /** Text with no capital letter. */
  predicate NoUpper(s: string)
  {
    forall i :: 0 <= i < |s| ==> !('A' <= s[i] <= 'Z')
  }

  /** Every string key is already lower case (the addresses the plugin builds). */
  predicate LowerKeys(a: seq<Entry>)
  {
    forall i :: 0 <= i < |a| && a[i].k.SK? ==> NoUpper(a[i].k.s)
  }

  /** Text already free of capitals is its own lower case. */
  lemma LowerOfNoUpper(s: string)
    requires NoUpper(s)
    ensures Lower(s) == s
  {
  }

  /** The lower-cased text of a field, '' when it is missing or an array. */
  function LoweredField(a: seq<Entry>, name: string): string
  {
    match Lookup(a, SK(name))
    case Some(v) => if v.VArr? then "" else Lower(ToStr(v))
    case None => ""
  }

  /** The US-address rule stated on the fields themselves. */
  predicate UsAddress(a: seq<Entry>)
  {
    !EmptyStr(LoweredField(a, "destination_country")) && !EmptyStr(LoweredField(a, "destination_state"))
    && !EmptyStr(LoweredField(a, "destination_zip"))
    && LoweredField(a, "destination_country") in {"us", "usa", "united states"}
  }

  /** On lower-case keys, lower-casing the array lower-cases each value in place. */
  lemma {:induction false} LowerArrayLookup(a: seq<Entry>, k: Key)
    requires UniqueKeys(a) && LowerKeys(a)
    ensures Lookup(LowerArray(a), k) ==
      match Lookup(a, k) case Some(v) => Some(LowerValue(v)) case None => None
  {
    if |a| > 0 {
      var init, last := a[..|a| - 1], a[|a| - 1];
      assert a == init + [last];
      assert UniqueKeys(init) && LowerKeys(init);
      LookupConcat(init, [last], k);
      LowerArrayLookup(init, k);
      if last.k.SK? {
        LowerOfNoUpper(last.k.s);
      }
      if last.k == k {
        assert Lookup(init, k).None?;
      }
    }
  }

  /** A field of the lower-cased array, read through the original array. */
  lemma LoweredGet(a: seq<Entry>, name: string)
    requires UniqueKeys(a) && LowerKeys(a)
    ensures Get(VArr(LowerArray(a)), name) == if Lookup(a, SK(name)).Some? then LowerValue(Lookup(a, SK(name)).value) else VNull
    ensures !Empty(Get(VArr(LowerArray(a)), name)) <==> !EmptyStr(LoweredField(a, name))
  {
    LowerArrayLookup(a, SK(name));
  }

  /** valid_address, for an address with lower-case keys, is the US-address rule. */
  lemma ValidAddressIff(a: seq<Entry>)
    requires UniqueKeys(a) && LowerKeys(a)
    ensures ValidAddress(VArr(a)) <==> UsAddress(a)
  {
    LoweredGet(a, "destination_country");
    LoweredGet(a, "destination_state");
    LoweredGet(a, "destination_zip");
    var country := Get(VArr(LowerArray(a)), "destination_country");
    assert !Empty(country) ==> country == VStr(LoweredField(a, "destination_country"));
  }

  // ---------------------------------------------------------------------
  // Taxability codes
  // ---------------------------------------------------------------------

  /** prices_include_tax: store taxes on and `woocommerce_prices_include_tax === 'yes'`. */
  predicate PricesIncludeTax(values: map<string, Value>)
  {
    WcTaxEnabled(values) && OptionValue(values, "woocommerce_prices_include_tax") == VStr("yes")
  }

  /**
   * is_line_item_taxable: the Taxify taxability code for a WooCommerce tax
   * status. `shipping` counts as not taxable for the product itself.
   */
  function IsLineItemTaxable(values: map<string, Value>, status: string): (r: string)
    ensures r == "none" <==> PricesIncludeTax(values) || status == "none"
    ensures r == "taxable" <==>
      !PricesIncludeTax(values) && (status == "taxable" || (WcTaxEnabled(values) && EmptyStr(status)))
    ensures r == "Shipping" <==> !PricesIncludeTax(values) && status in {"shipping", "Shipping"}
    ensures r !in {"none", "taxable", "Shipping"} ==> r == status
  {
    if PricesIncludeTax(values) || status == "none" then "none"
    else if (WcTaxEnabled(values) && EmptyStr(status)) || status == "taxable" then "taxable"
    else if status == "shipping" then "Shipping"
    else status
  }

  /** A taxability code maps to itself. */
  lemma IsLineItemTaxableIdempotent(values: map<string, Value>, status: string)
    ensures IsLineItemTaxable(values, IsLineItemTaxable(values, status)) == IsLineItemTaxable(values, status)
  {
  }

  // ---------------------------------------------------------------------
  // get_product_tax_status
  // ---------------------------------------------------------------------

  /** A product's `_taxify_tax_class` metadata, '' when unset. */
  function TaxClassOf(shop: Shop, id: int): string
  {
    if id in shop.products then shop.products[id].taxClass else ""
  }

  /** The classes consulted, in order: the variation's, the parent's, the simple product's. */
  function ClassCandidates(shop: Shop, productId: int): seq<string>
    requires productId in shop.products
  {
    var p := shop.products[productId];
    (if p.variationId != 0 then [TaxClassOf(shop, p.variationId)] else [])
    + (if p.parentId != 0 then [TaxClassOf(shop, p.parentId)] else [])
    + (if PostType(shop, productId) == "product" then [TaxClassOf(shop, productId)] else [])
  }

  /** The first non-empty string of a list. */
  function FirstNonEmpty(xs: seq<string>): Option<string>
  {
    if |xs| == 0 then None else if !EmptyStr(xs[0]) then Some(xs[0]) else FirstNonEmpty(xs[1..])
  }

  lemma {:induction false} FirstNonEmptyConcat(xs: seq<string>, ys: seq<string>)
    ensures FirstNonEmpty(xs + ys) == if FirstNonEmpty(xs).Some? then FirstNonEmpty(xs) else FirstNonEmpty(ys)
  {
    if |xs| > 0 {
      assert (xs + ys)[0] == xs[0];
      assert (xs + ys)[1..] == xs[1..] + ys;
      FirstNonEmptyConcat(xs[1..], ys);
    } else {
      assert xs + ys == ys;
    }
  }

  /** The candidates taken one block at a time. */
  lemma FirstClassCandidate(shop: Shop, productId: int)
    requires productId in shop.products
    ensures var p := shop.products[productId];
      var a := if p.variationId != 0 then [TaxClassOf(shop, p.variationId)] else [];
      var b := if p.parentId != 0 then [TaxClassOf(shop, p.parentId)] else [];
      var c := if PostType(shop, productId) == "product" then [TaxClassOf(shop, productId)] else [];
      FirstNonEmpty(ClassCandidates(shop, productId)) ==
        if FirstNonEmpty(a).Some? then FirstNonEmpty(a)
        else if FirstNonEmpty(b).Some? then FirstNonEmpty(b) else FirstNonEmpty(c)
  {
    var p := shop.products[productId];
    var a := if p.variationId != 0 then [TaxClassOf(shop, p.variationId)] else [];
    var b := if p.parentId != 0 then [TaxClassOf(shop, p.parentId)] else [];
    var c := if PostType(shop, productId) == "product" then [TaxClassOf(shop, productId)] else [];
    FirstNonEmptyConcat(a + b, c);
    FirstNonEmptyConcat(a, b);
  }

  /**
   * get_product_tax_status: `false` for a missing product; else the first
   * non-empty Taxify tax class among the variation's, the parent's and the
   * simple product's; else the mapped tax status, or '' when it is empty.
   */
  function ProductTaxStatus(shop: Shop, values: map<string, Value>, productId: int): (r: Value)
    ensures productId !in shop.products <==> r == VBool(false)
    ensures productId in shop.products ==>
      r == match FirstNonEmpty(ClassCandidates(shop, productId))
           case Some(c) => VStr(c)
           case None =>
             var status := shop.products[productId].taxStatus;
             VStr(if EmptyStr(status) then "" else IsLineItemTaxable(values, status))
  {
    if productId !in shop.products then VBool(false)
    else
      FirstClassCandidate(shop, productId);
      var p := shop.products[productId];
      var variationClass := TaxClassOf(shop, p.variationId);
      var parentClass := TaxClassOf(shop, p.parentId);
      var ownClass := TaxClassOf(shop, productId);
      if p.variationId != 0 && !EmptyStr(variationClass) then VStr(variationClass)
      else if p.parentId != 0 && !EmptyStr(parentClass) then VStr(parentClass)
      else if PostType(shop, productId) == "product" && !EmptyStr(ownClass) then VStr(ownClass)
      else if !EmptyStr(p.taxStatus) then VStr(IsLineItemTaxable(values, p.taxStatus))
      else VStr("")
  }

  // ---------------------------------------------------------------------
  // is_shipping_taxble
  // ---------------------------------------------------------------------

  /**
   * is_shipping_taxble: the `tax_status` of the method's settings option is
   * 'taxable' (loosely compared); the second branch of the source can never
   * run, because its condition implies the first.
   */
  function IsShippingTaxable(values: map<string, Value>, shippingMethod: Value): (r: bool)
    ensures r <==> Get(OptionValue(values, "woocommerce_" + ToStr(shippingMethod) + "_settings"), "tax_status")
                   in {VStr("taxable"), VBool(true)}
  {
    var status := Get(OptionValue(values, "woocommerce_" + ToStr(shippingMethod) + "_settings"), "tax_status");
    !Empty(status) && LooseEqStr(status, "taxable")
  }

  // ---------------------------------------------------------------------
  // find_needle
  // ---------------------------------------------------------------------

  /** Where find_needle cuts: the first case-insensitive match, 0 when there is none. */
  function NeedleCut(haystack: string, needle: string): (p: nat)
    ensures p <= |haystack|
  {
    match StrIPos(haystack, needle)
    case Some(i) => i
    case None => 0
  }

  /**
   * find_needle: the trimmed text before the first case-insensitive
   * occurrence of the needle, `false` when that text is empty in PHP's sense
   * (which it is whenever the needle is absent).
   */
  function FindNeedle(haystack: string, needle: string): (r: Value)
    ensures r == VBool(false) || r.VStr?
    ensures r.VStr? ==> !EmptyStr(r.s) && r.s == Trim(haystack[..NeedleCut(haystack, needle)])
    ensures r == VBool(false) <==> EmptyStr(Trim(haystack[..NeedleCut(haystack, needle)]))
  {
    var result := Trim(haystack[..NeedleCut(haystack, needle)]);
    if !EmptyStr(result) then VStr(result) else VBool(false)
  }

  /** A found prefix sits before an occurrence of the needle, and before no earlier one. */
  lemma FindNeedleFound(haystack: string, needle: string)
    requires FindNeedle(haystack, needle).VStr?
    ensures exists p :: (0 < p <= |haystack| && MatchesAtCI(haystack, needle, p)
      && FindNeedle(haystack, needle).s == Trim(haystack[..p])
      && forall j :: 0 <= j < p ==> !MatchesAtCI(haystack, needle, j))
  {
    var p := NeedleCut(haystack, needle);
    assert haystack[..0] == "";
    assert p > 0;
    assert StrIPos(haystack, needle).Some?;
  }

  /** Without an occurrence of the needle there is no prefix. */
  lemma FindNeedleAbsent(haystack: string, needle: string)
    requires forall j :: 0 <= j <= |haystack| ==> !MatchesAtCI(haystack, needle, j)
    ensures FindNeedle(haystack, needle) == VBool(false)
  {
    assert haystack[..0] == "";
  }

  // ---------------------------------------------------------------------
  // get_sku
  // ---------------------------------------------------------------------

  /**
   * get_sku: the product's SKU when non-empty, else its post slug lower-cased,
   * else `false`; `false` for an empty id. `None` is the fatal error the
   * source raises when it asks a missing product for its SKU.
   */
  function GetSku(shop: Shop, productId: int): (r: Option<Value>)
    ensures productId == 0 ==> r == Some(VBool(false))
    ensures productId != 0 ==> (r.None? <==> productId !in shop.products)
    ensures r.Some? && productId != 0 ==> var sku := shop.products[productId].sku;
      if !EmptyStr(sku) then r.value == VStr(sku)
      else if productId in shop.posts then r.value == VStr(Lower(shop.posts[productId].name))
      else r.value == VBool(false)
  {
    if productId == 0 then Some(VBool(false))
    else if productId !in shop.products then None
    else
      var sku := shop.products[productId].sku;
      if !EmptyStr(sku) then Some(VStr(sku))
      else if productId in shop.posts then Some(VStr(Lower(shop.posts[productId].name)))
      else Some(VBool(false))
  }

  lemma {:induction false} LowerIdempotent(s: string)
    ensures Lower(Lower(s)) == Lower(s)
  {
    var l := Lower(s);
    assert forall i :: 0 <= i < |s| ==> Lower(l)[i] == LowerChar(LowerChar(s[i])) == l[i];
  }

  /** A SKU taken from the post slug has no capital letters left. */
  lemma GetSkuSlugIsLower(shop: Shop, productId: int)
    requires productId in shop.products && EmptyStr(shop.products[productId].sku)
    requires GetSku(shop, productId).Some? && GetSku(shop, productId).value.VStr?
    ensures Lower(GetSku(shop, productId).value.s) == GetSku(shop, productId).value.s
  {
    LowerIdempotent(shop.posts[productId].name);
  }

  // ---------------------------------------------------------------------
  // Flags read from order metadata and post status
  // ---------------------------------------------------------------------

  /** `! empty( $v ) && $v == 'yes'`: the string 'yes' or the boolean true. */
  function IsYes(v: Value): (r: bool)
    ensures r <==> v in {VStr("yes"), VBool(true)}
  {
    !Empty(v) && LooseEqStr(v, "yes")
  }

  /** What a store read returns for a key of the order it resolved. */
  function MetaOf(store: Store, key: string): Value
    reads store
    requires store.Valid()
  {
    if store.cached.Some? then MetaGet(store.orders[store.cached.value].meta, key) else VBool(false)
  }

  /** is_commited_to_taxify: `_taxify_is_commited` is 'yes'. */
  method IsCommittedToTaxify(store: Store, orderId: int) returns (r: bool)
    requires store.Valid()
    modifies store
    ensures store.orders == old(store.orders) && store.Valid()
    ensures store.cached == Target(old(store.cached), store.orders, orderId)
    ensures r <==> MetaOf(store, "_taxify_is_commited") in {VStr("yes"), VBool(true)}
  {
    var v := store.GetMeta(orderId, "_taxify_is_commited");
    r := IsYes(v);
  }

  /** tax_exempt_status: 'exempt' when `taxify_exempt` is 'yes', else ''. */
  method TaxExemptStatus(store: Store, orderId: int) returns (r: string)
    requires store.Valid()
    modifies store
    ensures store.orders == old(store.orders) && store.Valid()
    ensures store.cached == Target(old(store.cached), store.orders, orderId)
    ensures r == (if MetaOf(store, "taxify_exempt") in {VStr("yes"), VBool(true)} then "exempt" else "")
  {
    var v := store.GetMeta(orderId, "taxify_exempt");
    r := if IsYes(v) then "exempt" else "";
  }

  /** is_order_tax_exempt: `taxify_exempt` is 'yes'. */
  method IsOrderTaxExempt(store: Store, orderId: int) returns (r: bool)
    requires store.Valid()
    modifies store
    ensures store.orders == old(store.orders) && store.Valid()
    ensures store.cached == Target(old(store.cached), store.orders, orderId)
    ensures r <==> MetaOf(store, "taxify_exempt") in {VStr("yes"), VBool(true)}
  {
    var v := store.GetMeta(orderId, "taxify_exempt");
    r := IsYes(v);
  }

  /**
   * get_postmeta_customer_id: the order's customer id when non-zero, else its
   * `_taxify_cart_document_key`; both reads go to the same resolved order.
   */
  method PostmetaCustomerId(store: Store, orderId: int) returns (r: Value)
    requires store.Valid()
    modifies store
    ensures store.orders == old(store.orders) && store.Valid()
    ensures store.cached == Target(old(store.cached), store.orders, orderId)
    ensures store.cached.None? ==> r == VBool(false)
    ensures store.cached.Some? ==> var o := store.orders[store.cached.value];
      r == if o.customerId != 0 then VInt(o.customerId) else MetaGet(o.meta, "_taxify_cart_document_key")
  {
    var customerUser := store.GetCustomerId(orderId);
    var documentKey := store.GetMeta(orderId, "_taxify_cart_document_key");
    r := if !Empty(customerUser) then customerUser else documentKey;
  }

  /** get_order_status: the post status, `false` ('') for an empty id. */
  function OrderStatus(shop: Shop, orderId: int): string
  {
    if orderId != 0 then PostStatus(shop, orderId) else ""
  }

  /** is_order_status_completed: the status is `wc-completed` or `completed`. */
  function IsOrderStatusCompleted(shop: Shop, orderId: int): (r: bool)
    ensures r <==> orderId != 0 && PostStatus(shop, orderId) in {"wc-completed", "completed"}
  {
    var status := OrderStatus(shop, orderId);
    if EmptyStr(status) then false
    else if status == "wc-completed" then true
    else status == "completed"
  }

  /** is_order_status_refunded: the status is `wc-refunded` or `refunded`. */
  function IsOrderStatusRefunded(shop: Shop, orderId: int): (r: bool)
    ensures r <==> orderId != 0 && PostStatus(shop, orderId) in {"wc-refunded", "refunded"}
  {
    var status := OrderStatus(shop, orderId);
    if EmptyStr(status) then false
    else if status == "wc-refunded" then true
    else status == "refunded"
  }

  /** order_exists: a post with that id exists. */
  predicate OrderExists(shop: Shop, postId: int)
  {
    postId in shop.posts
  }

  // ---------------------------------------------------------------------
  // get_taxify_tax_classes
  // ---------------------------------------------------------------------

  /** `explode( "\n", $s )`. */
  function Explode(s: string): (r: seq<string>)
    ensures |r| >= 1
    ensures forall i :: 0 <= i < |r| ==> '\n' !in r[i]
  {
    if |s| == 0 then [""]
    else
      var rest := Explode(s[1..]);
      if s[0] == '\n' then [""] + rest else [[s[0]] + rest[0]] + rest[1..]
  }

  /** `implode( "\n", $pieces )`. */
  function Implode(pieces: seq<string>): string
    requires |pieces| >= 1
  {
    if |pieces| == 1 then pieces[0] else pieces[0] + "\n" + Implode(pieces[1..])
  }

  /** Splitting and joining again gives the text back. */
  lemma {:induction false} ImplodeExplode(s: string)
    ensures Implode(Explode(s)) == s
  {
    if |s| > 0 {
      var rest := Explode(s[1..]);
      ImplodeExplode(s[1..]);
      if s[0] == '\n' {
        assert ([""] + rest)[1..] == rest;
        assert s == [s[0]] + s[1..];
      } else {
        var r := [[s[0]] + rest[0]] + rest[1..];
        if |rest| == 1 {
          assert s == [s[0]] + rest[0];
        } else {
          assert r[1..] == rest[1..];
          assert Implode(rest) == rest[0] + "\n" + Implode(rest[1..]);
          assert s == [s[0]] + s[1..];
        }
      }
    }
  }

  /** `array_filter( array_map( 'trim', $pieces ) )`: trimmed pieces, empty ones dropped, keys kept. */
  function KeepTrimmed(pieces: seq<string>): seq<Entry>
  {
    if |pieces| == 0 then []
    else
      var t := Trim(pieces[|pieces| - 1]);
      KeepTrimmed(pieces[..|pieces| - 1])
      + (if EmptyStr(t) then [] else [Entry(IK(|pieces| - 1), VStr(t))])
  }

  /** Piece `i` is present, trimmed, at key `i` exactly when its trimmed text is non-empty. */
  lemma {:induction false} KeepTrimmedLookup(pieces: seq<string>, i: int)
    ensures Lookup(KeepTrimmed(pieces), IK(i)) ==
      if 0 <= i < |pieces| && !EmptyStr(Trim(pieces[i])) then Some(VStr(Trim(pieces[i]))) else None
  {
    if |pieces| > 0 {
      var init := pieces[..|pieces| - 1];
      var t := Trim(pieces[|pieces| - 1]);
      var tail := if EmptyStr(t) then [] else [Entry(IK(|pieces| - 1), VStr(t))];
      KeepTrimmedLookup(init, i);
      LookupConcat(KeepTrimmed(init), tail, IK(i));
      if 0 <= i < |pieces| - 1 {
        assert init[i] == pieces[i];
      }
    }
  }

  /**
   * get_taxify_tax_classes: the `wc_taxify_tax_classes` option, or when it is
   * empty the text the API lookup returns (an input here), split into lines.
   */
  function TaxifyTaxClasses(values: map<string, Value>, fromApi: Value): (r: seq<Entry>)
    ensures var classes := OptionValue(values, "wc_taxify_tax_classes");
      var lines := Explode(ToStr(if !Empty(classes) then classes else fromApi));
      forall i :: Lookup(r, IK(i)) ==
        if 0 <= i < |lines| && !EmptyStr(Trim(lines[i])) then Some(VStr(Trim(lines[i]))) else None
  {
    var classes := OptionValue(values, "wc_taxify_tax_classes");
    var lines := Explode(ToStr(if !Empty(classes) then classes else fromApi));
    var r := KeepTrimmed(lines);
    assert forall i :: (Lookup(r, IK(i)) ==
        if 0 <= i < |lines| && !EmptyStr(Trim(lines[i])) then Some(VStr(Trim(lines[i]))) else None)
    by {
      forall i {
        KeepTrimmedLookup(lines, i);
      }
    }
    r
  }

  // ---------------------------------------------------------------------
  // find_rates
  // ---------------------------------------------------------------------

  /** `$taxify_rate_id != $rate_id`, negated: the key loosely equals the Taxify rate id. */
  predicate IsTaxifyRate(rateId: Value, k: Key)
  {
    match k
    case IK(n) => LooseEqInt(rateId, n)
    case SK(s) => LooseEqStr(rateId, s)
  }

  /** The filter applies to a non-empty rate array for a US (`US`/`us`) lookup. */
  predicate FindRatesApplies(matched: Value, args: Value)
  {
    !Empty(matched) && matched.VArr? && !Empty(args)
    && (LooseEqStr(Get(args, "country"), "US") || LooseEqStr(Get(args, "country"), "us"))
  }

  /**
   * find_rates: for a US lookup, no rates at all as soon as one matched rate
   * is not the Taxify rate; otherwise the matched rates unchanged.
   */
  method FindRates(matched: Value, args: Value, rateId: Value) returns (r: Value)
    ensures FindRatesApplies(matched, args) && (exists i :: 0 <= i < |matched.a| && !IsTaxifyRate(rateId, matched.a[i].k))
      ==> r == VArr([])
    ensures !(FindRatesApplies(matched, args) && (exists i :: 0 <= i < |matched.a| && !IsTaxifyRate(rateId, matched.a[i].k)))
      ==> r == matched
  {
    if FindRatesApplies(matched, args) {
      var rates := matched.a;
      var i := 0;
      while i < |rates|
        invariant 0 <= i <= |rates|
        invariant forall j :: 0 <= j < i ==> IsTaxifyRate(rateId, rates[j].k)
      {
        if !IsTaxifyRate(rateId, rates[i].k) {
          return VArr([]);
        }
        i := i + 1;
      }
    }
    return matched;
  }

  // ---------------------------------------------------------------------
  // get_cart_tax_address
  // ---------------------------------------------------------------------

  /** One set of a customer's address fields. */
  datatype CustomerAddress = CustomerAddress(address1: Value, address2: Value, country: Value,
                                             state: Value, city: Value, postcode: Value)

  /** The store's base country, state and postcode. */
  datatype BaseAddress = BaseAddress(country: Value, state: Value, postcode: Value)

  function DestinationFields(c: CustomerAddress): (r: seq<Entry>)
  {
    [Entry(SK("destination_address_1"), c.address1), Entry(SK("destination_address_2"), c.address2),
     Entry(SK("destination_country"), c.country)]
    + [Entry(SK("destination_state"), c.state), Entry(SK("destination_city"), c.city),
       Entry(SK("destination_zip"), c.postcode)]
  }

  function BaseFields(b: BaseAddress): (r: seq<Entry>)
  {
    [Entry(SK("destination_country"), b.country), Entry(SK("destination_state"), b.state),
     Entry(SK("destination_zip"), b.postcode)]
  }

  /**
   * get_cart_tax_address: by `woocommerce_tax_based_on`, the customer's
   * billing or shipping fields, or the store base; `[]` for any other
   * setting. The customer (whichever of the two customer objects the source
   * asks) is an input.
   */
  function CartTaxAddress(taxBasedOn: Value, billing: CustomerAddress, shipping: CustomerAddress,
                          base: BaseAddress): (r: seq<Entry>)
  {
    if Empty(taxBasedOn) then []
    else if LooseEqStr(taxBasedOn, "billing") then DestinationFields(billing)
    else if LooseEqStr(taxBasedOn, "shipping") then DestinationFields(shipping)
    else if LooseEqStr(taxBasedOn, "base") then BaseFields(base)
    else []
  }

  lemma DestinationFieldsKeys(c: CustomerAddress)
    ensures UniqueKeys(DestinationFields(c)) && LowerKeys(DestinationFields(c))
  {
    assert NoUpper("destination_address_1") && NoUpper("destination_address_2") && NoUpper("destination_country")
      && NoUpper("destination_state") && NoUpper("destination_city") && NoUpper("destination_zip");
  }

  lemma DestinationFieldsLookup(c: CustomerAddress)
    ensures Lookup(DestinationFields(c), SK("destination_country")) == Some(c.country)
    ensures Lookup(DestinationFields(c), SK("destination_state")) == Some(c.state)
    ensures Lookup(DestinationFields(c), SK("destination_zip")) == Some(c.postcode)
  {
    var e1, e2, e3 := Entry(SK("destination_address_1"), c.address1), Entry(SK("destination_address_2"), c.address2),
                      Entry(SK("destination_country"), c.country);
    var e4, e5, e6 := Entry(SK("destination_state"), c.state), Entry(SK("destination_city"), c.city),
                      Entry(SK("destination_zip"), c.postcode);
    LookupConcat([e1, e2, e3], [e4, e5, e6], SK("destination_country"));
    LookupConcat([e1, e2, e3], [e4, e5, e6], SK("destination_state"));
    LookupConcat([e1, e2, e3], [e4, e5, e6], SK("destination_zip"));
    LookupThree(e1, e2, e3, SK("destination_country"));
    LookupThree(e1, e2, e3, SK("destination_state"));
    LookupThree(e1, e2, e3, SK("destination_zip"));
    LookupThree(e4, e5, e6, SK("destination_state"));
    LookupThree(e4, e5, e6, SK("destination_zip"));
  }

  lemma BaseFieldsKeys(b: BaseAddress)
    ensures UniqueKeys(BaseFields(b)) && LowerKeys(BaseFields(b))
  {
    assert NoUpper("destination_country") && NoUpper("destination_state") && NoUpper("destination_zip");
  }

  lemma BaseFieldsLookup(b: BaseAddress)
    ensures Lookup(BaseFields(b), SK("destination_country")) == Some(b.country)
    ensures Lookup(BaseFields(b), SK("destination_state")) == Some(b.state)
    ensures Lookup(BaseFields(b), SK("destination_zip")) == Some(b.postcode)
  {
    var e1, e2, e3 := Entry(SK("destination_country"), b.country), Entry(SK("destination_state"), b.state),
                      Entry(SK("destination_zip"), b.postcode);
    LookupThree(e1, e2, e3, SK("destination_country"));
    LookupThree(e1, e2, e3, SK("destination_state"));
    LookupThree(e1, e2, e3, SK("destination_zip"));
  }

  /** The lower-cased text of one value, '' for an array. */
  function LoweredText(v: Value): string
  {
    if v.VArr? then "" else Lower(ToStr(v))
  }

  /** A US address on the three fields the rule reads. */
  predicate UsFields(country: Value, state: Value, postcode: Value)
  {
    !EmptyStr(LoweredText(country)) && !EmptyStr(LoweredText(state)) && !EmptyStr(LoweredText(postcode))
    && LoweredText(country) in {"us", "usa", "united states"}
  }

  /** A customer's fields pass valid_address exactly when they form a US address. */
  lemma DestinationFieldsValid(c: CustomerAddress)
    ensures ValidAddress(VArr(DestinationFields(c))) <==> UsFields(c.country, c.state, c.postcode)
  {
    DestinationFieldsKeys(c);
    DestinationFieldsLookup(c);
    ValidAddressIff(DestinationFields(c));
  }

  lemma BaseFieldsUs(b: BaseAddress)
    ensures UsAddress(BaseFields(b)) <==> UsFields(b.country, b.state, b.postcode)
  {
    BaseFieldsLookup(b);
  }

  /** The store base passes valid_address exactly when it forms a US address. */
  lemma BaseFieldsValid(b: BaseAddress)
    ensures ValidAddress(VArr(BaseFields(b))) <==> UsFields(b.country, b.state, b.postcode)
  {
    BaseFieldsKeys(b);
    ValidAddressIff(BaseFields(b));
    BaseFieldsUs(b);
  }

  /**
   * The cart address passes valid_address exactly when the chosen source's
   * country, state and postcode form a US address; an unknown basis never does.
   */
  lemma CartTaxAddressValid(taxBasedOn: Value, billing: CustomerAddress, shipping: CustomerAddress, base: BaseAddress)
    ensures ValidAddress(VArr(CartTaxAddress(taxBasedOn, billing, shipping, base))) <==>
      if Empty(taxBasedOn) then false
      else if LooseEqStr(taxBasedOn, "billing") then UsFields(billing.country, billing.state, billing.postcode)
      else if LooseEqStr(taxBasedOn, "shipping") then UsFields(shipping.country, shipping.state, shipping.postcode)
      else if LooseEqStr(taxBasedOn, "base") then UsFields(base.country, base.state, base.postcode)
      else false
  {
    if Empty(taxBasedOn) {
    } else if LooseEqStr(taxBasedOn, "billing") {
      DestinationFieldsValid(billing);
    } else if LooseEqStr(taxBasedOn, "shipping") {
      DestinationFieldsValid(shipping);
    } else if LooseEqStr(taxBasedOn, "base") {
      BaseFieldsValid(base);
    }
  }
}
