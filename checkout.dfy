/**
 * The cart reconciliation (includes/wc-taxify-checkout.php).
 *
 * `WC_Taxify_Checkout` is a singleton whose fields survive from one cart
 * recalculation to the next. `calculate_totals` sends the cart to
 * CalculateTax under the one document key the object was built with, joins
 * the answer back onto the cart rows in place, picks the total tax, writes
 * the cart's tax fields, and zeroes them again for an exempt session;
 * `calculated_total` then adds the remembered taxes to the cart total.
 *
 * The first half of the module says what one recalculation computes, as
 * functions of the values it reads; the second half is the two objects,
 * the cart and the singleton, whose methods are proved against them.
 */
module Checkout {
  import opened Php
  import opened Host
  import opened Plugin
  import opened Tax
  import opened SoapApi
  import Order

  // ---------------------------------------------------------------------
  // The cart as the plugin sees it
  // ---------------------------------------------------------------------

  /**
   * One `$cart->cart_contents` row: its `product_id` (the parent product
   * for a variation), the id of its `data` product object (the variation
   * itself), `line_total`, `quantity`, the product's title and tax status,
   * and the tax fields the join writes: `line_tax`, `line_subtotal_tax`
   * and the `total` and `subtotal` maps of `line_tax_data`, keyed by rate.
   */
  datatype CartItem = CartItem(productId: int, dataId: int, lineTotal: int, quantity: Value,
                               title: string, taxStatus: string,
                               lineTax: int, lineSubtotalTax: int,
                               taxTotal: map<int, int>, taxSubtotal: map<int, int>)

  /**
   * The cart's tax setters' state: `shipping_taxes`, `shipping_tax`,
   * `cart_contents_tax`, `fee_tax`, `cart_contents_taxes` and `total_tax`.
   */
  datatype CartTaxes = CartTaxes(shippingTaxes: map<int, int>, shippingTax: int, contentsTax: int,
                                 feeTax: int, contentsTaxes: map<int, int>, totalTax: int)

  /** A customer's billing and shipping address fields. */
  datatype Profile = Profile(billing: CustomerAddress, shipping: CustomerAddress)

  /**
   * What the request reads outside the cart: `get_cart_customer_id()`, the
   * session's `taxify_tax_exempt` and first `chosen_shipping_methods`
   * entry, the stored customer `new WC_Customer( $id )` loads and the
   * session customer `WC()->customer`.
   */
  datatype Visitor = Visitor(cartCustomerId: Value, exempt: Value, chosenShipping: string,
                             stored: Profile, session: Profile)

  // ---------------------------------------------------------------------
  // The request: customer, address, data and lines
  // ---------------------------------------------------------------------

  /** A guest's customer id is 0. */
  function CustomerIdOf(id: int): nat
  {
    if id > 0 then id else 0
  }

  /**
   * get_cart_tax_address for a customer id: a registered customer's stored
   * addresses, the session customer's for a guest.
   */
  function CartAddress(values: map<string, Value>, v: Visitor, base: BaseAddress, customerId: nat): seq<Entry>
  {
    var p := if customerId != 0 then v.stored else v.session;
    CartTaxAddress(OptionValue(values, "woocommerce_tax_based_on"), p.billing, p.shipping, base)
  }

  /**
   * The cart address is valid exactly when the chosen source's country,
   * state and postcode form a US address; an unknown basis never is.
   */
  lemma CartAddressValid(values: map<string, Value>, v: Visitor, base: BaseAddress, customerId: nat)
    ensures ValidAddress(VArr(CartAddress(values, v, base, customerId))) <==>
      var p := if customerId != 0 then v.stored else v.session;
      var basedOn := OptionValue(values, "woocommerce_tax_based_on");
      if Empty(basedOn) then false
      else if LooseEqStr(basedOn, "billing") then UsFields(p.billing.country, p.billing.state, p.billing.postcode)
      else if LooseEqStr(basedOn, "shipping") then UsFields(p.shipping.country, p.shipping.state, p.shipping.postcode)
      else if LooseEqStr(basedOn, "base") then UsFields(base.country, base.state, base.postcode)
      else false
  {
    var p := if customerId != 0 then v.stored else v.session;
    CartTaxAddressValid(OptionValue(values, "woocommerce_tax_based_on"), p.billing, p.shipping, base);
  }

  /** The customer key: the cart customer id when non-empty, else the customer id (0 for a guest). */
  function CartCustomerKey(v: Visitor, customerId: nat): (r: Value)
    ensures !Empty(r) || r == VInt(0)
    ensures Empty(v.cartCustomerId) ==> r == VInt(customerId)
  {
    if !Empty(v.cartCustomerId) then v.cartCustomerId else VInt(customerId)
  }

  /** The `$data` keys written before the address is merged in. */
  function CartHead(documentKey: string, customerKey: Value, exempt: Value): seq<Entry>
  {
    [Entry(SK("document_key"), VStr(documentKey)), Entry(SK("is_commited"), VBool(false)),
     Entry(SK("customer_key"), customerKey), Entry(SK("is_exempt"), exempt)]
    + [Entry(SK("discount_discount_type"), VStr("cart"))]
  }

  /** The `$data` the cart is filed with: the head, then the address fields. */
  function CartData(documentKey: string, customerKey: Value, exempt: Value, address: seq<Entry>): seq<Entry>
  {
    MergeStr(CartHead(documentKey, customerKey, exempt), address)
  }

  predicate HeadKey(k: Key)
  {
    k == SK("document_key") || k == SK("is_commited") || k == SK("customer_key") || k == SK("is_exempt")
  }

  /** None of the head's keys is an address key. */
  predicate AddressKeysOnly(address: seq<Entry>)
  {
    forall k :: 0 <= k < |address| ==> !HeadKey(address[k].k)
  }

  /** Every address get_cart_tax_address builds has only `destination_` keys. */
  lemma CartAddressKeys(values: map<string, Value>, v: Visitor, base: BaseAddress, customerId: nat)
    ensures AddressKeysOnly(CartAddress(values, v, base, customerId))
  {
    var p := if customerId != 0 then v.stored else v.session;
    var basedOn := OptionValue(values, "woocommerce_tax_based_on");
    var a := CartAddress(values, v, base, customerId);
    assert a == CartTaxAddress(basedOn, p.billing, p.shipping, base);
    if Empty(basedOn) {
    } else if LooseEqStr(basedOn, "billing") {
      DestinationKeysOnly(p.billing);
    } else if LooseEqStr(basedOn, "shipping") {
      DestinationKeysOnly(p.shipping);
    } else if LooseEqStr(basedOn, "base") {
      var b := Tax.BaseFields(base);
      assert |b| == 3 && b[0].k == SK("destination_country") && b[1].k == SK("destination_state")
        && b[2].k == SK("destination_zip");
    }
  }

  lemma DestinationKeysOnly(c: CustomerAddress)
    ensures AddressKeysOnly(Tax.DestinationFields(c))
  {
    var d := Tax.DestinationFields(c);
    assert |d| == 6 && d[0].k == SK("destination_address_1") && d[1].k == SK("destination_address_2")
      && d[2].k == SK("destination_country") && d[3].k == SK("destination_state")
      && d[4].k == SK("destination_city") && d[5].k == SK("destination_zip");
  }

  /**
   * Whatever the address, the request carries the object's document key,
   * `is_commited` false, the customer key and the session's exempt flag.
   */
  lemma CartDataFields(documentKey: string, customerKey: Value, exempt: Value, address: seq<Entry>)
    requires AddressKeysOnly(address)
    ensures var data := CartData(documentKey, customerKey, exempt, address);
      Lookup(data, SK("document_key")) == Some(VStr(documentKey))
      && Lookup(data, SK("is_commited")) == Some(VBool(false))
      && Lookup(data, SK("customer_key")) == Some(customerKey)
      && Lookup(data, SK("is_exempt")) == Some(exempt)
  {
    var head := CartHead(documentKey, customerKey, exempt);
    var e1, e2 := Entry(SK("document_key"), VStr(documentKey)), Entry(SK("is_commited"), VBool(false));
    var e3, e4 := Entry(SK("customer_key"), customerKey), Entry(SK("is_exempt"), exempt);
    var e5 := Entry(SK("discount_discount_type"), VStr("cart"));
    LookupConcat([e1, e2, e3, e4], [e5], SK("document_key"));
    LookupConcat([e1, e2, e3, e4], [e5], SK("is_commited"));
    LookupConcat([e1, e2, e3, e4], [e5], SK("customer_key"));
    LookupConcat([e1, e2, e3, e4], [e5], SK("is_exempt"));
    LookupFour(e1, e2, e3, e4, SK("document_key"));
    LookupFour(e1, e2, e3, e4, SK("is_commited"));
    LookupFour(e1, e2, e3, e4, SK("customer_key"));
    LookupFour(e1, e2, e3, e4, SK("is_exempt"));
    MergeStrAbsent(head, address, SK("document_key"));
    MergeStrAbsent(head, address, SK("is_commited"));
    MergeStrAbsent(head, address, SK("customer_key"));
    MergeStrAbsent(head, address, SK("is_exempt"));
  }

  /** Merging in entries that never use a key leaves what the key reads. */
  lemma {:induction false} MergeStrAbsent(a: seq<Entry>, b: seq<Entry>, k: Key)
    requires forall j :: 0 <= j < |b| ==> b[j].k != k
    ensures Lookup(MergeStr(a, b), k) == Lookup(a, k)
  {
    if |b| > 0 {
      var init := b[..|b| - 1];
      assert forall j :: 0 <= j < |init| ==> init[j] == b[j];
      MergeStrAbsent(a, init, k);
      PutOtherKey(MergeStr(a, init), b[|b| - 1].k, b[|b| - 1].v, k);
    }
  }

  lemma PutOtherKey(a: seq<Entry>, k: Key, v: Value, k': Key)
    requires k != k'
    ensures Lookup(Put(a, k, v), k') == Lookup(a, k')
  {
  }

  // ---------------------------------------------------------------------
  // get_cart_line_items, get_shipping_cost, get_shipping_method
  // ---------------------------------------------------------------------

  /**
   * One cart line for the API. The line is numbered with the id of the
   * row's product object, the variation for a variable product; its item
   * key is the SKU without the store prefix. `None` is the fatal error of
   * asking a missing product for its SKU.
   */
  function ItemLine(shop: Shop, values: map<string, Value>, item: CartItem): (r: Option<Value>)
    ensures r.None? <==> GetSku(shop, item.dataId).None?
  {
    match GetSku(shop, item.dataId)
    case None => None
    case Some(sku) => Some(VArr(LineFields(values, item, sku)))
  }

  /** The fields of a cart line, in the order the source writes them. */
  function LineFields(values: map<string, Value>, item: CartItem, sku: Value): seq<Entry>
  {
    [Entry(SK("LineNumber"), VInt(item.dataId)),
     Entry(SK("ItemKey"), sku),
     Entry(SK("ActualExtendedPrice"), VInt(item.lineTotal)),
     Entry(SK("TaxIncludedInPrice"), VBool(Tax.PricesIncludeTax(values))),
     Entry(SK("Quantity"), item.quantity),
     Entry(SK("ItemDescription"), VStr(item.title)),
     Entry(SK("ItemTaxabilityCode"), VStr(IsLineItemTaxable(values, item.taxStatus))),
     Entry(SK("ItemCategories"), VStr("taxify"))]
  }

  /** A line is numbered with the row's product object id. */
  lemma LineNumbered(shop: Shop, values: map<string, Value>, item: CartItem)
    requires ItemLine(shop, values, item).Some?
    ensures Get(ItemLine(shop, values, item).value, "LineNumber") == VInt(item.dataId)
  {
    var fields := LineFields(values, item, GetSku(shop, item.dataId).value);
    assert fields[0] == Entry(SK("LineNumber"), VInt(item.dataId));
  }

  function ItemLines(shop: Shop, values: map<string, Value>, items: seq<CartItem>): (r: seq<Option<Value>>)
    ensures |r| == |items| && forall k :: 0 <= k < |items| ==> r[k] == ItemLine(shop, values, items[k])
  {
    seq(|items|, k requires 0 <= k < |items| => ItemLine(shop, values, items[k]))
  }

  /** What get_cart_line_items returns for the cart's rows. */
  function CartItemLines(shop: Shop, values: map<string, Value>, items: seq<CartItem>): Option<seq<Entry>>
  {
    if |items| > 0 then Order.Collect(ItemLines(shop, values, items)) else Some([])
  }

  /**
   * One line per cart row, in order, keyed 0, 1, ..., numbered with the
   * row's product object id; fatal exactly when some row's product is missing.
   */
  lemma CartItemLinesShape(shop: Shop, values: map<string, Value>, items: seq<CartItem>)
    ensures var r := CartItemLines(shop, values, items);
      (r.None? <==> exists k :: 0 <= k < |items| && GetSku(shop, items[k].dataId).None?)
      && (r.Some? ==>
            (|r.value| == |items|
             && forall k :: 0 <= k < |items| ==>
                  r.value[k] == Entry(IK(k), ItemLine(shop, values, items[k]).value)
                  && Get(r.value[k].v, "LineNumber") == VInt(items[k].dataId)))
  {
    if |items| > 0 {
      Order.CollectShape(ItemLines(shop, values, items));
      forall k | 0 <= k < |items| && ItemLine(shop, values, items[k]).Some?
        ensures Get(ItemLine(shop, values, items[k]).value, "LineNumber") == VInt(items[k].dataId)
      {
        LineNumbered(shop, values, items[k]);
      }
    }
  }

  /** One fatal line makes the whole list fatal. */
  lemma CollectStops(lines: seq<Option<Value>>, i: int)
    requires 0 <= i < |lines| && lines[i].None?
    ensures Order.Collect(lines).None?
  {
    Order.CollectShape(lines);
  }

  /** get_cart_line_items: the loop over the cart's rows. */
  method GetCartLineItems(shop: Shop, values: map<string, Value>, items: seq<CartItem>)
    returns (r: Option<seq<Entry>>)
    ensures r == CartItemLines(shop, values, items)
  {
    var lines: seq<Entry> := [];
    if |items| > 0 {
      ghost var all := ItemLines(shop, values, items);
      var i := 0;
      while i < |items|
        invariant 0 <= i <= |items|
        invariant Order.Collect(all[..i]) == Some(lines)
      {
        assert all[..i + 1][..i] == all[..i];
        var line := ItemLine(shop, values, items[i]);
        if line.None? {
          CollectStops(all, i);
          return None;
        }
        lines := lines + [Entry(IK(|lines|), line.value)];
        i := i + 1;
      }
      assert all[..|items|] == all;
    }
    r := Some(lines);
  }

  /** The shipping line: the cart's shipping total as a line keyed `shipping_cost`. */
  function ShippingLine(values: map<string, Value>, shippingTotal: int): Value
  {
    VArr([Entry(SK("ItemKey"), VStr("shipping_cost")),
          Entry(SK("ActualExtendedPrice"), VInt(shippingTotal)),
          Entry(SK("TaxIncludedInPrice"), VBool(Tax.PricesIncludeTax(values))),
          Entry(SK("Quantity"), VStr("1")),
          Entry(SK("ItemTaxabilityCode"), VStr("Shipping"))])
  }

  /** get_shipping_cost: one shipping line, or none for an empty shipping total. */
  function ShippingCost(values: map<string, Value>, shippingTotal: int): (r: seq<Entry>)
    ensures shippingTotal == 0 <==> r == []
    ensures shippingTotal != 0 ==> r == [Entry(IK(0), ShippingLine(values, shippingTotal))]
  {
    if shippingTotal != 0 then [Entry(IK(0), ShippingLine(values, shippingTotal))] else []
  }

  /**
   * get_shipping_method: the id of the session's first chosen method, by
   * the same rule as for an order's first shipping line.
   */
  function ChosenShippingMethod(chosen: string): (r: Value)
    ensures r == VBool(false) || (r.VStr? && !EmptyStr(r.s))
    ensures r.VStr? && |chosen| > 0 && IsDigit(chosen[|chosen| - 1]) ==> ':' !in r.s && |r.s| == |chosen|
  {
    Order.ShippingIdOf(chosen)
  }

  /** Whether the shipping line goes out: a non-empty shipping total and a taxable chosen method. */
  predicate ShipsTaxably(values: map<string, Value>, v: Visitor, shippingTotal: int)
  {
    shippingTotal != 0 && IsShippingTaxable(values, ChosenShippingMethod(v.chosenShipping))
  }

  /** The lines sent: the cart lines, with the shipping line merged in when shipping is taxable. */
  function SentLines(values: map<string, Value>, v: Visitor, items: seq<Entry>, shippingTotal: int): seq<Entry>
  {
    if ShipsTaxably(values, v, shippingTotal) && |ShippingCost(values, shippingTotal)| > 0
    then ListMerge(items, ShippingCost(values, shippingTotal))
    else items
  }

  /**
   * The inner non-empty check never fails: with taxable shipping the
   * shipping line is always the last line sent, and otherwise the lines
   * are the cart lines alone.
   */
  lemma SentLinesShape(values: map<string, Value>, v: Visitor, items: seq<Entry>, shippingTotal: int)
    requires forall k :: 0 <= k < |items| ==> items[k].k == IK(k)
    ensures var lines := SentLines(values, v, items, shippingTotal);
      if ShipsTaxably(values, v, shippingTotal)
      then lines == items + [Entry(IK(|items|), ShippingLine(values, shippingTotal))]
      else lines == items
  {
    if ShipsTaxably(values, v, shippingTotal) {
      MergeOneLine(items, ShippingLine(values, shippingTotal));
    }
  }

  /** Merging one more line onto a list keyed 0, 1, ... appends it under the next key. */
  lemma MergeOneLine(items: seq<Entry>, line: Value)
    requires forall k :: 0 <= k < |items| ==> items[k].k == IK(k)
    ensures ListMerge(items, [Entry(IK(0), line)]) == items + [Entry(IK(|items|), line)]
  {
    var lines := ListMerge(items, [Entry(IK(0), line)]);
    var want := items + [Entry(IK(|items|), line)];
    forall k | 0 <= k < |items|
      ensures lines[k] == want[k]
    {
      assert items[k] == Entry(IK(k), items[k].v);
    }
    assert lines[|items|] == want[|items|];
  }

  /**
   * The CalculateTax call one recalculation makes, if any: none for an
   * empty cart or an invalid address, and none when building the lines is
   * fatal; otherwise the cart data, the lines and no refunds.
   */
  function CartCall(shop: Shop, values: map<string, Value>, today: string, v: Visitor, base: BaseAddress,
                    documentKey: string, customerId: int, shippingTotal: int, items: seq<CartItem>): Option<ApiCall>
  {
    var id := CustomerIdOf(customerId);
    var address := CartAddress(values, v, base, id);
    if |items| == 0 || !ValidAddress(VArr(address)) then None
    else match RequestLines(shop, values, v, shippingTotal, items)
      case None => None
      case Some(lines) => Some(CalculateCall(CartData(documentKey, CartCustomerKey(v, id), v.exempt, address), lines, [], today))
  }

  /** The lines calculate_totals sends, `None` when building them is fatal. */
  function RequestLines(shop: Shop, values: map<string, Value>, v: Visitor, shippingTotal: int, items: seq<CartItem>)
    : Option<seq<Entry>>
  {
    match CartItemLines(shop, values, items)
    case None => None
    case Some(lines) => Some(SentLines(values, v, lines, shippingTotal))
  }

  /** The cart lines, with the shipping line when the chosen method is taxable. */
  method GetRequestLines(shop: Shop, values: map<string, Value>, v: Visitor, shippingTotal: int, items: seq<CartItem>)
    returns (r: Option<seq<Entry>>)
    ensures r == RequestLines(shop, values, v, shippingTotal, items)
  {
    var cartLines := GetCartLineItems(shop, values, items);
    if cartLines.None? {
      return None;
    }
    var lines := cartLines.value;
    if shippingTotal != 0 && IsShippingTaxable(values, ChosenShippingMethod(v.chosenShipping)) {
      var shippingCost := ShippingCost(values, shippingTotal);
      if |shippingCost| > 0 {
        lines := ListMerge(cartLines.value, shippingCost);
      }
    }
    r := Some(lines);
  }

  /**
   * A call is made only for a non-empty cart with a valid address, and
   * always for such a cart unless a product is missing; each one carries
   * the object's document key with `is_commited` false, and no refunds.
   */
  lemma CartCallGuard(shop: Shop, values: map<string, Value>, today: string, v: Visitor, base: BaseAddress,
                      documentKey: string, customerId: int, shippingTotal: int, items: seq<CartItem>)
    ensures var call := CartCall(shop, values, today, v, base, documentKey, customerId, shippingTotal, items);
      var address := CartAddress(values, v, base, CustomerIdOf(customerId));
      (call.Some? <==> |items| > 0 && ValidAddress(VArr(address)) && CartItemLines(shop, values, items).Some?)
      && (call.Some? ==>
            call.value.CalculateCall? && call.value.refunds == [] && call.value.today == today
            && Lookup(call.value.data, SK("document_key")) == Some(VStr(documentKey))
            && Lookup(call.value.data, SK("is_commited")) == Some(VBool(false))
            && Lookup(call.value.data, SK("is_exempt")) == Some(v.exempt))
  {
    var id := CustomerIdOf(customerId);
    var address := CartAddress(values, v, base, id);
    CartAddressKeys(values, v, base, id);
    CartDataFields(documentKey, CartCustomerKey(v, id), v.exempt, address);
  }

  // ---------------------------------------------------------------------
  // get_shipping_tax
  // ---------------------------------------------------------------------

  /** get_shipping_tax: the amount of the last `shipping_cost` detail, '' when that is empty. */
  function CartShippingTax(r: Response): (t: Value)
    ensures t == VStr("") || (t.VInt? && t.n != 0)
    ensures t != VStr("") ==> t == VInt(Order.ShippingTaxOf(r))
  {
    var amount := Order.ShippingTaxOf(r);
    if amount != 0 then VInt(amount) else VStr("")
  }

  /** get_shipping_tax: the loop keeps the amount of the last `shipping_cost` detail. */
  method GetShippingTax(r: Response) returns (t: Value)
    ensures t == CartShippingTax(r)
  {
    var shippingTax := VNull;
    if HasDetails(r) && r.details.Many? {
      var ds := r.details.ds;
      var i := 0;
      while i < |ds|
        invariant 0 <= i <= |ds|
        invariant shippingTax == VNull || shippingTax.VInt?
        invariant CastInt(shippingTax) == Order.LastShippingTax(ds[..i])
      {
        assert ds[..i + 1][..i] == ds[..i];
        if !EmptyStr(ds[i].itemKey) && ds[i].itemKey == "shipping_cost" {
          shippingTax := VInt(ds[i].amount);
        }
        i := i + 1;
      }
      assert ds[..|ds|] == ds;
    }
    t := if !Empty(shippingTax) then shippingTax else VStr("");
  }

  // ---------------------------------------------------------------------
  // set_and_get_cart_line_items_tax
  // ---------------------------------------------------------------------

  /**
   * The join test: a product detail (non-empty item key, not the shipping
   * line) whose non-empty line number equals the row's `product_id`.
   */
  predicate Joins(d: Detail, item: CartItem)
  {
    !EmptyStr(d.itemKey) && d.itemKey != "shipping_cost" && d.lineNumber != 0 && d.lineNumber == item.productId
  }

  /** The amount of the last detail that joins a row, if any. */
  function LastJoin(ds: seq<Detail>, item: CartItem): (a: Option<int>)
    ensures a.None? <==> forall i :: 0 <= i < |ds| ==> !Joins(ds[i], item)
    ensures a.Some? ==> exists i :: 0 <= i < |ds| && Joins(ds[i], item) && ds[i].amount == a.value
  {
    if |ds| == 0 then None
    else if Joins(ds[|ds| - 1], item) then Some(ds[|ds| - 1].amount)
    else
      var a := LastJoin(ds[..|ds| - 1], item);
      assert forall i :: 0 <= i < |ds| - 1 ==> ds[..|ds| - 1][i] == ds[i];
      a
  }

  /** A row with its four tax fields set to an amount under the rate key. */
  function Taxed(item: CartItem, amount: Option<int>, rate: int): (r: CartItem)
    ensures r.productId == item.productId && r.dataId == item.dataId
  {
    match amount
    case None => item
    case Some(a) =>
      item.(lineTax := a, lineSubtotalTax := a, taxTotal := item.taxTotal[rate := a],
            taxSubtotal := item.taxSubtotal[rate := a])
  }

  /** The rows after the join: each row taxed with the last detail that joins it. */
  function Joined(ds: seq<Detail>, items: seq<CartItem>, rate: int): (r: seq<CartItem>)
    ensures |r| == |items|
    ensures forall k :: 0 <= k < |items| ==> r[k] == Taxed(items[k], LastJoin(ds, items[k]), rate)
  {
    seq(|items|, k requires 0 <= k < |items| => Taxed(items[k], LastJoin(ds, items[k]), rate))
  }

  /** What one detail adds to the sum: its amount once for every row it joins. */
  function DetailSum(d: Detail, items: seq<CartItem>): int
  {
    if |items| == 0 then 0
    else DetailSum(d, items[..|items| - 1]) + (if Joins(d, items[|items| - 1]) then d.amount else 0)
  }

  /** The sum over the details. */
  function JoinSum(ds: seq<Detail>, items: seq<CartItem>): int
  {
    if |ds| == 0 then 0 else JoinSum(ds[..|ds| - 1], items) + DetailSum(ds[|ds| - 1], items)
  }

  /**
   * The loops visit the details of a list only: a single detail object is
   * walked property by property, and no property has an item key.
   */
  function JoinDetails(r: Response): seq<Detail>
  {
    if HasDetails(r) && r.details.Many? then r.details.ds else []
  }

  /** A detail's amount when it joins some row, else 0. */
  function JoinedAmount(d: Detail, items: seq<CartItem>): int
  {
    if exists k :: 0 <= k < |items| && Joins(d, items[k]) then d.amount else 0
  }

  /** The reference sum: each product detail answering some row counts once. */
  function JoinedTotal(ds: seq<Detail>, items: seq<CartItem>): int
  {
    if |ds| == 0 then 0 else JoinedTotal(ds[..|ds| - 1], items) + JoinedAmount(ds[|ds| - 1], items)
  }

  /** No two rows share a `product_id`. */
  predicate DistinctProducts(items: seq<CartItem>)
  {
    forall i, j :: 0 <= i < j < |items| ==> items[i].productId != items[j].productId
  }

  lemma {:induction false} DetailSumJoined(d: Detail, items: seq<CartItem>)
    requires DistinctProducts(items)
    ensures DetailSum(d, items) == JoinedAmount(d, items)
  {
    if |items| > 0 {
      var init := items[..|items| - 1];
      assert forall k :: 0 <= k < |init| ==> init[k] == items[k];
      DetailSumJoined(d, init);
      if Joins(d, items[|items| - 1]) {
        assert forall k :: 0 <= k < |init| ==> !Joins(d, init[k]);
      }
    }
  }

  /**
   * With distinct `product_id`s in the cart, the line-item tax is the sum
   * of the amounts of the product details that answer some row.
   */
  lemma {:induction false} JoinSumJoined(ds: seq<Detail>, items: seq<CartItem>)
    requires DistinctProducts(items)
    ensures JoinSum(ds, items) == JoinedTotal(ds, items)
  {
    if |ds| > 0 {
      JoinSumJoined(ds[..|ds| - 1], items);
      DetailSumJoined(ds[|ds| - 1], items);
    }
  }

  /** A shipping detail, and one without an item key, joins no row and adds nothing. */
  lemma {:induction false} ShippingDetailJoinsNothing(d: Detail, items: seq<CartItem>)
    requires EmptyStr(d.itemKey) || d.itemKey == "shipping_cost"
    ensures DetailSum(d, items) == 0
  {
    if |items| > 0 {
      ShippingDetailJoinsNothing(d, items[..|items| - 1]);
    }
  }

  /**
   * The variation quirk: lines are numbered with the row's product object
   * id, but answers are joined on `product_id`. When every detail echoes
   * the number of some line sent, a row whose `product_id` numbers no line
   * (a variation row whose parent is not itself in the cart) is never taxed.
   */
  lemma VariationRowUntaxed(ds: seq<Detail>, items: seq<CartItem>, rate: int, k: int)
    requires 0 <= k < |items|
    requires forall i :: 0 <= i < |ds| ==> exists j :: 0 <= j < |items| && ds[i].lineNumber == items[j].dataId
    requires forall j :: 0 <= j < |items| ==> items[j].dataId != items[k].productId
    ensures Joined(ds, items, rate)[k] == items[k]
  {
    forall i | 0 <= i < |ds|
      ensures !Joins(ds[i], items[k])
    {
      var j :| 0 <= j < |items| && ds[i].lineNumber == items[j].dataId;
    }
  }

  /** What one detail does to one row: taxed with its amount when it joins. */
  function Step(d: Detail, item: CartItem, rate: int): (r: CartItem)
    ensures r.productId == item.productId
  {
    if Joins(d, item) then Taxed(item, Some(d.amount), rate) else item
  }

  /** One more detail: a row is taxed by its last joining detail, whichever came first. */
  lemma JoinedSnoc(ds: seq<Detail>, d: Detail, item: CartItem, rate: int)
    ensures Taxed(item, LastJoin(ds + [d], item), rate) == Step(d, Taxed(item, LastJoin(ds, item), rate), rate)
  {
    assert (ds + [d])[..|ds|] == ds;
    if Joins(d, item) {
      var t := Taxed(item, LastJoin(ds, item), rate);
      assert t.taxTotal[rate := d.amount] == item.taxTotal[rate := d.amount];
      assert t.taxSubtotal[rate := d.amount] == item.taxSubtotal[rate := d.amount];
    }
  }

  /** Stepping every row with one more detail gives the join of the longer list. */
  lemma JoinedStep(ds: seq<Detail>, d: Detail, items: seq<CartItem>, rate: int, next: seq<CartItem>)
    requires |next| == |items|
    requires forall j :: 0 <= j < |items| ==> next[j] == Step(d, Joined(ds, items, rate)[j], rate)
    ensures next == Joined(ds + [d], items, rate)
  {
    forall j | 0 <= j < |items|
      ensures next[j] == Joined(ds + [d], items, rate)[j]
    {
      JoinedSnoc(ds, d, items[j], rate);
    }
  }

  // ---------------------------------------------------------------------
  // The write block, reset_taxes and calculated_total
  // ---------------------------------------------------------------------

  /** `absint( taxify_rate_id )`, the key the cart's tax maps use. */
  function RateKey(rateId: string): nat
  {
    AbsInt(CastInt(VStr(rateId)))
  }

  /** The fields an answer changes: the singleton's two taxes, the cart's taxes and rows. */
  datatype Totals = Totals(shippingTax: Value, totalTax: int, taxes: CartTaxes, items: seq<CartItem>)

  /** The Success branch: the shipping tax is read and the answer is joined onto the rows. */
  function SuccessRead(t: Totals, r: Response, rate: int): Totals
  {
    if StatusIs(r, "Success") then t.(shippingTax := CartShippingTax(r), items := Joined(JoinDetails(r), t.items, rate))
    else t
  }

  /**
   * The write block: a non-empty shipping tax replaces the cart's shipping
   * taxes with the one Taxify rate, an empty one becomes 0; the total tax
   * is the line-item sum when both it and the shipping tax are non-empty,
   * else the sales tax; it is written as the contents tax, the contents
   * taxes under the rate and the total tax, and the fee tax is zeroed.
   */
  function TaxesSet(t: Totals, lineSum: int, salesTax: int, rate: int): Totals
  {
    var shipped := !Empty(t.shippingTax);
    var taxes := if shipped then t.taxes.(shippingTaxes := map[rate := CastInt(t.shippingTax)],
                                          shippingTax := CastInt(t.shippingTax))
                 else t.taxes;
    var total := if shipped && lineSum != 0 then lineSum else salesTax;
    Totals(if shipped then t.shippingTax else VInt(0), total,
           taxes.(contentsTax := total, feeTax := 0, contentsTaxes := map[rate := total], totalTax := total),
           t.items)
  }

  /**
   * reset_taxes: the shipping, contents and fee taxes are zeroed and the
   * two tax maps emptied; the cart's total tax is not touched.
   */
  function ResetTaxes(c: CartTaxes): CartTaxes
  {
    c.(shippingTaxes := map[], shippingTax := 0, contentsTax := 0, feeTax := 0, contentsTaxes := map[])
  }

  /** `$taxify_sales_tax_amount`: set only by a Success answer. */
  function SalesTax(r: Response): int
  {
    if StatusIs(r, "Success") then r.salesTaxAmount else 0
  }

  /** The Success branch and the write block together. */
  function Applied(t: Totals, r: Response, rateId: string): Totals
  {
    var rate := RateKey(rateId);
    var a := SuccessRead(t, r, rate);
    var lineSum := if StatusIs(r, "Success") then JoinSum(JoinDetails(r), t.items) else 0;
    if SalesTax(r) != 0 && !EmptyStr(rateId) then TaxesSet(a, lineSum, SalesTax(r), rate) else a
  }

  /** What an answer does to the fields and the cart: applied, then reset for an exempt session. */
  function Reconciled(t: Totals, r: Response, rateId: string, exempt: Value): Totals
  {
    var w := Applied(t, r, rateId);
    if !Empty(exempt) then w.(taxes := ResetTaxes(w.taxes)) else w
  }

  /**
   * Fields go stale: an answer other than Success leaves both remembered
   * taxes and the rows as they were, and the cart's taxes too unless the
   * session is exempt.
   */
  lemma NotSuccessKeepsStale(t: Totals, r: Response, rateId: string, exempt: Value)
    requires !StatusIs(r, "Success")
    ensures var n := Reconciled(t, r, rateId, exempt);
      n.shippingTax == t.shippingTax && n.totalTax == t.totalTax && n.items == t.items
      && n.taxes == (if Empty(exempt) then t.taxes else ResetTaxes(t.taxes))
  {
  }

  /**
   * A Success answer with an empty sales tax (or no rate id) refreshes the
   * shipping tax and the rows but writes nothing else: the total tax keeps
   * the value of an earlier answer.
   */
  lemma EmptySalesTaxKeepsTotal(t: Totals, r: Response, rateId: string, exempt: Value)
    requires StatusIs(r, "Success") && (r.salesTaxAmount == 0 || EmptyStr(rateId))
    ensures var n := Reconciled(t, r, rateId, exempt);
      n.shippingTax == CartShippingTax(r) && n.totalTax == t.totalTax
      && n.items == Joined(JoinDetails(r), t.items, RateKey(rateId))
      && n.taxes == (if Empty(exempt) then t.taxes else ResetTaxes(t.taxes))
  {
  }

  /**
   * A written answer: the shipping tax is the last shipping detail's
   * amount, 0 when empty; the total tax is the line-item sum when both it
   * and the shipping tax are non-empty, else the sales tax; and outside an
   * exempt session the cart carries exactly those taxes under the rate.
   */
  lemma WrittenTotals(t: Totals, r: Response, rateId: string, exempt: Value)
    requires StatusIs(r, "Success") && r.salesTaxAmount != 0 && !EmptyStr(rateId)
    ensures var n := Reconciled(t, r, rateId, exempt);
      var shipping := Order.ShippingTaxOf(r);
      var lineSum := JoinSum(JoinDetails(r), t.items);
      var rate := RateKey(rateId);
      n.shippingTax == VInt(shipping)
      && n.totalTax == (if shipping != 0 && lineSum != 0 then lineSum else r.salesTaxAmount)
      && n.items == Joined(JoinDetails(r), t.items, rate)
      && n.taxes.totalTax == n.totalTax
      && (Empty(exempt) ==>
            n.taxes.contentsTax == n.totalTax && n.taxes.feeTax == 0
            && n.taxes.contentsTaxes == map[rate := n.totalTax]
            && (shipping != 0 ==> n.taxes.shippingTax == shipping && n.taxes.shippingTaxes == map[rate := shipping])
            && (shipping == 0 ==> n.taxes.shippingTax == t.taxes.shippingTax
                                  && n.taxes.shippingTaxes == t.taxes.shippingTaxes))
  {
    var a := SuccessRead(t, r, RateKey(rateId));
    assert a.shippingTax == CartShippingTax(r);
  }

  /**
   * The exempt reset touches only the cart: the remembered taxes and the
   * rows are those of a non-exempt session, and the cart's total tax too.
   */
  lemma ExemptResetOnlyCart(t: Totals, r: Response, rateId: string, exempt: Value)
    requires !Empty(exempt)
    ensures var n := Reconciled(t, r, rateId, exempt);
      var m := Reconciled(t, r, rateId, VBool(false));
      n.shippingTax == m.shippingTax && n.totalTax == m.totalTax && n.items == m.items
      && n.taxes == ResetTaxes(m.taxes) && n.taxes.totalTax == m.taxes.totalTax
      && n.taxes.shippingTax == 0 && n.taxes.contentsTax == 0 && n.taxes.feeTax == 0
      && n.taxes.shippingTaxes == map[] && n.taxes.contentsTaxes == map[]
  {
  }

  /** A remembered shipping tax is an integer or ''. */
  predicate ShippingTaxForm(v: Value)
  {
    v.VInt? || v == VStr("")
  }

  /** Every recalculation keeps the shipping tax an integer or ''; a written one is an integer. */
  lemma ShippingTaxFormKept(t: Totals, r: Response, rateId: string, exempt: Value)
    requires ShippingTaxForm(t.shippingTax)
    ensures ShippingTaxForm(Reconciled(t, r, rateId, exempt).shippingTax)
    ensures SalesTax(r) != 0 && !EmptyStr(rateId) ==> Reconciled(t, r, rateId, exempt).shippingTax.VInt?
  {
  }

  /** calculated_total: both remembered taxes (0 when empty) on top of the cart's contents and shipping. */
  function CartTotal(shippingTax: Value, totalTax: int, contentsTotal: int, shippingTotal: int): int
  {
    (if totalTax != 0 then totalTax else 0) + (if !Empty(shippingTax) then CastInt(shippingTax) else 0)
    + contentsTotal + shippingTotal
  }

  /**
   * After a written answer in a non-exempt session, the filtered total is
   * the cart's contents and shipping plus the cart's total tax and the
   * shipping tax the cart was given (none when it was empty).
   */
  lemma CartTotalAfterWrite(t: Totals, r: Response, rateId: string, contentsTotal: int, shippingTotal: int)
    requires StatusIs(r, "Success") && r.salesTaxAmount != 0 && !EmptyStr(rateId)
    ensures var n := Reconciled(t, r, rateId, VStr(""));
      CartTotal(n.shippingTax, n.totalTax, contentsTotal, shippingTotal) ==
        contentsTotal + shippingTotal + n.taxes.totalTax
        + (if Order.ShippingTaxOf(r) != 0 then n.taxes.shippingTax else 0)
  {
    WrittenTotals(t, r, rateId, VStr(""));
  }

  /**
   * In an exempt session the filtered total still carries the remembered
   * taxes, although the cart's shipping and contents taxes were zeroed.
   */
  lemma ExemptTotalStillTaxed(t: Totals, r: Response, rateId: string, exempt: Value,
                              contentsTotal: int, shippingTotal: int)
    requires !Empty(exempt)
    ensures var n := Reconciled(t, r, rateId, exempt);
      var m := Reconciled(t, r, rateId, VBool(false));
      CartTotal(n.shippingTax, n.totalTax, contentsTotal, shippingTotal)
        == CartTotal(m.shippingTax, m.totalTax, contentsTotal, shippingTotal)
      && n.taxes.shippingTax == 0 && n.taxes.contentsTax == 0
  {
    ExemptResetOnlyCart(t, r, rateId, exempt);
  }

  // ---------------------------------------------------------------------
  // The cart object
  // ---------------------------------------------------------------------

  /**
   * The WooCommerce cart. The plugin reads its customer id, tax display
   * setting, contents total and shipping total, rewrites the tax fields of
   * its rows in place, and sets its tax totals.
   */
  class Cart {
    const customerId: int
    const taxDisplayCart: Value
    const contentsTotal: int
    const shippingTotal: int
    var contents: seq<CartItem>
    var shippingTaxes: map<int, int>
    var shippingTax: int
    var contentsTax: int
    var feeTax: int
    var contentsTaxes: map<int, int>
    var totalTax: int

    constructor(customerId: int, taxDisplayCart: Value, contentsTotal: int, shippingTotal: int,
                contents: seq<CartItem>, taxes: CartTaxes)
      ensures this.customerId == customerId && this.taxDisplayCart == taxDisplayCart
      ensures this.contentsTotal == contentsTotal && this.shippingTotal == shippingTotal
      ensures this.contents == contents && Taxes() == taxes
    {
      this.customerId := customerId;
      this.taxDisplayCart := taxDisplayCart;
      this.contentsTotal := contentsTotal;
      this.shippingTotal := shippingTotal;
      this.contents := contents;
      shippingTaxes := taxes.shippingTaxes;
      shippingTax := taxes.shippingTax;
      contentsTax := taxes.contentsTax;
      feeTax := taxes.feeTax;
      contentsTaxes := taxes.contentsTaxes;
      totalTax := taxes.totalTax;
    }

    /** The cart's tax totals as one value. */
    function Taxes(): CartTaxes
      reads this
    {
      CartTaxes(shippingTaxes, shippingTax, contentsTax, feeTax, contentsTaxes, totalTax)
    }
  }

  /**
   * set_and_get_cart_line_items_tax: for every detail, every row it joins
   * gets the detail's amount as its line tax, line subtotal tax and rate
   * entries of `line_tax_data`, and the amount is added to the sum.
   */
  method SetAndGetCartLineItemsTax(r: Response, cart: Cart, rate: int) returns (taxTotal: int)
    modifies cart
    ensures taxTotal == JoinSum(JoinDetails(r), old(cart.contents))
    ensures cart.contents == Joined(JoinDetails(r), old(cart.contents), rate)
    ensures cart.Taxes() == old(cart.Taxes())
  {
    taxTotal := 0;
    var ds := JoinDetails(r);
    ghost var items := cart.contents;
    if HasDetails(r) && r.details.Many? {
      var i := 0;
      while i < |ds|
        invariant 0 <= i <= |ds|
        invariant cart.contents == Joined(ds[..i], items, rate)
        invariant taxTotal == JoinSum(ds[..i], items)
        invariant cart.Taxes() == old(cart.Taxes())
      {
        ghost var prev := cart.contents;
        taxTotal := JoinDetail(ds[i], cart, items, rate, taxTotal);
        assert ds[..i + 1] == ds[..i] + [ds[i]];
        JoinedStep(ds[..i], ds[i], items, rate, cart.contents);
        i := i + 1;
      }
      assert ds[..|ds|] == ds;
    } else {
      assert cart.contents == Joined(ds, items, rate);
    }
  }

  /** The inner loop: one detail against every row, joined on the rows' unchanged product ids. */
  method JoinDetail(d: Detail, cart: Cart, ghost items: seq<CartItem>, rate: int, taxTotal: int)
    returns (taxTotal': int)
    requires |cart.contents| == |items|
    requires forall j :: 0 <= j < |items| ==> cart.contents[j].productId == items[j].productId
    modifies cart
    ensures |cart.contents| == |items|
    ensures forall j :: 0 <= j < |items| ==> cart.contents[j] == Step(d, old(cart.contents)[j], rate)
    ensures taxTotal' == taxTotal + DetailSum(d, items)
    ensures cart.Taxes() == old(cart.Taxes())
  {
    ghost var prev := cart.contents;
    taxTotal' := taxTotal;
    var k := 0;
    while k < |cart.contents|
      invariant 0 <= k <= |items| && |cart.contents| == |items|
      invariant forall j :: 0 <= j < k ==> cart.contents[j] == Step(d, prev[j], rate)
      invariant forall j :: k <= j < |items| ==> cart.contents[j] == prev[j]
      invariant taxTotal' == taxTotal + DetailSum(d, items[..k])
      invariant cart.Taxes() == old(cart.Taxes())
    {
      assert items[..k + 1][..k] == items[..k];
      var item := cart.contents[k];
      if Joins(d, item) {
        taxTotal' := taxTotal' + d.amount;
        cart.contents := cart.contents[k := item.(lineTax := d.amount, lineSubtotalTax := d.amount,
                                                  taxTotal := item.taxTotal[rate := d.amount],
                                                  taxSubtotal := item.taxSubtotal[rate := d.amount])];
      }
      k := k + 1;
    }
    assert items[..|items|] == items;
  }

  /** reset_taxes. */
  method ResetCartTaxes(cart: Cart)
    modifies cart
    ensures cart.Taxes() == ResetTaxes(old(cart.Taxes()))
    ensures cart.contents == old(cart.contents)
  {
    cart.shippingTaxes := map[];
    cart.shippingTax := 0;
    cart.contentsTax := 0;
    cart.feeTax := 0;
    cart.contentsTaxes := map[];
  }

  /** The outcome `request()` returns: the answer, or `false` for any fault. */
  function ReplyOf(o: Outcome): Option<Response>
  {
    if o.Answer? then Some(o.r) else None
  }

  // ---------------------------------------------------------------------
  // WC_Taxify_Checkout
  // ---------------------------------------------------------------------

  /** The singleton's fields that survive between recalculations. */
  datatype Fields = Fields(validAddress: bool, customerKey: Value, shippingTax: Value,
                           taxDisplayCart: Value, totalTax: int)

  class TaxifyCheckout {
    /** The cart document key: `uniqid( 'cart_' )` when Taxify is enabled, else ''. */
    const documentKey: string
    var validAddress: bool
    var customerKey: Value
    var shippingTax: Value
    var taxDisplayCart: Value
    var totalTax: int
    const api: Soap

    ghost predicate Valid()
      reads this, api
    {
      api.Valid() && ShippingTaxForm(shippingTax)
    }

    /** The constructor; the unique id `uniqid` would generate is a parameter. */
    constructor(values: map<string, Value>, uniqueId: string, api: Soap)
      requires api.Valid()
      ensures Valid() && this.api == api
      ensures documentKey == (if TaxifyEnabled(values) then "cart_" + uniqueId else "")
      ensures Now() == Fields(false, VStr(""), VInt(0), VStr(""), 0)
    {
      documentKey := if TaxifyEnabled(values) then "cart_" + uniqueId else "";
      validAddress := false;
      customerKey := VStr("");
      shippingTax := VInt(0);
      taxDisplayCart := VStr("");
      totalTax := 0;
      this.api := api;
    }

    function Now(): Fields
      reads this
    {
      Fields(validAddress, customerKey, shippingTax, taxDisplayCart, totalTax)
    }

    /** The fields and cart state an answer changes. */
    function TotalsOf(cart: Cart): Totals
      reads this, cart
    {
      Totals(shippingTax, totalTax, cart.Taxes(), cart.contents)
    }

    /** calculated_total: the filter on the cart total. */
    function CalculatedTotal(cart: Cart): int
      reads this, cart
    {
      CartTotal(shippingTax, totalTax, cart.contentsTotal, cart.shippingTotal)
    }

    /** The write block of calculate_totals, for a non-empty sales tax and rate id. */
    method WriteCartTaxes(cart: Cart, lineSum: int, salesTax: int, rate: int)
      modifies this, cart
      ensures TotalsOf(cart) == TaxesSet(old(TotalsOf(cart)), lineSum, salesTax, rate)
      ensures validAddress == old(validAddress) && customerKey == old(customerKey)
      ensures taxDisplayCart == old(taxDisplayCart)
    {
      if !Empty(shippingTax) {
        cart.shippingTaxes := map[];
        cart.shippingTax := CastInt(shippingTax);
        cart.shippingTaxes := map[rate := CastInt(shippingTax)];
      } else {
        shippingTax := VInt(0);
      }
      totalTax := if !Empty(shippingTax) && lineSum != 0 then lineSum else salesTax;
      cart.contentsTax := totalTax;
      cart.feeTax := 0;
      cart.contentsTaxes := map[rate := totalTax];
      cart.totalTax := totalTax;
    }

    /** What calculate_totals does with an answer. */
    method Reconcile(cart: Cart, r: Response, rateId: string, exempt: Value)
      requires ShippingTaxForm(shippingTax)
      modifies this, cart
      ensures ShippingTaxForm(shippingTax)
      ensures TotalsOf(cart) == Reconciled(old(TotalsOf(cart)), r, rateId, exempt)
      ensures validAddress == old(validAddress) && customerKey == old(customerKey)
      ensures taxDisplayCart == old(taxDisplayCart)
    {
      ghost var t := TotalsOf(cart);
      var rate := RateKey(rateId);
      var salesTax := 0;
      var lineSum := 0;
      if StatusIs(r, "Success") {
        salesTax := r.salesTaxAmount;
        shippingTax := GetShippingTax(r);
        lineSum := SetAndGetCartLineItemsTax(r, cart, rate);
      }
      // A Failure answer is only logged.
      assert TotalsOf(cart) == SuccessRead(t, r, rate);
      if salesTax != 0 && !EmptyStr(rateId) {
        WriteCartTaxes(cart, lineSum, salesTax, rate);
      }
      assert TotalsOf(cart) == Applied(t, r, rateId);
      if !Empty(exempt) {
        ResetCartTaxes(cart);
      }
    }

    /**
     * calculate_totals: the fields are refreshed from the cart and the
     * visitor; a non-empty cart with a valid address is sent, and the answer,
     * if any, reconciled onto the cart. `fatal` is a cart row whose product
     * is missing, where the source stops with an error before any call.
     */
    method CalculateTotals(cart: Cart, shop: Shop, values: map<string, Value>, cfg: Config,
                           v: Visitor, base: BaseAddress) returns (fatal: bool)
      requires Valid()
      modifies this, cart, api
      ensures Valid()
      ensures var id := CustomerIdOf(cart.customerId);
        validAddress == ValidAddress(VArr(CartAddress(values, v, base, id)))
        && customerKey == CartCustomerKey(v, id) && taxDisplayCart == cart.taxDisplayCart
      ensures fatal <==> |old(cart.contents)| > 0 && validAddress
                         && CartItemLines(shop, values, old(cart.contents)).None?
      ensures var call := CartCall(shop, values, cfg.today, v, base, documentKey, cart.customerId,
                                   cart.shippingTotal, old(cart.contents));
        if call.None? then
          api.calls == old(api.calls) && api.sent == old(api.sent) && api.attempts == old(api.attempts)
          && TotalsOf(cart) == old(TotalsOf(cart))
        else
          var reply := ReplyOf(api.oracle(old(api.attempts)));
          api.Exchanged(old(api.attempts), old(api.sent), old(api.clientCreated), old(api.calls),
                        "CalculateTax", call.value, reply)
          && TotalsOf(cart) == if reply.None? then old(TotalsOf(cart))
                               else Reconciled(old(TotalsOf(cart)), reply.value, cfg.rateId, v.exempt)
    {
      var customerId := CustomerIdOf(cart.customerId);
      var address := CartAddress(values, v, base, customerId);
      validAddress := ValidAddress(VArr(address));
      customerKey := CartCustomerKey(v, customerId);
      taxDisplayCart := cart.taxDisplayCart;
      fatal := false;
      if |cart.contents| > 0 && validAddress {
        var data := CartData(documentKey, customerKey, v.exempt, address);
        var lines := GetRequestLines(shop, values, v, cart.shippingTotal, cart.contents);
        if lines.None? {
          fatal := true;
          return;
        }
        Send(cart, data, lines.value, cfg.today, cfg.rateId, v.exempt);
      }
    }

    /** The CalculateTax call and, when it answers, the reconciliation. */
    method Send(cart: Cart, data: seq<Entry>, lines: seq<Entry>, today: string, rateId: string, exempt: Value)
      requires Valid()
      modifies this, cart, api
      ensures Valid()
      ensures Now().(shippingTax := shippingTax, totalTax := totalTax) == old(Now()).(shippingTax := shippingTax, totalTax := totalTax)
      ensures var reply := ReplyOf(api.oracle(old(api.attempts)));
        api.Exchanged(old(api.attempts), old(api.sent), old(api.clientCreated), old(api.calls),
                      "CalculateTax", CalculateCall(data, lines, [], today), reply)
        && TotalsOf(cart) == if reply.None? then old(TotalsOf(cart))
                             else Reconciled(old(TotalsOf(cart)), reply.value, rateId, exempt)
    {
      var result := api.CalculateTax(data, lines, [], today);
      if result.Some? {
        Reconcile(cart, result.value, rateId, exempt);
      } else {
        // No answer is only logged.
      }
    }

    /**
     * add_shipping_taxes: with a non-empty shipping tax and item id, the
     * new order item's `taxes` is replaced by the one Taxify rate's amount and
     * its `total_tax` set to the shipping tax. The hook fires for every new
     * order item (line, fee, coupon, tax or shipping), and the item's type is
     * not looked at, so each of them receives these values.
     */
    method AddShippingTaxes(itemMeta: ItemMeta, itemId: int, rateId: string)
      modifies itemMeta
      ensures itemMeta.meta == if !Empty(shippingTax) && itemId != 0
        then Written(Written(Erased(old(itemMeta.meta), itemId, "taxes"), itemId, "taxes",
                             ShippingTaxes(rateId, shippingTax)), itemId, "total_tax", shippingTax)
        else old(itemMeta.meta)
      ensures itemMeta.addedTaxes == old(itemMeta.addedTaxes)
    {
      if !Empty(shippingTax) && itemId != 0 {
        var taxes := VArr([Entry(SK(rateId), shippingTax)]);
        itemMeta.Delete(itemId, "taxes");
        itemMeta.Update(itemId, "taxes", VArr([Entry(SK("total"), taxes)]));
        itemMeta.Update(itemId, "total_tax", shippingTax);
      }
    }
  }

  /** The `taxes` value add_shipping_taxes writes: the shipping tax as the total under the rate id. */
  function ShippingTaxes(rateId: string, shippingTax: Value): Value
  {
    VArr([Entry(SK("total"), VArr([Entry(SK(rateId), shippingTax)]))])
  }

  /**
   * After add_shipping_taxes the new order item, whatever its type, reads
   * back its `taxes` and `total_tax`; every other item and key is as before.
   */
  lemma ShippingTaxesWritten(meta: map<int, map<string, Value>>, itemId: int, rateId: string, shippingTax: Value,
                             id': int, key': string)
    requires AbsInt(itemId) != 0
    ensures var m := Written(Written(Erased(meta, itemId, "taxes"), itemId, "taxes", ShippingTaxes(rateId, shippingTax)),
                             itemId, "total_tax", shippingTax);
      Read(m, itemId, "taxes") == ShippingTaxes(rateId, shippingTax)
      && Read(m, itemId, "total_tax") == shippingTax
      && (AbsInt(id') != AbsInt(itemId) || key' !in {"taxes", "total_tax"} ==> Read(m, id', key') == Read(meta, id', key'))
  {
    var m0 := Erased(meta, itemId, "taxes");
    var m1 := Written(m0, itemId, "taxes", ShippingTaxes(rateId, shippingTax));
    WrittenReads(m1, itemId, "total_tax", shippingTax, itemId, "taxes");
    WrittenReads(m0, itemId, "taxes", ShippingTaxes(rateId, shippingTax), itemId, "taxes");
    WrittenReads(m1, itemId, "total_tax", shippingTax, id', key');
    WrittenReads(m0, itemId, "taxes", ShippingTaxes(rateId, shippingTax), id', key');
    ErasedReads(meta, itemId, "taxes", id', key');
  }
}
