/**
 * The order tax lifecycle (includes/wc-taxify-order.php).
 *
 * The first half of this module is what the lifecycle computes from the
 * order and the answer: the line items and refund discounts it sends, the
 * tax it reads back, the shipping method and the item metadata it writes.
 * The second half is the singleton `WC_Taxify_Order` with its four fields
 * that survive between calls, and the event handlers, each specified as a
 * function from the state before the call to the state after it.
 */
module Order {
  import opened Php
  import opened Format
  import opened Host
  import opened Tax
  import opened OrderDataStore
  import opened SoapApi
  import Scheduler

  // ---------------------------------------------------------------------
  // get_cart_line_items
  // ---------------------------------------------------------------------

  /** The id a line is filed under: the variation when there is one, else the product. */
  function LineProductId(item: OrderItem): int
  {
    if item.variationId != 0 then item.variationId else item.productId
  }

  /**
   * One line item for the API; `None` when the product is missing, where
   * the source asks `false` for its SKU (a fatal error).
   */
  function ItemLine(shop: Shop, values: map<string, Value>, prefix: string, item: OrderItem): (r: Option<Value>)
    ensures r.None? <==> GetSku(shop, LineProductId(item)).None?
  {
    var id := LineProductId(item);
    match GetSku(shop, id)
    case None => None
    case Some(sku) => Some(VArr(LineFields(shop, values, prefix, item, sku)))
  }

  /** The fields of a line, in the order the source writes them. A free item has `line_total` 0, so the price is `line_total` in every case. */
  function LineFields(shop: Shop, values: map<string, Value>, prefix: string, item: OrderItem, sku: Value): seq<Entry>
  {
    var id := LineProductId(item);
    [Entry(SK("LineNumber"), VInt(id)),
     Entry(SK("ItemKey"), VStr(prefix + "-" + ToStr(sku))),
     Entry(SK("ActualExtendedPrice"), VInt(item.lineTotal)),
     Entry(SK("TaxIncludedInPrice"), VBool(PricesIncludeTax(values))),
     Entry(SK("Quantity"), item.qty),
     Entry(SK("ItemDescription"), VStr(item.name)),
     Entry(SK("ItemTaxabilityCode"), ProductTaxStatus(shop, values, id)),
     Entry(SK("ItemCategories"), VStr("taxify"))]
  }

  /** A line carries the id, the prefixed SKU and the price of its item. */
  lemma ItemLineFields(shop: Shop, values: map<string, Value>, prefix: string, item: OrderItem)
    requires ItemLine(shop, values, prefix, item).Some?
    ensures var line := ItemLine(shop, values, prefix, item).value;
      var sku := GetSku(shop, LineProductId(item)).value;
      Get(line, "LineNumber") == VInt(LineProductId(item))
      && line.a[1] == Entry(SK("ItemKey"), VStr(prefix + "-" + ToStr(sku)))
      && line.a[2] == Entry(SK("ActualExtendedPrice"), VInt(item.lineTotal))
      && line.a[4] == Entry(SK("Quantity"), item.qty)
  {
  }

  /** Each order item's line, or `None` where building it is fatal. */
  function ItemLines(shop: Shop, values: map<string, Value>, prefix: string, items: seq<OrderItem>): (r: seq<Option<Value>>)
    ensures |r| == |items| && forall k :: 0 <= k < |items| ==> r[k] == ItemLine(shop, values, prefix, items[k])
  {
    seq(|items|, k requires 0 <= k < |items| => ItemLine(shop, values, prefix, items[k]))
  }

  /** The `$items[]` list built from lines one at a time, `None` once one of them is fatal. */
  function Collect(lines: seq<Option<Value>>): Option<seq<Entry>>
  {
    if |lines| == 0 then Some([])
    else
      match Collect(lines[..|lines| - 1])
      case None => None
      case Some(rest) =>
        match lines[|lines| - 1]
        case None => None
        case Some(line) => Some(rest + [Entry(IK(|rest|), line)])
  }

  /** One entry per line, in order, keyed 0, 1, ...; `None` exactly when some line is. */
  lemma {:induction false} CollectShape(lines: seq<Option<Value>>)
    ensures Collect(lines).Some? <==> forall k :: 0 <= k < |lines| ==> lines[k].Some?
    ensures Collect(lines).Some? ==>
      var r := Collect(lines).value;
      |r| == |lines| && forall k :: 0 <= k < |lines| ==> r[k] == Entry(IK(k), lines[k].value)
  {
    if |lines| > 0 {
      var init := lines[..|lines| - 1];
      CollectShape(init);
      assert forall k :: 0 <= k < |init| ==> init[k] == lines[k];
    }
  }

  /** What get_cart_line_items returns for `wc_get_order()`'s result (`None`: a missing order). */
  function OrderLines(shop: Shop, values: map<string, Value>, prefix: string, order: Option<HostOrder>): Option<seq<Entry>>
  {
    if order.Some? && |order.value.items| > 0 then Collect(ItemLines(shop, values, prefix, order.value.items)) else Some([])
  }

  /**
   * One line per order item, in order, keyed 0, 1, ...; building them is
   * fatal exactly when the product of some item is missing.
   */
  lemma CartLinesShape(shop: Shop, values: map<string, Value>, prefix: string, items: seq<OrderItem>)
    ensures var r := Collect(ItemLines(shop, values, prefix, items));
      (r.None? <==> exists k :: 0 <= k < |items| && GetSku(shop, LineProductId(items[k])).None?)
      && (r.Some? ==> (|r.value| == |items|
                       && forall k :: 0 <= k < |items| ==> r.value[k] == Entry(IK(k), ItemLine(shop, values, prefix, items[k]).value)))
  {
    CollectShape(ItemLines(shop, values, prefix, items));
  }

  /** get_cart_line_items: the loop over the order's items. */
  method GetCartLineItems(shop: Shop, values: map<string, Value>, prefix: string, order: Option<HostOrder>)
    returns (r: Option<seq<Entry>>)
    ensures r == OrderLines(shop, values, prefix, order)
  {
    var items: seq<Entry> := [];
    if order.Some? && |order.value.items| > 0 {
      var all := order.value.items;
      ghost var lines := ItemLines(shop, values, prefix, all);
      var i := 0;
      while i < |all|
        invariant 0 <= i <= |all|
        invariant Collect(lines[..i]) == Some(items)
      {
        assert lines[..i + 1][..i] == lines[..i];
        var line := ItemLine(shop, values, prefix, all[i]);
        if line.None? {
          CollectShape(lines);
          return None;
        }
        items := items + [Entry(IK(|items|), line.value)];
        i := i + 1;
      }
      assert lines[..|all|] == lines;
    }
    r := Some(items);
  }

  // ---------------------------------------------------------------------
  // get_shipping_cost and the lines sent
  // ---------------------------------------------------------------------

  /** The shipping line: `cost` of the shipping item, or '' when it is empty. */
  function ShippingLine(meta: map<int, map<string, Value>>, shippingItemId: int): Value
  {
    var cost := Read(meta, shippingItemId, "cost");
    VArr([Entry(SK("ItemKey"), VStr("shipping_cost")),
          Entry(SK("ActualExtendedPrice"), if !Empty(cost) then cost else VStr("")),
          Entry(SK("Quantity"), VStr("1")),
          Entry(SK("ItemTaxabilityCode"), VStr("Shipping"))])
  }

  /** get_shipping_cost: always a one-element list, whatever the cost. */
  function ShippingCost(meta: map<int, map<string, Value>>, shippingItemId: int): (r: seq<Entry>)
    ensures |r| == 1 && !Empty(VArr(r))
  {
    [Entry(IK(0), ShippingLine(meta, shippingItemId))]
  }

  /** The shipping line has no `LineNumber`, so no detail is ever matched against it. */
  lemma ShippingLineHasNoNumber(meta: map<int, map<string, Value>>, shippingItemId: int)
    ensures Get(ShippingLine(meta, shippingItemId), "LineNumber") == VNull
  {
  }

  /** The lines order_completed sends: the items, merged with the shipping list when shipping is taxable. */
  function FiledLines(items: seq<Entry>, taxable: bool, shipping: seq<Entry>): seq<Entry>
  {
    if |items| > 0 && taxable && |shipping| > 0 then ListMerge(items, shipping) else items
  }

  /**
   * The non-empty check on the shipping list never fails: with items and
   * taxable shipping, the shipping line is always the last line sent.
   */
  lemma ShippingAlwaysAppended(items: seq<Entry>, meta: map<int, map<string, Value>>, shippingItemId: int)
    requires |items| > 0
    requires forall k :: 0 <= k < |items| ==> items[k].k == IK(k)
    ensures var lines := FiledLines(items, true, ShippingCost(meta, shippingItemId));
      lines == items + [Entry(IK(|items|), ShippingLine(meta, shippingItemId))]
  {
    var lines := FiledLines(items, true, ShippingCost(meta, shippingItemId));
    assert forall k :: 0 <= k < |items| ==> lines[k] == items[k];
  }

  // ---------------------------------------------------------------------
  // get_cart_line_item_refunds
  // ---------------------------------------------------------------------

  /** `abs( WC_Order_Refund( $id )->get_amount() )`, 0 for an unknown refund. */
  function RefundAmount(shop: Shop, refundId: int): nat
  {
    if refundId in shop.refundAmounts then AbsInt(shop.refundAmounts[refundId]) else 0
  }

  /** One refund discount: a positive amount of type `refund`. */
  function RefundDiscount(orderId: int, refundId: int, amount: int): Value
  {
    VArr([Entry(SK("Code"), VStr("Refund #" + IntToStr(refundId) + " for Order# " + IntToStr(orderId))),
          Entry(SK("Amount"), VInt(amount)),
          Entry(SK("DiscountType"), VStr("refund"))])
  }

  /** The discounts for a list of refunds; refunds with an empty amount are skipped. */
  function RefundDiscounts(shop: Shop, orderId: int, refundIds: seq<int>): seq<Entry>
  {
    if |refundIds| == 0 then []
    else
      var rest := RefundDiscounts(shop, orderId, refundIds[..|refundIds| - 1]);
      var id := refundIds[|refundIds| - 1];
      if RefundAmount(shop, id) != 0 then rest + [Entry(IK(|rest|), RefundDiscount(orderId, id, RefundAmount(shop, id)))]
      else rest
  }

  /** The refunds with a non-empty amount, in order. */
  function Refunded(shop: Shop, refundIds: seq<int>): (r: seq<int>)
    ensures forall x :: x in r <==> x in refundIds && RefundAmount(shop, x) > 0
  {
    if |refundIds| == 0 then []
    else
      var rest := Refunded(shop, refundIds[..|refundIds| - 1]);
      var id := refundIds[|refundIds| - 1];
      assert refundIds == refundIds[..|refundIds| - 1] + [id];
      if RefundAmount(shop, id) > 0 then rest + [id] else rest
  }

  /** One discount per listed refund, keyed 0, 1, ..., for the refund's amount. */
  function IndexedDiscounts(shop: Shop, orderId: int, ids: seq<int>): (r: seq<Entry>)
    ensures |r| == |ids|
    ensures forall k :: 0 <= k < |ids| ==> r[k] == Entry(IK(k), RefundDiscount(orderId, ids[k], RefundAmount(shop, ids[k])))
  {
    if |ids| == 0 then []
    else
      var id := ids[|ids| - 1];
      IndexedDiscounts(shop, orderId, ids[..|ids| - 1]) + [Entry(IK(|ids| - 1), RefundDiscount(orderId, id, RefundAmount(shop, id)))]
  }

  /** The discounts are exactly one per refund with a non-empty amount, for `abs( amount )`, keyed 0, 1, .... */
  lemma {:induction false} RefundDiscountsShape(shop: Shop, orderId: int, refundIds: seq<int>)
    ensures RefundDiscounts(shop, orderId, refundIds) == IndexedDiscounts(shop, orderId, Refunded(shop, refundIds))
  {
    if |refundIds| > 0 {
      var init := refundIds[..|refundIds| - 1];
      var id := refundIds[|refundIds| - 1];
      RefundDiscountsShape(shop, orderId, init);
      var restIds := Refunded(shop, init);
      if RefundAmount(shop, id) != 0 {
        var xs := restIds + [id];
        assert Refunded(shop, refundIds) == xs;
        assert xs[..|xs| - 1] == restIds;
      } else {
        assert Refunded(shop, refundIds) == restIds;
      }
    }
  }

  /** The refund ids `get_refunds` finds for an order. */
  function OrderRefundIds(shop: Shop, orderId: int): seq<int>
  {
    if orderId in shop.refunds then shop.refunds[orderId] else []
  }

  /** What get_cart_line_item_refunds returns. */
  function OrderRefunds(shop: Shop, orderId: int): seq<Entry>
  {
    var ids := OrderRefundIds(shop, orderId);
    if |ids| > 0 && orderId != 0 then RefundDiscounts(shop, orderId, ids) else []
  }

  /** get_cart_line_item_refunds: the loop over the order's refunds. */
  method GetCartLineItemRefunds(shop: Shop, orderId: int) returns (r: seq<Entry>)
    ensures r == OrderRefunds(shop, orderId)
  {
    r := [];
    var ids := OrderRefundIds(shop, orderId);
    if |ids| > 0 && orderId != 0 {
      var i := 0;
      while i < |ids|
        invariant 0 <= i <= |ids|
        invariant r == RefundDiscounts(shop, orderId, ids[..i])
      {
        assert ids[..i + 1][..i] == ids[..i];
        var amount := RefundAmount(shop, ids[i]);
        if amount != 0 {
          r := r + [Entry(IK(|r|), RefundDiscount(orderId, ids[i], amount))];
        }
        i := i + 1;
      }
      assert ids[..|ids|] == ids;
    }
  }

  // ---------------------------------------------------------------------
  // get_line_items_tax
  // ---------------------------------------------------------------------

  /** The line number a sent line carries (null for the shipping line). */
  function LineNumberOf(line: Value): Value
  {
    Get(line, "LineNumber")
  }

  /** `! empty( $item['LineNumber'] ) && $detail->LineNumber == $item['LineNumber']`. */
  predicate SameLine(d: Detail, line: Value)
  {
    !Empty(LineNumberOf(line)) && LooseEqInt(LineNumberOf(line), d.lineNumber)
  }

  /** The first test of the loop: a product detail answering this line. */
  predicate LineHit(d: Detail, line: Value)
  {
    !EmptyStr(d.itemKey) && d.itemKey != "shipping_cost" && SameLine(d, line)
  }

  /** What one detail adds: its amount once for every line it answers. */
  function DetailTax(d: Detail, lines: seq<Entry>): int
  {
    if |lines| == 0 then 0
    else DetailTax(d, lines[..|lines| - 1]) + (if LineHit(d, lines[|lines| - 1].v) then d.amount else 0)
  }

  /** The sum over a list of details. */
  function ManyTax(ds: seq<Detail>, lines: seq<Entry>): int
  {
    if |ds| == 0 then 0 else ManyTax(ds[..|ds| - 1], lines) + DetailTax(ds[|ds| - 1], lines)
  }

  /**
   * The fallback for a single detail object: looping over an object visits
   * its properties, so only the second test can succeed, and it assigns the
   * detail's amount (the item key is not looked at).
   */
  predicate OneHit(d: Detail, lines: seq<Entry>)
  {
    d.lineNumber != 0 && exists k :: 0 <= k < |lines| && SameLine(d, lines[k].v)
  }

  /** The tax get_line_items_tax computes from an answer and the lines sent. */
  function LineItemsTaxOf(r: Response, lines: seq<Entry>): int
  {
    if !HasDetails(r) then 0
    else match r.details
      case One(d) => if OneHit(d, lines) then d.amount else 0
      case Many(ds) => ManyTax(ds, lines)
  }

  /** The amount of a detail when it answers some line sent, else 0. */
  function Answered(d: Detail, lines: seq<Entry>): int
  {
    if exists k :: 0 <= k < |lines| && LineHit(d, lines[k].v) then d.amount else 0
  }

  /** The reference sum: the amounts of the product details that answer a line sent. */
  function AnsweredSum(ds: seq<Detail>, lines: seq<Entry>): int
  {
    if |ds| == 0 then 0 else AnsweredSum(ds[..|ds| - 1], lines) + Answered(ds[|ds| - 1], lines)
  }

  /** No two lines share the number a detail answers. */
  predicate AtMostOneHit(d: Detail, lines: seq<Entry>)
  {
    forall i, j :: 0 <= i < j < |lines| && LineHit(d, lines[i].v) ==> !LineHit(d, lines[j].v)
  }

  /** A detail answering at most one line adds its amount once, or nothing. */
  lemma {:induction false} DetailTaxAnswered(d: Detail, lines: seq<Entry>)
    requires AtMostOneHit(d, lines)
    ensures DetailTax(d, lines) == Answered(d, lines)
  {
    if |lines| > 0 {
      var init := lines[..|lines| - 1];
      assert forall k :: 0 <= k < |init| ==> init[k] == lines[k];
      DetailTaxAnswered(d, init);
      if LineHit(d, lines[|lines| - 1].v) {
        assert forall k :: 0 <= k < |init| ==> !LineHit(d, init[k].v);
      }
    }
  }

  /**
   * When every detail answers at most one line, `_order_tax` is the sum of
   * the amounts of the product details whose line number was sent.
   */
  lemma {:induction false} ManyTaxAnswered(ds: seq<Detail>, lines: seq<Entry>)
    requires forall i :: 0 <= i < |ds| ==> AtMostOneHit(ds[i], lines)
    ensures ManyTax(ds, lines) == AnsweredSum(ds, lines)
  {
    if |ds| > 0 {
      ManyTaxAnswered(ds[..|ds| - 1], lines);
      DetailTaxAnswered(ds[|ds| - 1], lines);
    }
  }

  /**
   * Two sent lines with the line number a detail answers (two order items of
   * one product) make the detail add its amount twice, while the reference
   * sum counts it once.
   */
  lemma {:induction false} RepeatedLineCountsTwice(d: Detail, lines: seq<Entry>, l1: Entry, l2: Entry)
    requires LineHit(d, l1.v) && LineHit(d, l2.v)
    ensures DetailTax(d, lines + [l1, l2]) == DetailTax(d, lines) + 2 * d.amount
    ensures Answered(d, lines + [l1, l2]) == d.amount
  {
    var all := lines + [l1, l2];
    assert all[..|all| - 1] == lines + [l1];
    assert (lines + [l1])[..|lines|] == lines;
    assert all[|all| - 1] == l2;
  }

  /** A shipping detail, or one without an item key, adds nothing to the product tax. */
  lemma {:induction false} ShippingDetailAddsNothing(d: Detail, lines: seq<Entry>)
    requires EmptyStr(d.itemKey) || d.itemKey == "shipping_cost"
    ensures DetailTax(d, lines) == 0
  {
    if |lines| > 0 {
      ShippingDetailAddsNothing(d, lines[..|lines| - 1]);
    }
  }

  /** The inner loop for one detail: adds its amount for each line it answers. */
  method AddDetailTax(d: Detail, lines: seq<Entry>, total: int) returns (total': int)
    ensures total' == total + DetailTax(d, lines)
  {
    total' := total;
    var i := 0;
    while i < |lines|
      invariant 0 <= i <= |lines|
      invariant total' == total + DetailTax(d, lines[..i])
    {
      assert lines[..i + 1][..i] == lines[..i];
      if LineHit(d, lines[i].v) {
        total' := total' + d.amount;
      }
      i := i + 1;
    }
    assert lines[..|lines|] == lines;
  }

  /** The inner loop for a single detail object: the amount is assigned on a matching line. */
  method AssignOneTax(d: Detail, lines: seq<Entry>) returns (total: int)
    ensures total == if OneHit(d, lines) then d.amount else 0
  {
    total := 0;
    var i := 0;
    while i < |lines|
      invariant 0 <= i <= |lines|
      invariant total == if OneHit(d, lines[..i]) then d.amount else 0
    {
      assert forall k :: 0 <= k < i ==> lines[..i + 1][k] == lines[..i][k];
      assert lines[..i + 1][i] == lines[i];
      if !Empty(LineNumberOf(lines[i].v)) && d.lineNumber != 0 && LooseEqInt(LineNumberOf(lines[i].v), d.lineNumber) {
        total := d.amount;
      }
      i := i + 1;
    }
    assert lines[..|lines|] == lines;
  }

  /** get_line_items_tax: the nested loops over the details and the lines. */
  method GetLineItemsTax(r: Response, lines: seq<Entry>) returns (total: int)
    ensures total == LineItemsTaxOf(r, lines)
  {
    total := 0;
    if HasDetails(r) {
      match r.details
      case One(d) =>
        total := AssignOneTax(d, lines);
      case Many(ds) =>
        var i := 0;
        while i < |ds|
          invariant 0 <= i <= |ds|
          invariant total == ManyTax(ds[..i], lines)
        {
          assert ds[..i + 1][..i] == ds[..i];
          total := AddDetailTax(ds[i], lines, total);
          i := i + 1;
        }
        assert ds[..|ds|] == ds;
    }
  }

  // ---------------------------------------------------------------------
  // get_shipping_tax
  // ---------------------------------------------------------------------

  /** The amount of the last `shipping_cost` detail, 0 when there is none. */
  function LastShippingTax(ds: seq<Detail>): (t: int)
    ensures (forall i :: 0 <= i < |ds| ==> ds[i].itemKey != "shipping_cost") ==> t == 0
    ensures t != 0 ==> exists i :: (0 <= i < |ds| && ds[i].itemKey == "shipping_cost" && ds[i].amount == t
      && forall j :: i < j < |ds| ==> ds[j].itemKey != "shipping_cost")
  {
    if |ds| == 0 then 0
    else if ds[|ds| - 1].itemKey == "shipping_cost" then ds[|ds| - 1].amount
    else
      var t := LastShippingTax(ds[..|ds| - 1]);
      assert forall i :: 0 <= i < |ds| - 1 ==> ds[..|ds| - 1][i] == ds[i];
      t
  }

  /**
   * get_shipping_tax: for a single detail object the loop visits its
   * properties, none of which has an item key, so the result is 0.
   */
  function ShippingTaxOf(r: Response): int
  {
    if !HasDetails(r) then 0
    else match r.details
      case One(_) => 0
      case Many(ds) => LastShippingTax(ds)
  }

  /** get_shipping_tax: the loop keeps the amount of the last `shipping_cost` detail. */
  method GetShippingTax(r: Response) returns (t: int)
    ensures t == ShippingTaxOf(r)
  {
    var shippingTax := VNull;
    if HasDetails(r) && r.details.Many? {
      var ds := r.details.ds;
      var i := 0;
      while i < |ds|
        invariant 0 <= i <= |ds|
        invariant shippingTax == VNull || shippingTax.VInt?
        invariant CastInt(shippingTax) == LastShippingTax(ds[..i])
      {
        assert ds[..i + 1][..i] == ds[..i];
        if ds[i].itemKey == "shipping_cost" {
          shippingTax := VInt(ds[i].amount);
        }
        i := i + 1;
      }
      assert ds[..|ds|] == ds;
    }
    t := if !Empty(shippingTax) then CastInt(shippingTax) else 0;
  }

  // ---------------------------------------------------------------------
  // get_shipping_method
  // ---------------------------------------------------------------------

  /** `str_replace( ':', '_', $s )`. */
  function ColonToUnderscore(s: string): (r: string)
    ensures |r| == |s| && ':' !in r
    ensures forall i :: 0 <= i < |s| && s[i] != ':' ==> r[i] == s[i]
  {
    if |s| == 0 then "" else [if s[0] == ':' then '_' else s[0]] + ColonToUnderscore(s[1..])
  }

  /**
   * The shipping id for a `method_id`: with a trailing digit the instance
   * number is kept (`flat_rate:3` gives `flat_rate_3`); otherwise the text
   * before the colon, or the whole id when that is empty; `false` when the
   * result is empty.
   */
  function ShippingIdOf(methodId: string): (r: Value)
    ensures r == VBool(false) || (r.VStr? && !EmptyStr(r.s))
    ensures |methodId| > 0 && IsDigit(methodId[|methodId| - 1]) && r.VStr? ==>
      |r.s| == |methodId| && ':' !in r.s
    ensures !(|methodId| > 0 && IsDigit(methodId[|methodId| - 1])) && r.VStr? ==>
      r == FindNeedle(methodId, ":") || r.s == methodId
  {
    var id :=
      if |methodId| > 0 && IsDigit(methodId[|methodId| - 1]) then ColonToUnderscore(methodId)
      else
        var before := FindNeedle(methodId, ":");
        if before.VStr? then before.s else methodId;
    if !EmptyStr(id) then VStr(id) else VBool(false)
  }

  /** What get_shipping_method returns: the id of the order's first shipping method, or `false`. */
  function ShippingMethod(shop: Shop, orderId: int): Value
  {
    if orderId in shop.orders && |shop.orders[orderId].shippingMethods| > 0
    then ShippingIdOf(shop.orders[orderId].shippingMethods[0])
    else VBool(false)
  }

  /** get_shipping_method: the methods are copied into a list and the first one is used. */
  method GetShippingMethod(shop: Shop, orderId: int) returns (r: Value)
    ensures r == ShippingMethod(shop, orderId)
  {
    var list: seq<string> := [];
    if orderId in shop.orders {
      var methods := shop.orders[orderId].shippingMethods;
      var i := 0;
      while i < |methods|
        invariant 0 <= i <= |methods|
        invariant list == methods[..i]
      {
        list := list + [methods[i]];
        i := i + 1;
      }
    }
    r := if |list| > 0 then ShippingIdOf(list[0]) else VBool(false);
  }

  // ---------------------------------------------------------------------
  // add_or_update_product_order_tax
  // ---------------------------------------------------------------------

  /** `_line_tax_data`: the amount under the Taxify rate id, as total and as subtotal. */
  function LineTaxData(rateId: string, amount: int): Value
  {
    VArr([Entry(SK("total"), VArr([Entry(SK(rateId), VInt(amount))])),
          Entry(SK("subtotal"), VArr([Entry(SK(rateId), VInt(amount))]))])
  }

  /**
   * The product an order item belongs to, read from its metadata: the
   * variation when non-empty, else the product.
   */
  function ItemProductId(meta: map<int, map<string, Value>>, itemId: int): Value
  {
    var variation := Read(meta, itemId, "_variation_id");
    if !Empty(variation) then variation else Read(meta, itemId, "_product_id")
  }

  /**
   * A detail answers an order item when its line number equals the item's
   * product: by the first test for a product detail, by the second for any
   * detail with a non-empty line number.
   */
  predicate DetailHitsItem(d: Detail, productId: Value)
  {
    LooseEqInt(productId, d.lineNumber) && ((!EmptyStr(d.itemKey) && d.itemKey != "shipping_cost") || d.lineNumber != 0)
  }

  /** The three writes for one item: subtotal tax, tax and tax data. */
  function ItemTaxWritten(meta: map<int, map<string, Value>>, itemId: int, rateId: string, amount: int)
    : map<int, map<string, Value>>
  {
    Written(Written(Written(meta, itemId, "_line_subtotal_tax", VInt(amount)), itemId, "_line_tax", VInt(amount)),
            itemId, "_line_tax_data", LineTaxData(rateId, amount))
  }

  /** The inner loop: one detail against every line item. */
  function DetailItemsWritten(meta: map<int, map<string, Value>>, d: Detail, itemIds: seq<int>, rateId: string)
    : map<int, map<string, Value>>
  {
    if |itemIds| == 0 then meta
    else
      var m := DetailItemsWritten(meta, d, itemIds[..|itemIds| - 1], rateId);
      var id := itemIds[|itemIds| - 1];
      if DetailHitsItem(d, ItemProductId(m, id)) then ItemTaxWritten(m, id, rateId, d.amount) else m
  }

  /** The outer loop over the details. */
  function DetailsWritten(meta: map<int, map<string, Value>>, ds: seq<Detail>, itemIds: seq<int>, rateId: string)
    : map<int, map<string, Value>>
  {
    if |ds| == 0 then meta
    else DetailItemsWritten(DetailsWritten(meta, ds[..|ds| - 1], itemIds, rateId), ds[|ds| - 1], itemIds, rateId)
  }

  /**
   * The details as a list. Looping over a single detail object visits each
   * of its properties, and every visit makes the writes of that one detail
   * again (the third and fourth tests), so it writes what the list `[d]`
   * writes.
   */
  function DetailList(details: Details): seq<Detail>
  {
    match details
    case One(d) => [d]
    case Many(ds) => ds
  }

  /** add_or_update_product_order_tax: the item metadata after the writes. */
  function ProductOrderTax(meta: map<int, map<string, Value>>, r: Response, itemIds: seq<int>, rateId: string)
    : map<int, map<string, Value>>
  {
    if HasDetails(r) && |itemIds| > 0 then DetailsWritten(meta, DetailList(r.details), itemIds, rateId) else meta
  }

  /** The amount of the last detail that answers a product, if any. */
  function LastHit(ds: seq<Detail>, productId: Value): Option<int>
  {
    if |ds| == 0 then None
    else if DetailHitsItem(ds[|ds| - 1], productId) then Some(ds[|ds| - 1].amount)
    else LastHit(ds[..|ds| - 1], productId)
  }

  /** The tax writes leave the product ids of every item as they were. */
  lemma ItemTaxKeepsProduct(meta: map<int, map<string, Value>>, itemId: int, rateId: string, amount: int, x: int)
    ensures ItemProductId(ItemTaxWritten(meta, itemId, rateId, amount), x) == ItemProductId(meta, x)
  {
    var m1 := Written(meta, itemId, "_line_subtotal_tax", VInt(amount));
    var m2 := Written(m1, itemId, "_line_tax", VInt(amount));
    WrittenReads(meta, itemId, "_line_subtotal_tax", VInt(amount), x, "_variation_id");
    WrittenReads(meta, itemId, "_line_subtotal_tax", VInt(amount), x, "_product_id");
    WrittenReads(m1, itemId, "_line_tax", VInt(amount), x, "_variation_id");
    WrittenReads(m1, itemId, "_line_tax", VInt(amount), x, "_product_id");
    WrittenReads(m2, itemId, "_line_tax_data", LineTaxData(rateId, amount), x, "_variation_id");
    WrittenReads(m2, itemId, "_line_tax_data", LineTaxData(rateId, amount), x, "_product_id");
  }

  lemma {:induction false} DetailItemsKeepProduct(meta: map<int, map<string, Value>>, d: Detail, itemIds: seq<int>,
                                                  rateId: string, x: int)
    ensures ItemProductId(DetailItemsWritten(meta, d, itemIds, rateId), x) == ItemProductId(meta, x)
  {
    if |itemIds| > 0 {
      var m := DetailItemsWritten(meta, d, itemIds[..|itemIds| - 1], rateId);
      DetailItemsKeepProduct(meta, d, itemIds[..|itemIds| - 1], rateId, x);
      ItemTaxKeepsProduct(m, itemIds[|itemIds| - 1], rateId, d.amount, x);
    }
  }

  lemma {:induction false} DetailsKeepProduct(meta: map<int, map<string, Value>>, ds: seq<Detail>, itemIds: seq<int>,
                                              rateId: string, x: int)
    ensures ItemProductId(DetailsWritten(meta, ds, itemIds, rateId), x) == ItemProductId(meta, x)
  {
    if |ds| > 0 {
      DetailsKeepProduct(meta, ds[..|ds| - 1], itemIds, rateId, x);
      DetailItemsKeepProduct(DetailsWritten(meta, ds[..|ds| - 1], itemIds, rateId), ds[|ds| - 1], itemIds, rateId, x);
    }
  }

  /** The three writes set `_line_tax` of their item and no other item's. */
  lemma ItemTaxLineTax(meta: map<int, map<string, Value>>, itemId: int, rateId: string, amount: int, x: int)
    requires itemId > 0 && x > 0
    ensures Read(ItemTaxWritten(meta, itemId, rateId, amount), x, "_line_tax") ==
      if x == itemId then VInt(amount) else Read(meta, x, "_line_tax")
  {
    var m1 := Written(meta, itemId, "_line_subtotal_tax", VInt(amount));
    var m2 := Written(m1, itemId, "_line_tax", VInt(amount));
    WrittenReads(meta, itemId, "_line_subtotal_tax", VInt(amount), x, "_line_tax");
    WrittenReads(m1, itemId, "_line_tax", VInt(amount), x, "_line_tax");
    WrittenReads(m2, itemId, "_line_tax_data", LineTaxData(rateId, amount), x, "_line_tax");
  }

  lemma {:induction false} DetailItemsLineTax(meta: map<int, map<string, Value>>, d: Detail, itemIds: seq<int>,
                                              rateId: string, x: int)
    requires forall i :: 0 <= i < |itemIds| ==> itemIds[i] > 0
    requires x > 0
    ensures Read(DetailItemsWritten(meta, d, itemIds, rateId), x, "_line_tax") ==
      if x in itemIds && DetailHitsItem(d, ItemProductId(meta, x)) then VInt(d.amount) else Read(meta, x, "_line_tax")
  {
    if |itemIds| > 0 {
      var init := itemIds[..|itemIds| - 1];
      var id := itemIds[|itemIds| - 1];
      assert itemIds == init + [id];
      var m := DetailItemsWritten(meta, d, init, rateId);
      DetailItemsLineTax(meta, d, init, rateId, x);
      DetailItemsKeepProduct(meta, d, init, rateId, id);
      if DetailHitsItem(d, ItemProductId(m, id)) {
        ItemTaxLineTax(m, id, rateId, d.amount, x);
      }
    }
  }

  /**
   * After add_or_update_product_order_tax, the `_line_tax` of each line item
   * is the amount of the last detail that answers its product, or what it
   * was when no detail does.
   */
  lemma {:induction false} DetailsLineTax(meta: map<int, map<string, Value>>, ds: seq<Detail>, itemIds: seq<int>,
                                          rateId: string, x: int)
    requires forall i :: 0 <= i < |itemIds| ==> itemIds[i] > 0
    requires x in itemIds
    ensures Read(DetailsWritten(meta, ds, itemIds, rateId), x, "_line_tax") ==
      match LastHit(ds, ItemProductId(meta, x))
      case Some(a) => VInt(a)
      case None => Read(meta, x, "_line_tax")
  {
    if |ds| > 0 {
      var init := ds[..|ds| - 1];
      var m := DetailsWritten(meta, init, itemIds, rateId);
      DetailsLineTax(meta, init, itemIds, rateId, x);
      DetailsKeepProduct(meta, init, itemIds, rateId, x);
      DetailItemsLineTax(m, ds[|ds| - 1], itemIds, rateId, x);
    }
  }

  // ---------------------------------------------------------------------
  // The handlers' state
  // ---------------------------------------------------------------------

  /** get_item_ids( $order_id, 'line_item' ), with `false` read as no items. */
  function LineItemIds(shop: Shop, orderId: int): seq<int>
  {
    if orderId in shop.lineItemIds then shop.lineItemIds[orderId] else []
  }

  /** `wc_get_order( $order_id )`: `None` for `false`. */
  function OrderOf(shop: Shop, orderId: int): Option<HostOrder>
  {
    if orderId in shop.orders then Some(shop.orders[orderId]) else None
  }

  /** order_date_for_api for the order, '' when there is no such order. */
  function TaxDate(shop: Shop, orderId: int): string
  {
    if orderId in shop.orders then shop.orders[orderId].taxDate else ""
  }

  /**
   * Everything the handlers read or change: the order data store, the
   * order-item metadata, the SOAP client, the scheduler queue and the four
   * fields of the singleton.
   */
  datatype Snapshot = Snapshot(
    orders: map<int, OrderRecord>, cached: Option<int>,
    meta: map<int, map<string, Value>>, addedTaxes: seq<AddedTax>,
    clientCreated: bool, attempts: nat, calls: seq<ApiCall>,
    pending: seq<Scheduler.Action>, inserts: nat,
    tax: int, shippingTax: int, shippingItemId: int, shippingTaxable: bool)

  /** What the handlers only read: the settings, the configuration, the transport and the queue. */
  datatype Env = Env(values: map<string, Value>, config: Config, oracle: nat -> Outcome, accepts: nat -> bool)

  /** The store's own invariant: a cached order is one the store knows. */
  predicate Coherent(s: Snapshot)
  {
    s.cached.Some? ==> s.cached.value in s.orders
  }

  /** `update_meta( $id, $key, $v )` on the snapshot. */
  function SetMeta(s: Snapshot, id: int, key: string, v: Value): Snapshot
  {
    var t := Target(s.cached, s.orders, id);
    s.(cached := t, orders := UpdatedOrders(s.orders, t, key, v))
  }

  /** `delete_meta( $id, $key )` on the snapshot. */
  function DelMeta(s: Snapshot, id: int, key: string): Snapshot
  {
    var t := Target(s.cached, s.orders, id);
    s.(cached := t, orders := DeletedOrders(s.orders, t, key))
  }

  /** The commit flags cleared: `_taxify_is_commited` set to 'no' and the date deleted. */
  function Uncommitted(s: Snapshot, id: int): Snapshot
  {
    DelMeta(SetMeta(s, id, "_taxify_is_commited", VStr("no")), id, "_taxify_commited_date")
  }

  /** The commit flags set: 'yes' and the time of the commit. */
  function Committed(s: Snapshot, env: Env, id: int): Snapshot
  {
    SetMeta(SetMeta(s, id, "_taxify_is_commited", VStr("yes")), id, "_taxify_commited_date", VStr(env.config.mysqlNow))
  }

  /**
   * One API call: one transport outcome, the client built when missing, the
   * call recorded once a client exists, and the answer unless the call threw.
   */
  function Exchange(s: Snapshot, env: Env, call: ApiCall): (Snapshot, Option<Response>)
  {
    var o := env.oracle(s.attempts);
    var created := s.clientCreated || !o.ConnectFault?;
    (s.(attempts := s.attempts + 1, clientCreated := created, calls := if created then s.calls + [call] else s.calls),
     if created && o.Answer? then Some(o.r) else None)
  }

  // ---------------------------------------------------------------------
  // order_completed
  // ---------------------------------------------------------------------

  /** What `get_meta_data` returns for the target order, `false` without one. */
  function OrderMetaOf(orders: map<int, OrderRecord>, t: Option<int>): Value
  {
    if t.Some? && t.value in orders then VArr(MetaDataArray(t.value, orders[t.value])) else VBool(false)
  }

  /** The address filed: shipping when tax is based on it and a shipping postcode exists, else billing. */
  function OrderAddress(values: map<string, Value>, orderMeta: Value): (r: seq<Entry>)
    ensures |r| == 9 || |r| == 11
  {
    if LooseEqStr(OptionValue(values, "woocommerce_tax_based_on"), "shipping")
       && !Empty(Get(Get(orderMeta, "shipping"), "postcode"))
    then ShippingAddress(orderMeta) else BillingAddress(orderMeta)
  }

  /** get_discount_amount: the coupon item's `discount_amount`, or ''. */
  function DiscountAmount(shop: Shop, meta: map<int, map<string, Value>>, orderId: int): (r: Value)
    ensures Empty(r) ==> r == VStr("")
    ensures !Empty(r) ==> r == Read(meta, ItemId(shop, orderId, "coupon"), "discount_amount")
  {
    var v := Read(meta, ItemId(shop, orderId, "coupon"), "discount_amount");
    if !Empty(v) then v else VStr("")
  }

  /** get_postmeta_customer_id for an order record. */
  function CustomerKey(rec: OrderRecord): Value
  {
    if rec.customerId != 0 then VInt(rec.customerId) else MetaGet(rec.meta, "_taxify_cart_document_key")
  }

  /** tax_exempt_status for an order record. */
  function ExemptStatus(rec: OrderRecord): string
  {
    if IsYes(MetaGet(rec.meta, "taxify_exempt")) then "exempt" else ""
  }

  /** The order fields of `$data`, before the address is merged in. */
  function FilingHead(orderId: int, taxDate: string, isCommitted: bool, customerKey: Value, exempt: string,
                      discountType: Value): seq<Entry>
  {
    [Entry(SK("document_key"), VInt(orderId)), Entry(SK("tax_date"), VStr(taxDate)),
     Entry(SK("is_commited"), VBool(isCommitted)), Entry(SK("customer_key"), customerKey),
     Entry(SK("is_exempt"), VStr(exempt)), Entry(SK("discount_discount_type"), discountType)]
  }

  /** The order fields and address order_completed files, with the coupon discount read beside them. */
  datatype OrderData = Unfiled | OrderData(data: seq<Entry>, discount: Value)

  /**
   * The reads at the start of order_completed: nothing to file without order
   * metadata, without a `total` or with an address outside the US;
   * otherwise the order fields merged with the address.
   */
  function OrderDataOf(s: Snapshot, env: Env, shop: Shop, orderId: int, isCommitted: bool): OrderData
    requires Coherent(s)
  {
    var t := Target(s.cached, s.orders, orderId);
    var orderMeta := OrderMetaOf(s.orders, t);
    if Empty(orderMeta) || Empty(Get(orderMeta, "total")) then Unfiled
    else OrderFieldsOf(s.orders[t.value], env.values, shop, s.meta, orderId, isCommitted, orderMeta)
  }

  /** The reads after the order metadata: the address, the coupon discount and the customer fields. */
  function OrderFieldsOf(rec: OrderRecord, values: map<string, Value>, shop: Shop, meta: map<int, map<string, Value>>,
                         orderId: int, isCommitted: bool, orderMeta: Value): OrderData
    requires orderMeta.VArr?
  {
    var address := OrderAddress(values, orderMeta);
    var discount := DiscountAmount(shop, meta, orderId);
    if !ValidAddress(VArr(address)) then Unfiled
    else
      OrderData(MergeStr(FilingHead(orderId, TaxDate(shop, orderId), isCommitted, CustomerKey(rec),
                                    ExemptStatus(rec), Field(orderMeta.a, "discount_type")), address),
                discount)
  }

  /** Where order_completed stops before the call, or what it files. */
  datatype Prepared =
    | NotFiled
    | Fatal
    | Filing(data: seq<Entry>, lines: seq<Entry>, discount: Value)

  /**
   * The line items of order_completed: a fatal error for an order that
   * cannot be read; otherwise the shipping item and its taxability go into
   * the fields and the items are filed, with the shipping cost when taxable.
   */
  function WithLines(s: Snapshot, env: Env, shop: Shop, orderId: int, data: seq<Entry>, discount: Value)
    : (r: (Snapshot, Prepared))
    ensures r.0 == s.(shippingItemId := r.0.shippingItemId, shippingTaxable := r.0.shippingTaxable)
    ensures r.1.Filing? ==> |r.1.lines| == 0 || orderId in shop.orders
  {
    match OrderLines(shop, env.values, env.config.storePrefix, OrderOf(shop, orderId))
    case None => (s, Fatal)
    case Some(items) =>
      var sid := ItemId(shop, orderId, "shipping");
      var taxable := IsShippingTaxable(env.values, ShippingMethod(shop, orderId));
      (s.(shippingItemId := sid, shippingTaxable := taxable),
       Filing(data, FiledLines(items, taxable, ShippingCost(s.meta, sid)), discount))
  }

  /** order_completed up to the call: the reads through the store, then the line items. */
  function Prepare(s: Snapshot, env: Env, shop: Shop, orderId: int, isCommitted: bool): (r: (Snapshot, Prepared))
    requires Coherent(s)
    ensures Coherent(r.0) && r.0.orders == s.orders && r.0.meta == s.meta && r.0.calls == s.calls
    ensures r.0.cached == Target(s.cached, s.orders, orderId)
    ensures r.1.Filing? ==> |r.1.lines| == 0 || orderId in shop.orders
  {
    var s1 := s.(cached := Target(s.cached, s.orders, orderId));
    match OrderDataOf(s, env, shop, orderId, isCommitted)
    case Unfiled => (s1, NotFiled)
    case OrderData(data, discount) => WithLines(s1, env, shop, orderId, data, discount)
  }

  /** `$taxes` of update_shipping_taxes: the shipping tax under the rate id, as `total`. */
  function ShippingTaxes(rateId: string, shippingTax: int): Value
  {
    VArr([Entry(SK("total"), VArr([Entry(SK(rateId), VInt(shippingTax))]))])
  }

  /** The tax item's amounts, when the order has a tax item. */
  function TaxItemWrites(meta: map<int, map<string, Value>>, taxItemId: int, tax: int): map<int, map<string, Value>>
  {
    if taxItemId != 0 then Written(Written(meta, taxItemId, "tax_amount", VInt(tax)), taxItemId, "tax_total", VInt(tax))
    else meta
  }

  /** The coupon item's discount, when one is set. */
  function CouponWrite(meta: map<int, map<string, Value>>, couponItemId: int, discount: Value): map<int, map<string, Value>>
  {
    if !Empty(discount) then Written(meta, couponItemId, "discount_amount", discount) else meta
  }

  /** maybe_add_or_update_order_tax on the item metadata: the existing tax item's amounts. */
  function OrderTaxWrites(meta: map<int, map<string, Value>>, taxItemId: int, tax: int, shippingTax: int)
    : map<int, map<string, Value>>
  {
    if tax != 0 && taxItemId != 0 then
      Written(Written(meta, taxItemId, "tax_amount", VInt(tax)), taxItemId, "shipping_tax_amount", VInt(shippingTax))
    else meta
  }

  /** maybe_add_or_update_order_tax on the order: a new tax item when there is none. */
  function NewTaxItems(orderId: int, taxItemId: int, rateId: string, tax: int, shippingTax: int): seq<AddedTax>
  {
    if tax != 0 && taxItemId == 0 then [AddedTax(orderId, rateId, tax, shippingTax)] else []
  }

  /** update_shipping_taxes, then the shipping item's `total_tax`. */
  function ShippingTaxWrites(meta: map<int, map<string, Value>>, sid: int, rateId: string, shippingTax: int)
    : map<int, map<string, Value>>
  {
    Written(Written(Erased(meta, sid, "taxes"), sid, "taxes", ShippingTaxes(rateId, shippingTax)),
            sid, "total_tax", VInt(shippingTax))
  }

  /**
   * The Success branch of order_completed: the fields take the tax read
   * back (the shipping tax only when shipping is taxable), the order gets
   * both totals, the items their taxes, and the commit flags are set when
   * the call committed.
   */
  function Succeeded(s: Snapshot, env: Env, shop: Shop, orderId: int, isCommitted: bool,
                     r: Response, lines: seq<Entry>, discount: Value): Snapshot
  {
    var s2 := TaxesRecorded(TotalsWritten(s, env, shop, orderId, r, lines, discount), env, shop, orderId, r);
    if isCommitted then Committed(s2, env, orderId) else s2
  }

  /**
   * The first writes of the Success branch: the two tax fields, both order
   * totals, the tax item's amounts and the coupon's discount.
   */
  function TotalsWritten(s: Snapshot, env: Env, shop: Shop, orderId: int,
                         r: Response, lines: seq<Entry>, discount: Value): Snapshot
  {
    var tax := LineItemsTaxOf(r, lines);
    var shippingTax := if s.shippingTaxable then ShippingTaxOf(r) else s.shippingTax;
    var s1 := SetMeta(SetMeta(s.(tax := tax, shippingTax := shippingTax), orderId, "_order_tax", VInt(tax)),
                      orderId, "_order_shipping_tax", VInt(shippingTax));
    s1.(meta := CouponWrite(TaxItemWrites(s.meta, ItemId(shop, orderId, "tax"), tax), ItemId(shop, orderId, "coupon"), discount))
  }

  /** The item writes after the totals: each product's taxes, then the order's and the shipping item's. */
  function TaxesRecorded(s: Snapshot, env: Env, shop: Shop, orderId: int, r: Response): Snapshot
  {
    var taxItemId := ItemId(shop, orderId, "tax");
    var rate := env.config.rateId;
    var m := OrderTaxWrites(ProductOrderTax(s.meta, r, LineItemIds(shop, orderId), rate), taxItemId, s.tax, s.shippingTax);
    s.(meta := ShippingTaxWrites(m, s.shippingItemId, rate, s.shippingTax),
       addedTaxes := s.addedTaxes + NewTaxItems(orderId, taxItemId, rate, s.tax, s.shippingTax))
  }

  /** The Failure (or no answer) branch: the flags cleared and a retry an hour from now. */
  function Failed(s: Snapshot, env: Env, shop: Shop, orderId: int): Snapshot
  {
    var s1 := Uncommitted(s, orderId);
    if OrderExists(shop, orderId) then
      var q := Scheduler.ScheduleOn(s1.pending, s1.inserts, env.accepts, env.config.now + Scheduler.HourInSeconds,
                                    Scheduler.MissedHook, Scheduler.IdArgs(orderId), "");
      s1.(pending := q.pending, inserts := q.inserts)
    else s1
  }

  /**
   * order_completed from the call on: CalculateTax with the order's
   * refunds; Failure or no answer takes the Failure branch, Success the
   * Success branch, and any other status changes nothing more.
   */
  function Filed(s: Snapshot, env: Env, shop: Shop, orderId: int, isCommitted: bool,
                 data: seq<Entry>, lines: seq<Entry>, discount: Value): Snapshot
  {
    var (s1, res) := Exchange(s, env, CalculateCall(data, lines, OrderRefunds(shop, orderId), env.config.today));
    if res.None? || StatusIs(res.value, "Failure") then Failed(s1, env, shop, orderId)
    else if StatusIs(res.value, "Success") then Succeeded(s1, env, shop, orderId, isCommitted, res.value, lines, discount)
    else s1
  }

  /** order_completed: the state after it, and whether it ended in a fatal error. */
  function Completed(s: Snapshot, env: Env, shop: Shop, orderId: int, isCommitted: bool): (r: (Snapshot, bool))
    requires Coherent(s)
  {
    var (s1, p) := Prepare(s, env, shop, orderId, isCommitted);
    if !p.Filing? || |p.lines| == 0 then (s1, p.Fatal?)
    else (Filed(s1, env, shop, orderId, isCommitted, p.data, p.lines, p.discount), false)
  }

  // ---------------------------------------------------------------------
  // The other handlers
  // ---------------------------------------------------------------------

  /** The statuses order_cancelled cancels the filing for. */
  const CancelStatuses: set<string> := {"saved", "pending", "processing", "on-hold", "cancelled", "failed"}

  /** The guard of order_cancelled: no order is both completed and refunded, so it admits every order. */
  predicate CancelGuard(shop: Shop, orderId: int)
  {
    !IsOrderStatusCompleted(shop, orderId) || !IsOrderStatusRefunded(shop, orderId)
  }

  /**
   * order_cancelled: CancelTax for one of the cancelling statuses; on
   * Success the flags are cleared and the order is recalculated uncommitted.
   */
  function Cancelled(s: Snapshot, env: Env, shop: Shop, orderId: int, newStatus: string): (r: (Snapshot, bool))
    requires Coherent(s)
  {
    if !CancelGuard(shop, orderId) || newStatus !in CancelStatuses then (s, false)
    else
      var (s1, res) := Exchange(s, env, CancelCall(VInt(orderId)));
      if res.Some? && StatusIs(res.value, "Success") then Completed(Uncommitted(s1, orderId), env, shop, orderId, false)
      else (s1, false)
  }

  /** is_commited_to_taxify read through the store: the target and whether its flag is 'yes'. */
  function CommittedFlag(s: Snapshot, orderId: int): (r: (Snapshot, bool))
    requires Coherent(s)
    ensures Coherent(r.0) && r.0 == s.(cached := Target(s.cached, s.orders, orderId))
  {
    var t := Target(s.cached, s.orders, orderId);
    (s.(cached := t), t.Some? && IsYes(MetaGet(s.orders[t.value].meta, "_taxify_is_commited")))
  }

  /** call_order_cancelled: order_cancelled with status `saved` unless the order is committed. */
  function CallCancelled(s: Snapshot, env: Env, shop: Shop, orderId: int): (Snapshot, bool)
    requires Coherent(s)
  {
    var (s1, committed) := CommittedFlag(s, orderId);
    if committed then (s1, false) else Cancelled(s1, env, shop, orderId, "saved")
  }

  /**
   * is_order_fully_refunded: `None` for a missing order (a method call on
   * `false`), otherwise whether the refunds reach the total or the status
   * says refunded.
   */
  function FullyRefunded(shop: Shop, orderId: int): (r: Option<bool>)
    ensures r.None? <==> orderId !in shop.orders
    ensures r == Some(true) <==>
      (orderId in shop.orders
       && (shop.orders[orderId].refunded >= shop.orders[orderId].total || PostStatus(shop, orderId) == "wc-refunded"))
  {
    if orderId !in shop.orders then None
    else
      var o := shop.orders[orderId];
      Some(o.refunded >= o.total || PostStatus(shop, orderId) == "wc-refunded")
  }

  /**
   * call_order_completed_or_cancel_for_refund_update: a fully refunded
   * order is only cancelled; any other order is filed again, committed.
   */
  function RefundUpdate(s: Snapshot, env: Env, shop: Shop, orderId: int): (Snapshot, bool)
    requires Coherent(s)
  {
    match FullyRefunded(shop, orderId)
    case None => (s, true)
    case Some(true) =>
      var (s1, res) := Exchange(s, env, CancelCall(VInt(orderId)));
      (if res.Some? && StatusIs(res.value, "Success") then Uncommitted(s1, orderId) else s1, false)
    case Some(false) => Completed(s, env, shop, orderId, true)
  }

  /** The single line order_refunded files: the refund as a negative price. */
  function RefundLine(orderId: int, refundTotal: int): Value
  {
    VArr([Entry(SK("LineNumber"), VInt(1)), Entry(SK("ItemKey"), VStr("refund")),
          Entry(SK("ActualExtendedPrice"), VInt(refundTotal)), Entry(SK("TaxIncludedInPrice"), VBool(false)),
          Entry(SK("Quantity"), VInt(1)), Entry(SK("ItemDescription"), VStr("Refund for Order# " + IntToStr(orderId))),
          Entry(SK("ItemTaxabilityCode"), VStr("none")), Entry(SK("ItemCategories"), VStr("taxify"))])
  }

  /** The `$items` of order_refunded: the refund line alone. */
  function RefundItems(orderId: int, refundTotal: int): seq<Entry>
  {
    [Entry(IK(0), RefundLine(orderId, refundTotal))]
  }

  /** The order fields of a refund filing. */
  function RefundHead(refundId: int, taxDate: string, customerKey: Value, exempt: string): seq<Entry>
  {
    [Entry(SK("document_key"), VInt(refundId)), Entry(SK("tax_date"), VStr(taxDate)),
     Entry(SK("is_commited"), VBool(true)), Entry(SK("customer_key"), customerKey),
     Entry(SK("is_exempt"), VStr(exempt))]
  }

  /** The refund's order fields merged with the order's address, unless the order has no metadata or no US address. */
  function RefundDataOf(s: Snapshot, env: Env, shop: Shop, orderId: int, refundId: int): Option<seq<Entry>>
    requires Coherent(s)
  {
    var t := Target(s.cached, s.orders, orderId);
    var orderMeta := OrderMetaOf(s.orders, t);
    if Empty(orderMeta) then None
    else RefundFieldsOf(s.orders[t.value], env.values, shop, orderId, refundId, orderMeta)
  }

  /** The reads of order_refunded after the order metadata: the address, then the customer fields. */
  function RefundFieldsOf(rec: OrderRecord, values: map<string, Value>, shop: Shop, orderId: int, refundId: int,
                          orderMeta: Value): Option<seq<Entry>>
  {
    var address := OrderAddress(values, orderMeta);
    if !ValidAddress(VArr(address)) then None
    else Some(MergeStr(RefundHead(refundId, TaxDate(shop, orderId), CustomerKey(rec), ExemptStatus(rec)), address))
  }

  /**
   * order_refunded from the call on: the refund is filed, committed, as one
   * negative line. On Success the flags are written through the store for
   * the refund id, so they land on whatever order the store has cached;
   * without an answer the order's flags are cleared.
   */
  function RefundSent(s: Snapshot, env: Env, shop: Shop, orderId: int, refundId: int, data: seq<Entry>): Snapshot
  {
    var lines := RefundItems(orderId, -(RefundAmount(shop, refundId) as int));
    var (s1, res) := Exchange(s, env, CalculateCall(data, lines, [], env.config.today));
    if res.None? then Uncommitted(s1, orderId)
    else if StatusIs(res.value, "Success") then Committed(s1, env, refundId)
    else s1
  }

  /** order_refunded: the reads, then the filing when there is an order with a US address. */
  function RefundFiled(s: Snapshot, env: Env, shop: Shop, orderId: int, refundId: int): Snapshot
    requires Coherent(s)
  {
    var s1 := s.(cached := Target(s.cached, s.orders, orderId));
    match RefundDataOf(s, env, shop, orderId, refundId)
    case None => s1
    case Some(data) => RefundSent(s1, env, shop, orderId, refundId, data)
  }

  /** refund_deleted: cancels the refund's filing; Success clears the order's flags. */
  function RefundCancelled(s: Snapshot, env: Env, refundId: int, orderId: int): Snapshot
  {
    var (s1, res) := Exchange(s, env, CancelCall(VInt(refundId)));
    if res.Some? && StatusIs(res.value, "Success") then Uncommitted(s1, orderId) else s1
  }

  /** delete_order: cancels the filing and only logs the answer. */
  function Deleted(s: Snapshot, env: Env, orderId: int): Snapshot
  {
    Exchange(s, env, CancelCall(VInt(orderId))).0
  }

  /** delete_order_from_taxify: nothing for an empty id; otherwise CancelTax, and Success clears the flags. */
  function DeletedFromTaxify(s: Snapshot, env: Env, orderId: int): Snapshot
  {
    if orderId == 0 then s
    else
      var (s1, res) := Exchange(s, env, CancelCall(VInt(orderId)));
      if res.Some? && StatusIs(res.value, "Success") then Uncommitted(s1, orderId) else s1
  }

  /** The `$data` commit_order sends: the cart's document key and a fresh commit key. */
  function CommitData(documentKey: Value, commitKey: string): seq<Entry>
  {
    [Entry(SK("document_key"), documentKey), Entry(SK("commited_document_key"), VStr(commitKey))]
  }

  /** commit_order: commits the cart's document; Success stores the commit key on the order. */
  function OrderCommitted(s: Snapshot, env: Env, orderId: int, commitKey: string): Snapshot
    requires Coherent(s)
  {
    var t := Target(s.cached, s.orders, orderId);
    var documentKey := if t.Some? then MetaGet(s.orders[t.value].meta, "_taxify_cart_document_key") else VBool(false);
    var (s1, res) := Exchange(s.(cached := t), env, CommitCall(CommitData(documentKey, commitKey)));
    if res.Some? && StatusIs(res.value, "Success") then SetMeta(s1, orderId, "taxify_commited_document_key", VStr(commitKey))
    else s1
  }

  /** file_orders: order_completed, committed, for a completed order that exists and is not committed yet. */
  function OrderFiled(s: Snapshot, env: Env, shop: Shop, orderId: int): (Snapshot, bool)
    requires Coherent(s)
  {
    var (s1, committed) := CommittedFlag(s, orderId);
    if !committed && IsOrderStatusCompleted(shop, orderId) && OrderExists(shop, orderId) then
      Completed(s1, env, shop, orderId, true)
    else (s1, false)
  }

  // ---------------------------------------------------------------------
  // WC_Taxify_Order
  // ---------------------------------------------------------------------

  /**
   * The singleton: the collaborators it calls and the four fields that keep
   * their values from one handler call to the next.
   */
  class TaxifyOrder {
    const store: Store
    const soap: Soap
    const scheduler: Scheduler.Scheduler
    const itemMeta: ItemMeta
    const values: map<string, Value>
    const config: Config
    var tax: int
    var shippingTax: int
    var shippingItemId: int
    var isShippingTaxable: bool

    ghost predicate Valid()
      reads this, store, soap
    {
      store.Valid() && soap.Valid()
    }

    /** The state every handler is specified on. */
    ghost function Now(): Snapshot
      reads this, store, soap, scheduler, itemMeta
    {
      Snapshot(store.orders, store.cached, itemMeta.meta, itemMeta.addedTaxes,
               soap.clientCreated, soap.attempts, soap.calls,
               scheduler.pending, scheduler.inserts,
               tax, shippingTax, shippingItemId, isShippingTaxable)
    }

    function Settings(): Env
    {
      Env(values, config, soap.oracle, scheduler.accepts)
    }

    constructor(store: Store, soap: Soap, scheduler: Scheduler.Scheduler, itemMeta: ItemMeta,
                values: map<string, Value>, config: Config)
      requires store.Valid() && soap.Valid()
      ensures Valid()
      ensures this.store == store && this.soap == soap && this.scheduler == scheduler && this.itemMeta == itemMeta
      ensures this.values == values && this.config == config
      ensures tax == 0 && shippingTax == 0 && shippingItemId == 0 && !isShippingTaxable
    {
      this.store := store;
      this.soap := soap;
      this.scheduler := scheduler;
      this.itemMeta := itemMeta;
      this.values := values;
      this.config := config;
      tax := 0;
      shippingTax := 0;
      shippingItemId := 0;
      isShippingTaxable := false;
    }

    /** The customer key and exempt status of the order the store has already cached. */
    method ReadCustomer(orderId: int) returns (customerKey: Value, exempt: string)
      requires Valid() && store.cached.Some?
      modifies store
      ensures Valid() && Now() == old(Now())
      ensures customerKey == CustomerKey(store.orders[store.cached.value])
      ensures exempt == ExemptStatus(store.orders[store.cached.value])
    {
      customerKey := PostmetaCustomerId(store, orderId);
      exempt := TaxExemptStatus(store, orderId);
    }

    /** The reads at the start of order_completed, through the store. */
    method ReadOrderData(shop: Shop, orderId: int, isCommitted: bool) returns (d: OrderData)
      requires Valid()
      modifies store
      ensures Valid()
      ensures Now() == old(Now()).(cached := Target(old(store.cached), store.orders, orderId))
      ensures d == OrderDataOf(old(Now()), Settings(), shop, orderId, isCommitted)
    {
      var orderMeta := store.GetMetaData(orderId);
      assert orderMeta == OrderMetaOf(store.orders, store.cached);
      if Empty(orderMeta) || Empty(Get(orderMeta, "total")) {
        return Unfiled;
      }
      d := ReadOrderFields(shop, orderId, isCommitted, orderMeta);
    }

    /** order_completed's reads after the order metadata, from the order the store has cached. */
    method ReadOrderFields(shop: Shop, orderId: int, isCommitted: bool, orderMeta: Value) returns (d: OrderData)
      requires Valid() && store.cached.Some? && orderMeta.VArr?
      modifies store
      ensures Valid() && Now() == old(Now())
      ensures d == OrderFieldsOf(store.orders[store.cached.value], values, shop, itemMeta.meta, orderId, isCommitted, orderMeta)
    {
      var address := OrderAddress(values, orderMeta);
      var discount := DiscountAmount(shop, itemMeta.meta, orderId);
      if !ValidAddress(VArr(address)) {
        return Unfiled;
      }
      var customerKey, exempt := ReadCustomer(orderId);
      var data := MergeStr(FilingHead(orderId, TaxDate(shop, orderId), isCommitted, customerKey, exempt,
                                      Field(orderMeta.a, "discount_type")), address);
      d := OrderData(data, discount);
    }

    /** The shipping item, its taxability and the lines filed: the shipping cost joins the items when taxable. */
    method ShippingLines(shop: Shop, orderId: int, items: seq<Entry>) returns (lines: seq<Entry>)
      modifies this
      ensures shippingItemId == ItemId(shop, orderId, "shipping")
      ensures isShippingTaxable == IsShippingTaxable(values, ShippingMethod(shop, orderId))
      ensures tax == old(tax) && shippingTax == old(shippingTax)
      ensures lines == FiledLines(items, isShippingTaxable, ShippingCost(itemMeta.meta, shippingItemId))
    {
      shippingItemId := ItemId(shop, orderId, "shipping");
      var shippingMethod := GetShippingMethod(shop, orderId);
      isShippingTaxable := IsShippingTaxable(values, shippingMethod);
      lines := items;
      if |items| > 0 && isShippingTaxable {
        var totalShipping := ShippingCost(itemMeta.meta, shippingItemId);
        if |totalShipping| > 0 {
          lines := ListMerge(items, totalShipping);
        }
      }
    }

    /** The line items of order_completed. */
    method CollectLines(shop: Shop, orderId: int, data: seq<Entry>, discount: Value) returns (p: Prepared)
      modifies this
      ensures (Now(), p) == WithLines(old(Now()), Settings(), shop, orderId, data, discount)
    {
      var items := GetCartLineItems(shop, values, config.storePrefix, OrderOf(shop, orderId));
      if items.None? {
        return Fatal;
      }
      var lines := ShippingLines(shop, orderId, items.value);
      p := Filing(data, lines, discount);
    }

    /** order_completed up to the call. */
    method PrepareFiling(shop: Shop, orderId: int, isCommitted: bool) returns (p: Prepared)
      requires Valid()
      modifies this, store
      ensures Valid()
      ensures (Now(), p) == Prepare(old(Now()), Settings(), shop, orderId, isCommitted)
    {
      var d := ReadOrderData(shop, orderId, isCommitted);
      if d.Unfiled? {
        return NotFiled;
      }
      p := CollectLines(shop, orderId, d.data, d.discount);
    }

    /** add_or_update_product_order_tax's inner loop: one detail against every line item. */
    method WriteDetailTaxes(d: Detail, itemIds: seq<int>)
      modifies itemMeta
      ensures itemMeta.meta == DetailItemsWritten(old(itemMeta.meta), d, itemIds, config.rateId)
      ensures itemMeta.addedTaxes == old(itemMeta.addedTaxes)
    {
      var j := 0;
      while j < |itemIds|
        invariant 0 <= j <= |itemIds|
        invariant itemMeta.meta == DetailItemsWritten(old(itemMeta.meta), d, itemIds[..j], config.rateId)
        invariant itemMeta.addedTaxes == old(itemMeta.addedTaxes)
      {
        assert itemIds[..j + 1][..j] == itemIds[..j];
        var id := itemIds[j];
        var productId := ItemProductId(itemMeta.meta, id);
        if (!EmptyStr(d.itemKey) && d.itemKey != "shipping_cost" && LooseEqInt(productId, d.lineNumber))
           || (d.lineNumber != 0 && LooseEqInt(productId, d.lineNumber)) {
          itemMeta.Update(id, "_line_subtotal_tax", VInt(d.amount));
          itemMeta.Update(id, "_line_tax", VInt(d.amount));
          itemMeta.Update(id, "_line_tax_data", LineTaxData(config.rateId, d.amount));
        }
        j := j + 1;
      }
      assert itemIds[..|itemIds|] == itemIds;
    }

    /** add_or_update_product_order_tax: every detail against every line item of the order. */
    method AddOrUpdateProductOrderTax(shop: Shop, r: Response, orderId: int)
      modifies itemMeta
      ensures itemMeta.meta == ProductOrderTax(old(itemMeta.meta), r, LineItemIds(shop, orderId), config.rateId)
      ensures itemMeta.addedTaxes == old(itemMeta.addedTaxes)
    {
      var itemIds := LineItemIds(shop, orderId);
      if HasDetails(r) && |itemIds| > 0 {
        var ds := DetailList(r.details);
        var i := 0;
        while i < |ds|
          invariant 0 <= i <= |ds|
          invariant itemMeta.meta == DetailsWritten(old(itemMeta.meta), ds[..i], itemIds, config.rateId)
          invariant itemMeta.addedTaxes == old(itemMeta.addedTaxes)
        {
          assert ds[..i + 1][..i] == ds[..i];
          WriteDetailTaxes(ds[i], itemIds);
          i := i + 1;
        }
        assert ds[..|ds|] == ds;
      }
    }

    /** maybe_add_or_update_order_tax: for a non-zero tax, update the tax item or add one. */
    method MaybeAddOrUpdateOrderTax(shop: Shop, orderId: int)
      modifies itemMeta
      ensures var taxItemId := ItemId(shop, orderId, "tax");
        itemMeta.meta == OrderTaxWrites(old(itemMeta.meta), taxItemId, tax, shippingTax)
        && itemMeta.addedTaxes == old(itemMeta.addedTaxes) + NewTaxItems(orderId, taxItemId, config.rateId, tax, shippingTax)
    {
      if tax != 0 {
        var itemId := ItemId(shop, orderId, "tax");
        if itemId != 0 {
          itemMeta.Update(itemId, "tax_amount", VInt(tax));
          itemMeta.Update(itemId, "shipping_tax_amount", VInt(shippingTax));
        } else {
          itemMeta.AddTax(orderId, config.rateId, tax, shippingTax);
        }
      }
    }

    /** update_shipping_taxes, then the shipping item's `total_tax`. */
    method UpdateShippingTaxes()
      modifies itemMeta
      ensures itemMeta.meta == ShippingTaxWrites(old(itemMeta.meta), shippingItemId, config.rateId, shippingTax)
      ensures itemMeta.addedTaxes == old(itemMeta.addedTaxes)
    {
      itemMeta.Delete(shippingItemId, "taxes");
      itemMeta.Update(shippingItemId, "taxes", ShippingTaxes(config.rateId, shippingTax));
      itemMeta.Update(shippingItemId, "total_tax", VInt(shippingTax));
    }

    /** update_meta on the order, through the store. */
    method SetOrderMeta(id: int, key: string, v: Value)
      requires Valid()
      modifies store
      ensures Valid()
      ensures Now() == SetMeta(old(Now()), id, key, v)
    {
      store.UpdateMeta(id, key, v);
    }

    /** The commit flags cleared: 'no', and the commit date deleted. */
    method ClearCommitFlags(id: int)
      requires Valid()
      modifies store
      ensures Valid()
      ensures Now() == Uncommitted(old(Now()), id)
    {
      store.UpdateMeta(id, "_taxify_is_commited", VStr("no"));
      store.DeleteMeta(id, "_taxify_commited_date");
    }

    /** The commit flags set: 'yes', and the commit date. */
    method SetCommitFlags(id: int)
      requires Valid()
      modifies store
      ensures Valid()
      ensures Now() == Committed(old(Now()), Settings(), id)
    {
      store.UpdateMeta(id, "_taxify_is_commited", VStr("yes"));
      store.UpdateMeta(id, "_taxify_commited_date", VStr(config.mysqlNow));
    }

    /** The tax item's amounts and the coupon's discount, as the Success branch writes them first. */
    method WriteTaxAndCoupon(taxItemId: int, couponItemId: int, discount: Value)
      modifies itemMeta
      ensures itemMeta.meta == CouponWrite(TaxItemWrites(old(itemMeta.meta), taxItemId, tax), couponItemId, discount)
      ensures itemMeta.addedTaxes == old(itemMeta.addedTaxes)
    {
      if taxItemId != 0 {
        itemMeta.Update(taxItemId, "tax_amount", VInt(tax));
        itemMeta.Update(taxItemId, "tax_total", VInt(tax));
      }
      if !Empty(discount) {
        itemMeta.Update(couponItemId, "discount_amount", discount);
      }
    }

    /** The item taxes the Success branch writes after the order totals. */
    method WriteItemTaxes(shop: Shop, orderId: int, r: Response)
      modifies itemMeta
      ensures var taxItemId := ItemId(shop, orderId, "tax");
        itemMeta.meta == ShippingTaxWrites(OrderTaxWrites(ProductOrderTax(old(itemMeta.meta), r, LineItemIds(shop, orderId), config.rateId),
                                                          taxItemId, tax, shippingTax),
                                           shippingItemId, config.rateId, shippingTax)
        && itemMeta.addedTaxes == old(itemMeta.addedTaxes) + NewTaxItems(orderId, taxItemId, config.rateId, tax, shippingTax)
    {
      AddOrUpdateProductOrderTax(shop, r, orderId);
      MaybeAddOrUpdateOrderTax(shop, orderId);
      UpdateShippingTaxes();
    }

    /** The Success branch of order_completed. */
    method FileSucceeded(shop: Shop, orderId: int, isCommitted: bool, r: Response, lines: seq<Entry>, discount: Value)
      requires Valid()
      modifies this, store, itemMeta
      ensures Valid()
      ensures Now() == Succeeded(old(Now()), Settings(), shop, orderId, isCommitted, r, lines, discount)
    {
      WriteTotals(shop, orderId, r, lines, discount);
      WriteItemTaxes(shop, orderId, r);
      if isCommitted {
        SetCommitFlags(orderId);
      }
    }

    /** The Success branch up to the item writes. */
    method WriteTotals(shop: Shop, orderId: int, r: Response, lines: seq<Entry>, discount: Value)
      requires Valid()
      modifies this, store, itemMeta
      ensures Valid()
      ensures Now() == TotalsWritten(old(Now()), Settings(), shop, orderId, r, lines, discount)
    {
      ghost var s0 := Now();
      tax := GetLineItemsTax(r, lines);
      var taxItemId := ItemId(shop, orderId, "tax");
      var couponItemId := ItemId(shop, orderId, "coupon");
      if isShippingTaxable {
        shippingTax := GetShippingTax(r);
      }
      assert tax == LineItemsTaxOf(r, lines);
      assert shippingTax == if s0.shippingTaxable then ShippingTaxOf(r) else s0.shippingTax;
      assert Now() == s0.(tax := tax, shippingTax := shippingTax);
      SetOrderMeta(orderId, "_order_tax", VInt(tax));
      WriteTaxAndCoupon(taxItemId, couponItemId, discount);
      SetOrderMeta(orderId, "_order_shipping_tax", VInt(shippingTax));
    }

    /** The Failure branch of order_completed, also taken without an answer. */
    method FileFailed(shop: Shop, orderId: int)
      requires Valid()
      modifies store, scheduler
      ensures Valid()
      ensures Now() == Failed(old(Now()), Settings(), shop, orderId)
    {
      ClearCommitFlags(orderId);
      scheduler.ScheduleMissedOrder(shop, config.now, orderId);
    }

    /** What one SOAP call did to the client, stated without the request it built. */
    ghost predicate Called(attempts0: nat, client0: bool, calls0: seq<ApiCall>, call: ApiCall, r: Option<Response>)
      reads soap
    {
      var o := soap.oracle(attempts0);
      var created := client0 || !o.ConnectFault?;
      soap.attempts == attempts0 + 1 && soap.clientCreated == created
      && soap.calls == (if created then calls0 + [call] else calls0)
      && r == (if created && o.Answer? then Some(o.r) else None)
    }

    /** The three SOAP operations the handlers use, as seen from the client. */
    method SendCalculate(data: seq<Entry>, lines: seq<Entry>, refunds: seq<Entry>) returns (r: Option<Response>)
      requires Valid()
      modifies soap
      ensures Valid()
      ensures Called(old(soap.attempts), old(soap.clientCreated), old(soap.calls),
                     CalculateCall(data, lines, refunds, config.today), r)
    {
      r := soap.CalculateTax(data, lines, refunds, config.today);
    }

    method SendCancel(documentKey: Value) returns (r: Option<Response>)
      requires Valid()
      modifies soap
      ensures Valid()
      ensures Called(old(soap.attempts), old(soap.clientCreated), old(soap.calls), CancelCall(documentKey), r)
    {
      r := soap.CancelTax(documentKey);
    }

    method SendCommit(data: seq<Entry>) returns (r: Option<Response>)
      requires Valid()
      modifies soap
      ensures Valid()
      ensures Called(old(soap.attempts), old(soap.clientCreated), old(soap.calls), CommitCall(data), r)
    {
      r := soap.CommitTax(data);
    }

    /** The SOAP calls as the snapshot sees them. */
    method CalculateTax(data: seq<Entry>, lines: seq<Entry>, refunds: seq<Entry>) returns (r: Option<Response>)
      requires Valid()
      modifies soap
      ensures Valid()
      ensures (Now(), r) == Exchange(old(Now()), Settings(), CalculateCall(data, lines, refunds, config.today))
    {
      r := SendCalculate(data, lines, refunds);
    }

    method CancelTax(documentKey: Value) returns (r: Option<Response>)
      requires Valid()
      modifies soap
      ensures Valid()
      ensures (Now(), r) == Exchange(old(Now()), Settings(), CancelCall(documentKey))
    {
      r := SendCancel(documentKey);
    }

    method CommitTax(data: seq<Entry>) returns (r: Option<Response>)
      requires Valid()
      modifies soap
      ensures Valid()
      ensures (Now(), r) == Exchange(old(Now()), Settings(), CommitCall(data))
    {
      r := SendCommit(data);
    }

    /** order_completed from the call on. */
    method SendFiling(shop: Shop, orderId: int, isCommitted: bool, data: seq<Entry>, lines: seq<Entry>, discount: Value)
      requires Valid()
      modifies this, store, soap, scheduler, itemMeta
      ensures Valid()
      ensures Now() == Filed(old(Now()), Settings(), shop, orderId, isCommitted, data, lines, discount)
    {
      var refunds := GetCartLineItemRefunds(shop, orderId);
      var result := CalculateTax(data, lines, refunds);
      if result.Some? {
        if StatusIs(result.value, "Success") {
          FileSucceeded(shop, orderId, isCommitted, result.value, lines, discount);
        }
        if StatusIs(result.value, "Failure") {
          FileFailed(shop, orderId);
        }
      } else {
        FileFailed(shop, orderId);
      }
    }

    /** order_completed; `fatal` where the source stops with a fatal error. */
    method OrderCompleted(shop: Shop, orderId: int, isCommitted: bool) returns (fatal: bool)
      requires Valid()
      modifies this, store, soap, scheduler, itemMeta
      ensures Valid()
      ensures (Now(), fatal) == Completed(old(Now()), Settings(), shop, orderId, isCommitted)
    {
      var p := PrepareFiling(shop, orderId, isCommitted);
      if !p.Filing? || |p.lines| == 0 {
        return p.Fatal?;
      }
      SendFiling(shop, orderId, isCommitted, p.data, p.lines, p.discount);
      fatal := false;
    }

    /** call_order_completed, also call_order_completed_for_deleted_refund: a committed filing. */
    method CallOrderCompleted(shop: Shop, orderId: int) returns (fatal: bool)
      requires Valid()
      modifies this, store, soap, scheduler, itemMeta
      ensures Valid()
      ensures (Now(), fatal) == Completed(old(Now()), Settings(), shop, orderId, true)
    {
      fatal := OrderCompleted(shop, orderId, true);
    }

    method OrderCancelled(shop: Shop, orderId: int, oldStatus: string, newStatus: string) returns (fatal: bool)
      requires Valid()
      modifies this, store, soap, scheduler, itemMeta
      ensures Valid()
      ensures (Now(), fatal) == Cancelled(old(Now()), Settings(), shop, orderId, newStatus)
    {
      fatal := false;
      if !IsOrderStatusCompleted(shop, orderId) || !IsOrderStatusRefunded(shop, orderId) {
        if newStatus in CancelStatuses {
          var result := CancelTax(VInt(orderId));
          if result.Some? && StatusIs(result.value, "Success") {
            ClearCommitFlags(orderId);
            fatal := OrderCompleted(shop, orderId, false);
          }
        }
      }
    }

    /** is_commited_to_taxify, through the store. */
    method ReadCommitted(orderId: int) returns (committed: bool)
      requires Valid()
      modifies store
      ensures Valid()
      ensures (Now(), committed) == CommittedFlag(old(Now()), orderId)
    {
      committed := IsCommittedToTaxify(store, orderId);
    }

    method CallOrderCancelled(shop: Shop, orderId: int) returns (fatal: bool)
      requires Valid()
      modifies this, store, soap, scheduler, itemMeta
      ensures Valid()
      ensures (Now(), fatal) == CallCancelled(old(Now()), Settings(), shop, orderId)
    {
      var committed := ReadCommitted(orderId);
      fatal := false;
      if !committed {
        fatal := OrderCancelled(shop, orderId, "", "saved");
      }
    }

    method IsOrderFullyRefunded(shop: Shop, orderId: int) returns (r: Option<bool>)
      ensures r == FullyRefunded(shop, orderId)
    {
      var order := OrderOf(shop, orderId);
      if order.None? {
        return None;
      }
      var total := order.value.total;
      r := Some(order.value.refunded >= total || PostStatus(shop, orderId) == "wc-refunded");
    }

    method CallOrderCompletedOrCancelForRefundUpdate(shop: Shop, orderId: int, refundId: int) returns (fatal: bool)
      requires Valid()
      modifies this, store, soap, scheduler, itemMeta
      ensures Valid()
      ensures (Now(), fatal) == RefundUpdate(old(Now()), Settings(), shop, orderId)
    {
      var fully := IsOrderFullyRefunded(shop, orderId);
      if fully.None? {
        return true;
      }
      fatal := false;
      if fully.value {
        var result := CancelTax(VInt(orderId));
        if result.Some? && StatusIs(result.value, "Success") {
          ClearCommitFlags(orderId);
        }
      } else {
        fatal := OrderCompleted(shop, orderId, true);
      }
    }

    /** The reads at the start of order_refunded, through the store. */
    method ReadRefundData(shop: Shop, orderId: int, refundId: int) returns (d: Option<seq<Entry>>)
      requires Valid()
      modifies store
      ensures Valid()
      ensures Now() == old(Now()).(cached := Target(old(store.cached), store.orders, orderId))
      ensures d == RefundDataOf(old(Now()), Settings(), shop, orderId, refundId)
    {
      var orderMeta := store.GetMetaData(orderId);
      assert orderMeta == OrderMetaOf(store.orders, store.cached);
      if Empty(orderMeta) {
        return None;
      }
      d := ReadRefundFields(shop, orderId, refundId, orderMeta);
    }

    /** order_refunded's reads after the order metadata, from the order the store has cached. */
    method ReadRefundFields(shop: Shop, orderId: int, refundId: int, orderMeta: Value) returns (d: Option<seq<Entry>>)
      requires Valid() && store.cached.Some?
      modifies store
      ensures Valid() && Now() == old(Now())
      ensures d == RefundFieldsOf(store.orders[store.cached.value], values, shop, orderId, refundId, orderMeta)
    {
      var address := OrderAddress(values, orderMeta);
      if !ValidAddress(VArr(address)) {
        return None;
      }
      var customerKey, exempt := ReadCustomer(orderId);
      d := Some(MergeStr(RefundHead(refundId, TaxDate(shop, orderId), customerKey, exempt), address));
    }

    /** order_refunded from the call on. */
    method SendRefund(shop: Shop, orderId: int, refundId: int, data: seq<Entry>)
      requires Valid()
      modifies store, soap
      ensures Valid()
      ensures Now() == RefundSent(old(Now()), Settings(), shop, orderId, refundId, data)
    {
      var refundTotal := -(RefundAmount(shop, refundId) as int);
      var items := RefundItems(orderId, refundTotal);
      var result := CalculateTax(data, items, []);
      if result.Some? {
        if StatusIs(result.value, "Success") {
          SetCommitFlags(refundId);
        }
      } else {
        ClearCommitFlags(orderId);
      }
    }

    method OrderRefunded(shop: Shop, orderId: int, refundId: int)
      requires Valid()
      modifies store, soap
      ensures Valid()
      ensures Now() == RefundFiled(old(Now()), Settings(), shop, orderId, refundId)
    {
      var data := ReadRefundData(shop, orderId, refundId);
      if data.Some? {
        SendRefund(shop, orderId, refundId, data.value);
      }
    }

    method RefundDeleted(refundId: int, orderId: int)
      requires Valid()
      modifies store, soap
      ensures Valid()
      ensures Now() == RefundCancelled(old(Now()), Settings(), refundId, orderId)
    {
      var result := CancelTax(VInt(refundId));
      if result.Some? && StatusIs(result.value, "Success") {
        ClearCommitFlags(orderId);
      }
    }

    method DeleteOrder(orderId: int)
      requires Valid()
      modifies soap
      ensures Valid()
      ensures Now() == Deleted(old(Now()), Settings(), orderId)
    {
      var _ := CancelTax(VInt(orderId));
    }

    method DeleteOrderFromTaxify(orderId: int)
      requires Valid()
      modifies store, soap
      ensures Valid()
      ensures Now() == DeletedFromTaxify(old(Now()), Settings(), orderId)
    {
      if orderId != 0 {
        var result := CancelTax(VInt(orderId));
        if result.Some? && StatusIs(result.value, "Success") {
          ClearCommitFlags(orderId);
        }
      }
    }

    /** commit_order, with the `uniqid()` key given. */
    method CommitOrder(orderId: int, commitKey: string)
      requires Valid()
      modifies store, soap
      ensures Valid()
      ensures Now() == OrderCommitted(old(Now()), Settings(), orderId, commitKey)
    {
      var documentKey := store.GetMeta(orderId, "_taxify_cart_document_key");
      var result := CommitTax(CommitData(documentKey, commitKey));
      if result.Some? && StatusIs(result.value, "Success") {
        SetOrderMeta(orderId, "taxify_commited_document_key", VStr(commitKey));
      }
    }

    /** file_orders (the scheduler's action callback). */
    method FileOrders(shop: Shop, orderId: int) returns (fatal: bool)
      requires Valid()
      modifies this, store, soap, scheduler, itemMeta
      ensures Valid()
      ensures (Now(), fatal) == OrderFiled(old(Now()), Settings(), shop, orderId)
    {
      var committed := ReadCommitted(orderId);
      fatal := false;
      if !committed && IsOrderStatusCompleted(shop, orderId) {
        if OrderExists(shop, orderId) {
          fatal := OrderCompleted(shop, orderId, true);
        }
      }
    }
  }
}
