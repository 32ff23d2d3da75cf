/**
 * The WordPress / WooCommerce state the plugin reads and writes, outside
 * its own classes.
 *
 * `Shop` holds what the plugin only reads during one request: the order
 * objects `wc_get_order` returns (without their metadata, which lives in
 * the order data store), products, posts, and the answers of the SQL
 * queries in includes/wc-taxify-order.php. `Config` holds the plugin
 * singleton's fields and the clock, frozen for one request. `Options` and
 * `ItemMeta` are the two host stores the plugin writes: the options table
 * and the order-item metadata table.
 */
module Host {
  import opened Php

  /** One order line item: `$item['product_id']`, `variation_id`, `line_total`, `qty`, `name`. */
  datatype OrderItem = OrderItem(productId: int, variationId: int, lineTotal: int, qty: Value, name: string)

  /**
   * A product as the product data store reports it: its SKU, the ids
   * `get_parent_product_id` and `get_product_id` return, its tax status and
   * its `_taxify_tax_class` metadata ('' when unset).
   */
  datatype Product = Product(sku: string, parentId: int, variationId: int, taxStatus: string, taxClass: string)

  /** A post: its slug, `post_type` and `post_status`. */
  datatype Post = Post(name: string, postType: string, status: string)

  /**
   * A WC_Order object: `get_total()`, `get_total_refunded()`, its line
   * items, the `method_id` of each shipping line, and the date the API is
   * given for it.
   */
  datatype HostOrder = HostOrder(total: int, refunded: int, items: seq<OrderItem>,
                                 shippingMethods: seq<string>, taxDate: string)

  datatype Shop = Shop(
    orders: map<int, HostOrder>,
    products: map<int, Product>,
    posts: map<int, Post>,
    /** `get_item_id( $order_id, $type )`: the first order item of that type. */
    itemIds: map<(int, string), int>,
    /** `get_item_ids( $order_id, 'line_item' )`. */
    lineItemIds: map<int, seq<int>>,
    /** The refund ids `get_refunds` finds for an order. */
    refunds: map<int, seq<int>>,
    /** `WC_Order_Refund( $id )->get_amount()`. */
    refundAmounts: map<int, int>,
    /** `get_order_completed_ids()`. */
    completedIds: seq<int>)

  /**
   * The plugin singleton's `store_prefix` and `taxify_rate_id`, `time()`,
   * `current_time( 'mysql' )` and today's date for the API.
   */
  datatype Config = Config(storePrefix: string, rateId: string, now: int, mysqlNow: string, today: string)

  /** `get_item_id`: `false` (0) when the order has no item of that type. */
  function ItemId(shop: Shop, orderId: int, kind: string): (r: int)
    ensures (orderId, kind) !in shop.itemIds ==> r == 0
  {
    if (orderId, kind) in shop.itemIds then shop.itemIds[(orderId, kind)] else 0
  }

  /** `get_post_status( $id )`: `false` ('') for a missing post. */
  function PostStatus(shop: Shop, id: int): string
  {
    if id in shop.posts then shop.posts[id].status else ""
  }

  /** `get_post_type( $id )`. */
  function PostType(shop: Shop, id: int): string
  {
    if id in shop.posts then shop.posts[id].postType else ""
  }

  /** `absint()`. */
  function AbsInt(n: int): nat
  {
    if n < 0 then -n else n
  }

  /** `get_option( $name )`: `false` for a missing option. */
  function OptionValue(values: map<string, Value>, name: string): Value
  {
    if name in values then values[name] else VBool(false)
  }

  /** The options table. */
  class Options {
    var values: map<string, Value>

    constructor(values: map<string, Value>)
      ensures this.values == values
    {
      this.values := values;
    }

    /** `add_option`: stores the value only when the option does not exist yet. */
    method Add(name: string, v: Value)
      modifies this
      ensures name in old(values) ==> values == old(values)
      ensures name !in old(values) ==> values == old(values)[name := v]
    {
      if name !in values {
        values := values[name := v];
      }
    }
  }

  /** One `$order->add_tax( $rate_id, $tax, $shipping_tax )`. */
  datatype AddedTax = AddedTax(orderId: int, rateId: string, tax: int, shippingTax: int)

  /**
   * The order-item metadata table (`wc_get_order_item_meta`,
   * `wc_update_order_item_meta`, `wc_delete_order_item_meta`) and the tax
   * items `add_tax` created. Every call goes to item `absint( $id )`, and
   * item 0 (a `false` id) is refused.
   */
  class ItemMeta {
    var meta: map<int, map<string, Value>>
    var addedTaxes: seq<AddedTax>

    constructor(meta: map<int, map<string, Value>>)
      ensures this.meta == meta && addedTaxes == []
    {
      this.meta := meta;
      addedTaxes := [];
    }

    /** `wc_get_order_item_meta( $id, $key, true )`: '' when unset. */
    function Get(id: int, key: string): Value
      reads this
    {
      Read(meta, id, key)
    }

    /** `wc_update_order_item_meta`. */
    method Update(id: int, key: string, v: Value)
      modifies this
      ensures meta == Written(old(meta), id, key, v)
      ensures addedTaxes == old(addedTaxes)
    {
      var item := AbsInt(id);
      if item != 0 {
        var m := if item in meta then meta[item] else map[];
        meta := meta[item := m[key := v]];
      }
    }

    /** `wc_delete_order_item_meta`. */
    method Delete(id: int, key: string)
      modifies this
      ensures meta == Erased(old(meta), id, key)
      ensures addedTaxes == old(addedTaxes)
    {
      var item := AbsInt(id);
      if item != 0 && item in meta {
        meta := meta[item := meta[item] - {key}];
      }
    }

    /** `$order->add_tax()`: a new tax item for the order. */
    method AddTax(orderId: int, rateId: string, tax: int, shippingTax: int)
      modifies this
      ensures meta == old(meta)
      ensures addedTaxes == old(addedTaxes) + [AddedTax(orderId, rateId, tax, shippingTax)]
    {
      addedTaxes := addedTaxes + [AddedTax(orderId, rateId, tax, shippingTax)];
    }
  }

  /** The value stored under `key` for item `absint( id )`, '' when unset. */
  function Read(meta: map<int, map<string, Value>>, id: int, key: string): Value
  {
    var item := AbsInt(id);
    if item in meta && key in meta[item] then meta[item][key] else VStr("")
  }

  function Written(meta: map<int, map<string, Value>>, id: int, key: string, v: Value): map<int, map<string, Value>>
  {
    var item := AbsInt(id);
    if item == 0 then meta
    else meta[item := (if item in meta then meta[item] else map[])[key := v]]
  }

  function Erased(meta: map<int, map<string, Value>>, id: int, key: string): map<int, map<string, Value>>
  {
    var item := AbsInt(id);
    if item != 0 && item in meta then meta[item := meta[item] - {key}] else meta
  }

  /** An update is read back, and no other item or key changes. */
  lemma WrittenReads(meta: map<int, map<string, Value>>, id: int, key: string, v: Value, id': int, key': string)
    ensures Read(Written(meta, id, key, v), id', key') ==
      if AbsInt(id) != 0 && AbsInt(id') == AbsInt(id) && key' == key then v else Read(meta, id', key')
  {
  }

  /** After a delete the key reads as '', and no other item or key changes. */
  lemma ErasedReads(meta: map<int, map<string, Value>>, id: int, key: string, id': int, key': string)
    ensures Read(Erased(meta, id, key), id', key') ==
      if AbsInt(id) != 0 && AbsInt(id') == AbsInt(id) && key' == key then VStr("") else Read(meta, id', key')
  {
  }
}
