# Taxify for WooCommerce, modelled in Dafny

Taxify for WooCommerce is a WordPress plugin. It sends the sales tax of
WooCommerce carts and orders to the Taxify service over SOAP and writes
the tax Taxify answers back into the cart or order. This project models
the plugin's tax-synchronisation core and proves properties of that model.
The core is:

- the order tax lifecycle: filing a completed order, cancelling it,
  refunds, deletion, commit, and filing from the scheduler;
- the tax rules: address validation, taxability codes, product tax
  classes, SKUs and order flags;
- the reconciliation of the cart at checkout;
- the retry scheduler;
- the SOAP request builder;
- the order data store, with its cached order object;
- the format helpers, the helpers in the main plugin file, and the
  class autoloader.

## Layout

| file | module | what it holds |
|---|---|---|
| `php.dfy` | `Php` | PHP values (`Value`, ordered arrays of `Entry`), `empty()`, loose comparison, `array_merge`, string helpers |
| `host.dfy` | `Host` | the WordPress and WooCommerce state the plugin reads (`Shop`, `Config`) and the two stores it writes (`Options`, `ItemMeta`) |
| `plugin.dfy` | `Plugin` | `woocommerce-taxify.php`: settings predicates, `ready_to_run`, URL and postcode helpers, the plugin's fields |
| `autoloader.dfy` | `Autoloader` | `includes/wc-taxify-autoloader.php` |
| `format.dfy` | `Format` | `includes/wc-taxify-format.php` |
| `datastore.dfy` | `OrderDataStore` | `includes/data-stores/wc-taxify-order-data-store.php`, as the class `Store` |
| `tax.dfy` | `Tax` | `includes/wc-taxify-tax.php` |
| `scheduler.dfy` | `Scheduler` | `includes/wc-taxify-scheduler.php`, as the class `Scheduler` over the pending-action queue |
| `soap.dfy` | `SoapApi` | `includes/wc-taxify-soap-api.php`, as the class `Soap` |
| `order.dfy` | `Order` | `includes/wc-taxify-order.php`: its helpers, the state-change functions `Completed`, `Cancelled`, `RefundUpdate`, `RefundFiled` and others, and the class `TaxifyOrder`, whose methods are proved to perform them |
| `checkout.dfy` | `Checkout` | `includes/wc-taxify-checkout.php`: the classes `Cart` and `TaxifyCheckout` |
| `lifecycle.dfy` | `Lifecycle` | lemmas about the order lifecycle: the commit flags, the calls made, and retries |

## How the model is built

- **PHP values.** `Php.Value` is a dynamic value: a string, an int, a
  bool, null or an ordered array. `Put` replaces a key's value in place,
  or appends a new key. `MergeStr` and `ListMerge` are `array_merge` on
  string keys and on list keys. `Empty` is PHP's `empty()`. Loose
  comparison follows PHP 7 where it matters.
- **Money.** Money is in integer cents. `wc_format_decimal` is the
  identity.
- **The transport.** The SOAP transport is an oracle, `oracle: nat ->
  Outcome`, indexed by the number of attempts made so far. An outcome is
  an answer, a fault thrown by the call, or a failure to build the
  client. `Soap.sent` records every request that reached the transport.
  `Soap.Valid()` says the client is built at most once.
- **The order singleton.** `Order.Snapshot` is everything an order event
  can touch:
  - the data store's orders and cached order;
  - the order-item metadata, and the tax items added;
  - the pending scheduled actions;
  - the calls sent;
  - the singleton's fields `$tax`, `$shipping_tax`, `$shipping_item_id`
    and `$is_shipping_taxble`.

  Each event handler is first written as a function on snapshots, for
  example `Completed` or `RefundFiled`. Then a method of
  `Order.TaxifyOrder` is proved to perform exactly that state change:
  `(Now(), fatal) == Completed(old(Now()), Settings(), …)`.
  `Lifecycle` states what those functions mean.
- **The cart.** `Checkout.Cart` is WooCommerce's cart object. Its rows
  are updated in place. `Checkout.TaxifyCheckout` keeps the checkout
  singleton's fields across calls.
- **The scheduler.** The pending queue of the host's action scheduler is
  a field of `Scheduler.Scheduler`. Whether the queue accepts the n-th
  insert is an oracle, `accepts`.
- **Time and unique ids.** `time()`, `current_time( 'mysql' )`, the date
  sent to the API and `uniqid` are inputs, frozen for one request.

### Where the code does something other than its description

The code is modelled as written in each of these cases. The lemmas named
here state the consequence.

- **The duplicate check in the scheduler.** It looks for a pending action
  with `array( 'id' => (int) $args )`. The callers pass an array, and PHP
  casts a non-empty array to 1. So the check finds any pending action of
  the hook for order id 1, whatever order is being scheduled. This is
  `Scheduler.DuplicateLookupIgnoresOrder`. A queue that holds no action
  for id 1 therefore never blocks a schedule (`Scheduler.ScheduleEachStaggers`).
- **The guard of `order_cancelled`.** "Not completed or not refunded"
  holds for every order (`Lifecycle.CancelledStatuses`).
- **The shipping-cost check in `order_completed`.** `get_shipping_cost`
  always returns a one-element array, so the check is always true
  (`Order.ShippingCost`, `Order.ShippingAlwaysAppended`).
- **The data store's cached order is sticky.** Once `get_order_object`
  has stored an order, every accessor uses it, whatever id it is given.
  So the Success writes of `order_refunded`, which are addressed to
  `$refund_id`, land on the order cached earlier in the same request
  (`OrderDataStore.StickyUpdate`, `Lifecycle.RefundFlagsOnTarget`).
- **The cart join in `set_and_get_cart_line_items_tax`.** Lines are sent
  with `LineNumber` set to the product object's id, which is the
  variation id for a variation. The join compares it with the row's
  `product_id`, which is the parent id. So the row of a variation never
  receives its tax (`Checkout.VariationRowUntaxed`).
- **The exempt reset.** It zeroes the cart's taxes but leaves the
  singleton's `total_tax` and `shipping_tax`. So `calculated_total` still
  adds them (`Checkout.ExemptTotalStillTaxed`).
- **Stale totals at checkout.** A Success whose `SalesTaxAmount` is empty
  keeps the previous `total_tax` (`Checkout.EmptySalesTaxKeepsTotal`),
  and so does a Failure (`Checkout.NotSuccessKeepsStale`).
- **Repeated products in `get_line_items_tax`.** A detail adds its
  `SalesTaxAmount` once for every sent line with its `LineNumber`. Two
  order items of the same product therefore count the detail twice
  (`Order.RepeatedLineCountsTwice`); the plain sum of the joined amounts
  holds only when each detail joins at most one line
  (`Order.ManyTaxAnswered`).
- **`add_shipping_taxes` writes to every new order item.** It is hooked on
  `woocommerce_new_order_item`, which fires for line, fee, coupon and tax
  items as well as the shipping item, and it does not look at the item's
  type. So while the checkout singleton holds a shipping tax, every order
  item created gets the shipping `taxes` and `total_tax`
  (`Checkout.TaxifyCheckout.AddShippingTaxes`, `Checkout.ShippingTaxesWritten`).
- **`get_version`.** It does not clear `$this->request`, so it resends
  the last request built (`SoapApi.Soap.GetVersion`).

## Model

| member | source | states |
|---|---|---|
| Autoloader.SlugChars | includes/wc-taxify-autoloader.php:35-37 | each `_` of the class name becomes `-`, and every other character is lower-cased, position by position |
| Autoloader.FileNameShape | includes/wc-taxify-autoloader.php:35-37 | the file name is the class name's length plus 4, ends in `.php`, and its name part holds no `_` and no capital letter |
| Autoloader.CandidatePaths | includes/wc-taxify-autoloader.php:72-76 | there are exactly three candidate paths |
| Autoloader.RequireAll | includes/wc-taxify-autoloader.php:78-82 | requiring the candidates keeps every file already loaded, and adds only candidates that are readable |
| Autoloader.RequireAllLoadsEvery | includes/wc-taxify-autoloader.php:78-82 | every readable candidate gets loaded; loading does not stop at the first match |
| Autoloader.Loader.constructor | includes/wc-taxify-autoloader.php:18-24 | the loader starts with the plugin path and with no file loaded |
| Autoloader.Loader.LoadFile | includes/wc-taxify-autoloader.php:48-56 | `load_file` succeeds iff the path is non-empty and readable, and then the file is loaded |
| Autoloader.Loader.Autoload | includes/wc-taxify-autoloader.php:65-83 | a class without the `WC_Taxify_` prefix changes nothing; a class with it loads every readable candidate path, in order |
| Plugin.TaxifyEnabledIff | woocommerce-taxify.php:284-304 | Taxify is enabled iff `woocommerce_calc_taxes` is `'yes'`, `wc_taxify_enabled` is `'yes'` or true, and the API key is non-empty |
| Plugin.IsRequest | woocommerce-taxify.php:326-339 | `admin`, `ajax` and `cron` are the three host flags; `frontend` is (not admin or AJAX) and not cron; an unknown kind is false |
| Plugin.ReadyToRun | woocommerce-taxify.php:114-174 | the plugin refuses to run iff WooCommerce is inactive, older than 3.0, or has no SOAP client, and then shows one notice; a missing API key only adds the activation notice |
| Plugin.RemoveAllCI | woocommerce-taxify.php:398-400 | removing a needle never makes the text longer |
| Plugin.RemoveAllCINoMatch | woocommerce-taxify.php:398-400 | text with no case-insensitive occurrence of the needle is left unchanged |
| Plugin.RemoveUrlPrefixHttp | woocommerce-taxify.php:398-400 | `remove_url_prefix` strips `http://` from a plain host |
| Plugin.RemoveUrlPrefixHttps | woocommerce-taxify.php:398-400 | `remove_url_prefix` strips `https://` from a plain host |
| Plugin.HttpsHostNoHttpAt | woocommerce-taxify.php:398-400 | removing `https://` from such a URL leaves no `http://` behind for the second replacement |
| Plugin.StorePrefix | woocommerce-taxify.php:409-420 | the store prefix is the option when it is non-empty, else the home URL (or the site URL when that is empty) without its scheme |
| Plugin.StripAllowed | woocommerce-taxify.php:432-440 | what is left after removing whitespace, `-` and ASCII alphanumerics contains none of them, and is empty exactly for text made only of them |
| Plugin.IsPostcodeUS | woocommerce-taxify.php:432-440 | for the country `US`, a postcode is valid iff it is five digits, optionally followed by `-` and four digits (PCRE's `$` also admits one final newline) |
| Plugin.IsPostcodeNotUS | woocommerce-taxify.php:432-440 | for any other country, no postcode is valid |
| Plugin.Taxify.constructor | woocommerce-taxify.php:266-275 | the API key, store prefix and rate id are read from their options, '' when the option is empty |
| Format.Flattened | includes/wc-taxify-format.php:46-64 | flattening never yields more keys than the input has |
| Format.FlattenedMissingKey | includes/wc-taxify-format.php:46-64 | a key absent from the input is absent from the flattened array |
| Format.FlattenedLookup | includes/wc-taxify-format.php:50-58 | for a key present in the input: a value with count 0 is dropped, a one-element array is replaced by its `[0]` element, and any other value is kept |
| Format.FlattenArray | includes/wc-taxify-format.php:46-64 | an empty or non-array input gives `[]`; otherwise the loop's result is the entry-by-entry flattening |
| Format.GetMetaFlattened | includes/wc-taxify-format.php:78-94 | an unknown type gives `false`; for `post` or `user` the result is `false` iff the fetched metadata is empty, and otherwise the flattened metadata, for either type |
| Format.MetaArray | includes/wc-taxify-format.php:333-346 | the metadata array has no duplicate key |
| Format.MetaArrayLookup | includes/wc-taxify-format.php:333-346 | each key maps to the value of its last entry with a non-empty value, and entries with empty values are skipped |
| Format.FlattenMetaObject | includes/wc-taxify-format.php:333-346 | the loop builds an array without duplicate keys in which each key holds its last non-empty value |
| Format.AddressField | includes/wc-taxify-format.php:105-121 | an address field is the customer's sub-field, or '' when that is empty |
| Format.FormatFields | includes/wc-taxify-format.php:105-146 | the formatted address has one entry per listed field, in order, each the sub-field or '' |
| Format.BillingAddress | includes/wc-taxify-format.php:105-121 | the billing formatter yields exactly 11 `destination_*` entries taken from the billing group |
| Format.ShippingAddress | includes/wc-taxify-format.php:132-146 | the shipping formatter yields 9 entries, the billing list without email and phone, taken from the shipping group |
| Format.AddressLookup | includes/wc-taxify-format.php:105-146 | looking a field's key up in a formatted address gives that field's value |
| OrderDataStore.MetaRemove | includes/data-stores/wc-taxify-order-data-store.php:184-196 | deleting a key removes exactly the entries with that key |
| OrderDataStore.MetaGetAbsent | includes/data-stores/wc-taxify-order-data-store.php:71-96 | entries for other keys do not affect a metadata read |
| OrderDataStore.MetaGetOther | includes/data-stores/wc-taxify-order-data-store.php:184-196 | deleting one key leaves the reads of every other key unchanged |
| OrderDataStore.MetaGetAppendOther | includes/data-stores/wc-taxify-order-data-store.php:162-174 | appending an entry for one key leaves the reads of other keys unchanged |
| OrderDataStore.MetaUpdateReads | includes/data-stores/wc-taxify-order-data-store.php:162-174 | after `update_meta(k, v)`, reading `k` gives exactly `v` |
| OrderDataStore.MetaUpdateKeepsOthers | includes/data-stores/wc-taxify-order-data-store.php:162-174 | `update_meta(k, v)` leaves the reads of every other key unchanged |
| OrderDataStore.MetaRemoveReads | includes/data-stores/wc-taxify-order-data-store.php:184-196 | after `delete_meta(k)`, reading `k` gives '' and other keys are unchanged |
| OrderDataStore.Target | includes/data-stores/wc-taxify-order-data-store.php:53-72 | once an order is cached, every access uses it whatever id is given; without one, the access uses the given id iff that order exists |
| OrderDataStore.MetaDataArrayMeta | includes/data-stores/wc-taxify-order-data-store.php:115-120 | `meta_data` is the flattened metadata of the order |
| OrderDataStore.MetaDataArrayReads | includes/data-stores/wc-taxify-order-data-store.php:115-120 | every other key is the order data's value, else `id` and `number`, else absent: later arrays win in `array_merge` |
| OrderDataStore.StickyUpdate | includes/data-stores/wc-taxify-order-data-store.php:72 | with order `a` cached, an update addressed to order `b` writes `a` and leaves `b` unchanged |
| OrderDataStore.Store.constructor | includes/data-stores/wc-taxify-order-data-store.php:53-55 | the store starts with no cached order |
| OrderDataStore.Store.GetOrderObject | includes/data-stores/wc-taxify-order-data-store.php:53-55 | the cache is overwritten with the lookup's result, and it stays unset when the order is missing |
| OrderDataStore.Store.Resolve | includes/data-stores/wc-taxify-order-data-store.php:72 | the order used is the cached one if any, else the looked-up one, which is then cached |
| OrderDataStore.Store.GetMeta | includes/data-stores/wc-taxify-order-data-store.php:71-96 | `false` when no order is available, else the resolved order's value for the key |
| OrderDataStore.Store.GetMetaData | includes/data-stores/wc-taxify-order-data-store.php:107-124 | `false` when no order is available, else the merged array of `id`, `number`, order data and flattened `meta_data` |
| OrderDataStore.Store.UpdateMeta | includes/data-stores/wc-taxify-order-data-store.php:162-174 | the resolved order's key is replaced by the value, and no other order changes |
| OrderDataStore.Store.DeleteMeta | includes/data-stores/wc-taxify-order-data-store.php:184-196 | the resolved order's key is deleted, and no other order changes |
| OrderDataStore.Store.GetCustomerId | includes/data-stores/wc-taxify-order-data-store.php:207-215 | `false` when no order is available, else the resolved order's customer id |
| OrderDataStore.Store.HasStatusCompleted | includes/data-stores/wc-taxify-order-data-store.php:289-293 | no answer when no order is available, else whether the resolved order's status is `completed` |
| Host.ItemId | includes/wc-taxify-order.php:665-676 | an order without an item of that type gives `false` (0) |
| Tax.ValidAddress | includes/wc-taxify-tax.php:223-237 | a value that is not an array is never a valid address |
| Tax.LowerOfNoUpper | includes/wc-taxify-tax.php:223-237 | lower-casing text that has no capital letter changes nothing |
| Tax.LowerArrayLookup | includes/wc-taxify-tax.php:223-237 | on lower-case keys, lower-casing the array lower-cases each value under the same key |
| Tax.LoweredGet | includes/wc-taxify-tax.php:223-237 | a field of the lower-cased address is the lower-cased field, and it is non-empty iff the field's text is |
| Tax.ValidAddressIff | includes/wc-taxify-tax.php:223-237 | an address is valid iff its lower-cased country, state and zip are non-empty and the country is `us`, `usa` or `united states` |
| Tax.IsLineItemTaxable | includes/wc-taxify-tax.php:476-492 | the code is `none` iff prices include tax or the status is `none`; `taxable` for `taxable`, or for an empty status with taxes on; `Shipping` for a shipping status; any other status passes through |
| Tax.IsLineItemTaxableIdempotent | includes/wc-taxify-tax.php:476-492 | mapping a taxability code again gives the same code |
| Tax.FirstNonEmptyConcat | includes/wc-taxify-tax.php:401-442 | the first non-empty class of two lists is the first list's, else the second's |
| Tax.FirstClassCandidate | includes/wc-taxify-tax.php:401-442 | the class is taken from the variation, then the parent, then the simple product, in that order |
| Tax.ProductTaxStatus | includes/wc-taxify-tax.php:401-442 | `false` iff the product is missing; else the first non-empty Taxify tax class; else the mapped tax status, '' for an empty one |
| Tax.IsShippingTaxable | includes/wc-taxify-tax.php:371-392 | shipping is taxable iff the method's settings have `tax_status` `'taxable'` (or true, by loose comparison) |
| Tax.NeedleCut | includes/wc-taxify-tax.php:711-716 | the cut point lies within the text |
| Tax.FindNeedle | includes/wc-taxify-tax.php:711-716 | the result is the trimmed text before the cut, and `false` exactly when that text is empty |
| Tax.FindNeedleFound | includes/wc-taxify-tax.php:711-716 | a found prefix ends at an occurrence of the needle, and no earlier occurrence exists |
| Tax.FindNeedleAbsent | includes/wc-taxify-tax.php:711-716 | without an occurrence of the needle the result is `false` |
| Tax.GetSku | includes/wc-taxify-tax.php:248-268 | id 0 gives `false`; a missing product is fatal; otherwise the SKU when non-empty, else the lower-cased post slug, else `false` |
| Tax.LowerIdempotent | includes/wc-taxify-tax.php:248-268 | lower-casing twice is lower-casing once |
| Tax.GetSkuSlugIsLower | includes/wc-taxify-tax.php:248-268 | a SKU taken from the slug has no capital letters |
| Tax.IsYes | includes/wc-taxify-tax.php:536-540 | a flag is set iff its value is `'yes'` or true |
| Tax.IsCommittedToTaxify | includes/wc-taxify-tax.php:536-540 | committed iff the resolved order's `_taxify_is_commited` is `'yes'` |
| Tax.TaxExemptStatus | includes/wc-taxify-tax.php:551-555 | `'exempt'` iff the resolved order's `taxify_exempt` is `'yes'`, else '' |
| Tax.IsOrderTaxExempt | includes/wc-taxify-tax.php:566-570 | exempt iff the resolved order's `taxify_exempt` is `'yes'` |
| Tax.PostmetaCustomerId | includes/wc-taxify-tax.php:292-297 | the customer id when non-zero, else the cart document key, both read from the same resolved order; `false` without an order |
| Tax.IsOrderStatusCompleted | includes/wc-taxify-tax.php:581-620 | true iff the id is non-zero and the post status is `wc-completed` or `completed` |
| Tax.IsOrderStatusRefunded | includes/wc-taxify-tax.php:581-594 | true iff the id is non-zero and the post status is `wc-refunded` or `refunded` |
| Tax.Explode | includes/wc-taxify-tax.php:666-671 | splitting on newlines yields at least one piece, and no piece contains a newline |
| Tax.ImplodeExplode | includes/wc-taxify-tax.php:666-671 | joining the pieces again gives back the original text |
| Tax.KeepTrimmedLookup | includes/wc-taxify-tax.php:666-671 | piece `i` is kept, trimmed and under key `i`, iff its trimmed text is non-empty |
| Tax.TaxifyTaxClasses | includes/wc-taxify-tax.php:666-698 | under key `i` is the trimmed line `i` of the option (or of the API's list when the option is empty), present iff non-empty |
| Tax.FindRates | includes/wc-taxify-tax.php:504-514 | for a US lookup, no rates at all as soon as one matched rate is not the Taxify rate; otherwise the matched rates unchanged |
| Tax.DestinationFieldsKeys | includes/wc-taxify-tax.php:88-162 | a customer's address has distinct, lower-case keys |
| Tax.DestinationFieldsLookup | includes/wc-taxify-tax.php:88-162 | the customer's country, state and postcode sit under `destination_country`, `destination_state` and `destination_zip` |
| Tax.BaseFieldsKeys | includes/wc-taxify-tax.php:88-162 | the store base address has distinct, lower-case keys |
| Tax.BaseFieldsLookup | includes/wc-taxify-tax.php:88-162 | the base country, state and postcode sit under the three `destination_*` keys |
| Tax.DestinationFieldsValid | includes/wc-taxify-tax.php:88-162 | a customer's address is valid iff its three fields form a US address |
| Tax.BaseFieldsUs | includes/wc-taxify-tax.php:88-162 | the base address satisfies the US rule iff its three fields do |
| Tax.BaseFieldsValid | includes/wc-taxify-tax.php:88-162 | the base address is valid iff its three fields form a US address |
| Tax.CartTaxAddressValid | includes/wc-taxify-tax.php:88-162 | the tax address is valid iff the address that `woocommerce_tax_based_on` selects (billing, shipping or base) is a US address; any other setting never is |
| Scheduler.FirstMatch | includes/wc-taxify-scheduler.php:80-86 | the index found is the first pending action matching the hook, the args and the group |
| Scheduler.NextScheduledFinds | includes/wc-taxify-scheduler.php:80-86 | the lookup is `false` iff nothing matches, otherwise the timestamp of the first match |
| Scheduler.EventTimestamp | includes/wc-taxify-scheduler.php:80-86 | `false` for an empty hook or empty args; otherwise the lookup with `{'id': (int)$args}` |
| Scheduler.DuplicateLookupIgnoresOrder | includes/wc-taxify-scheduler.php:62-82 | the duplicate check for any order is the lookup for id 1 |
| Scheduler.RemovedFinds | includes/wc-taxify-scheduler.php:99-103 | unscheduling removes the first matching action, or nothing when none matches |
| Scheduler.RemovedKeepsOthers | includes/wc-taxify-scheduler.php:99-103 | an action that does not match stays pending |
| Scheduler.UnscheduleEachKeepsOthers | includes/wc-taxify-scheduler.php:115-139 | unscheduling over a list of hooks keeps every action of other hooks |
| Scheduler.BulkPlanSound | includes/wc-taxify-scheduler.php:206-234 | every order the bulk loop schedules is one of the completed ids, and not a fully refunded `wc-refunded` order |
| Scheduler.BulkPlanSticky | includes/wc-taxify-scheduler.php:228 | with an order already cached, the committed check reads that order for every id, so either nothing is scheduled or every non-refunded id is |
| Scheduler.ScheduleEachSnoc | includes/wc-taxify-scheduler.php:232 | each further order is queued 5 seconds after the previous one |
| Scheduler.BulkActions | includes/wc-taxify-scheduler.php:232 | there is one bulk action per scheduled order |
| Scheduler.BulkActionsAt | includes/wc-taxify-scheduler.php:204-232 | the k-th bulk action (from 0) is for order k and fires at now + 10 + 5k |
| Scheduler.ScheduleEachStaggers | includes/wc-taxify-scheduler.php:207-234 | with no action pending for id 1 and a queue that accepts, every order is queued, staggered 5 seconds apart |
| Scheduler.StaggerStep | includes/wc-taxify-scheduler.php:232 | the staggered queue grows by one action per accepted order |
| Scheduler.BulkActionsNoOne | includes/wc-taxify-scheduler.php:62 | queueing orders other than 1 never creates an action the duplicate check would find |
| Scheduler.QueueNextFresh | includes/wc-taxify-scheduler.php:60-67 | with nothing found by the duplicate check and a queue that accepts, the action is appended |
| Scheduler.Scheduler.constructor | includes/wc-taxify-scheduler.php:60-67 | the scheduler starts from the given queue |
| Scheduler.Scheduler.GetScheduledEventTimestamp | includes/wc-taxify-scheduler.php:80-86 | `false` for an empty hook or args; a timestamp found belongs to a pending action matching `{'id': (int)$args}` |
| Scheduler.Scheduler.Schedule | includes/wc-taxify-scheduler.php:60-67 | nothing is inserted and the result is `false` when the duplicate check finds an action; otherwise an insert is requested, and the action is added and the result true iff the queue hands back an id |
| Scheduler.Scheduler.Unschedule | includes/wc-taxify-scheduler.php:99-103 | a no-op for an empty hook or args, otherwise removes the first matching action |
| Scheduler.Scheduler.UnscheduleMultiple | includes/wc-taxify-scheduler.php:115-121 | a no-op without hooks or args, otherwise unschedules `{'id': (int)$args}` for each hook |
| Scheduler.Scheduler.UnscheduleAll | includes/wc-taxify-scheduler.php:133-139 | a no-op for empty args, otherwise unschedules both of the scheduler's hooks |
| Scheduler.Scheduler.ScheduleMissedOrder | includes/wc-taxify-scheduler.php:252-258 | an existing order gets its missed-order retry at now + 3600; a missing order changes nothing |
| Scheduler.Scheduler.BulkSchedule | includes/wc-taxify-scheduler.php:232 | one loop step adds 5 to the delay and queues the order at that delay |
| Scheduler.Scheduler.BulkStep | includes/wc-taxify-scheduler.php:207-234 | one loop iteration extends the bulk plan by the next id: skips refunded or committed orders, queues the others |
| Scheduler.Scheduler.ScheduleBulkOrders | includes/wc-taxify-scheduler.php:201-243 | the queue gets the plan's orders, staggered; the two `did_schedule` options are added only when the id list is non-empty |
| Scheduler.Scheduler.QueueBulk | includes/wc-taxify-scheduler.php:204-234 | the loop queues exactly the plan's orders, staggered |
| SoapApi.Field | includes/wc-taxify-soap-api.php:162-193 | a copied field is the data's value, or '' when that is empty |
| SoapApi.Prefixed | includes/wc-taxify-soap-api.php:147 | a key is `store_prefix-key`, or '' exactly when the key is empty |
| SoapApi.PutFieldsLookup | includes/wc-taxify-soap-api.php:162-193 | a block key listed among the fields holds its last listed source field; other keys are the block's own |
| SoapApi.BodyLookup | includes/wc-taxify-soap-api.php:140-201 | a key of the request is found in the header, then the lines, refunds, origin, destination, discount and trailer blocks |
| SoapApi.HeaderLookup | includes/wc-taxify-soap-api.php:147-148 | `Security` is the credentials, `DocumentKey` the prefixed document key, and `TaxDate` the data's date or today |
| SoapApi.TrailerLookup | includes/wc-taxify-soap-api.php:195-198 | `IsCommited` and `CustomerTaxabilityCode` are copied verbatim, `CustomerKey` is prefixed, `CustomerRegistrationNumber` is '' |
| SoapApi.LinesPartLookup | includes/wc-taxify-soap-api.php:150-154 | `Lines.TaxRequestLine` holds a copy of the lines, present iff there are lines |
| SoapApi.RefundPartLookup | includes/wc-taxify-soap-api.php:156-160 | the refund block writes `Discounts` iff there are refunds |
| SoapApi.OriginPartLookup | includes/wc-taxify-soap-api.php:162-172 | `OriginAddress` exists iff `origin_zip` is non-empty |
| SoapApi.DestinationPartLookup | includes/wc-taxify-soap-api.php:174-186 | `DestinationAddress` exists iff `destination_zip` is non-empty |
| SoapApi.DiscountPartLookup | includes/wc-taxify-soap-api.php:188-193 | without refunds, `Discounts` is written iff `discount_amount` is non-empty |
| SoapApi.CalculateBodyKeys | includes/wc-taxify-soap-api.php:140-201 | the request has no key besides those `calculate_tax` writes, so nothing of an earlier request survives |
| SoapApi.CalculateBodyBlocks | includes/wc-taxify-soap-api.php:150-193 | each conditional block (origin, destination, lines, discounts) exists iff its condition holds |
| SoapApi.CalculateBodyValues | includes/wc-taxify-soap-api.php:140-201 | every key outside the conditional blocks is the header's or the trailer's value |
| SoapApi.CalculateBodyLines | includes/wc-taxify-soap-api.php:150-154 | `Lines.TaxRequestLine` is exactly the lines given, in order, keys kept |
| SoapApi.DiscountListRefunds | includes/wc-taxify-soap-api.php:156-193 | without a discount amount, `Discounts.Discount` is the refunds; with one, every key other than the four discount keys still reads as in the refunds |
| SoapApi.DiscountListFields | includes/wc-taxify-soap-api.php:188-193 | a non-empty discount amount writes `Order`, `Code`, `Amount` and `DiscountType` directly into `Discounts.Discount` |
| SoapApi.CopyEntries | includes/wc-taxify-soap-api.php:150-160 | the copy loop keeps every entry, in order, with its key |
| SoapApi.CalculateBodyParts | includes/wc-taxify-soap-api.php:140-201 | the request is the seven blocks in order |
| SoapApi.DiscountBlocks | includes/wc-taxify-soap-api.php:156-160 | the imperative refund and discount code builds the refund and discount blocks |
| SoapApi.AddressBlocks | includes/wc-taxify-soap-api.php:162-186 | the imperative address code builds the origin and destination blocks |
| SoapApi.BuildCalculateBody | includes/wc-taxify-soap-api.php:140-201 | the request built key by key is the whole `CalculateTax` request |
| SoapApi.Soap.constructor | includes/wc-taxify-soap-api.php:54-88 | the API starts with no client, no request and nothing sent |
| SoapApi.Soap.Request | includes/wc-taxify-soap-api.php:54-127 | no call for an empty method or request; otherwise one attempt, the client built once and reused, the request sent when a client exists, and `false` when the call throws |
| SoapApi.Soap.CalculateTax | includes/wc-taxify-soap-api.php:140-201 | the cleared request holds exactly the `CalculateTax` body, which is then sent |
| SoapApi.Soap.CancelTax | includes/wc-taxify-soap-api.php:212-221 | the request is the credentials and the prefixed document key only |
| SoapApi.Soap.CommitTax | includes/wc-taxify-soap-api.php:232-242 | the request is the credentials and both keys, unprefixed |
| SoapApi.Soap.GetVersion | includes/wc-taxify-soap-api.php:251-253 | the request is not cleared and the last one is resent; with no request built nothing is sent and the result is `false` |
| SoapApi.Soap.VerifyAddress | includes/wc-taxify-soap-api.php:264-283 | an empty address gives `false` without a call; otherwise the address fields are copied next to the credentials and sent |
| SoapApi.Soap.GetCodes | includes/wc-taxify-soap-api.php:292-305 | the request asks for the `Item` codes with the credentials |
| Order.ItemLine | includes/wc-taxify-order.php:484-496 | a line is fatal exactly when the product's SKU lookup is fatal |
| Order.ItemLineFields | includes/wc-taxify-order.php:484-496 | `LineNumber` is the variation id if non-empty, else the product id; `ItemKey` is `store_prefix-sku`; the price is `line_total`; the quantity is the item's |
| Order.ItemLines | includes/wc-taxify-order.php:477-501 | there is one line per order item, in order |
| Order.CollectShape | includes/wc-taxify-order.php:477-501 | the list succeeds iff every line does, and then line `k` is under key `k` |
| Order.CartLinesShape | includes/wc-taxify-order.php:477-501 | the line list is fatal iff some item's SKU lookup is; otherwise it has one entry per item, under keys 0, 1, … |
| Order.GetCartLineItems | includes/wc-taxify-order.php:477-501 | the loop builds the line list of the order |
| Order.ShippingCost | includes/wc-taxify-order.php:620-632 | `get_shipping_cost` always returns one entry, so it is never empty |
| Order.ShippingLineHasNoNumber | includes/wc-taxify-order.php:620-632 | the shipping line has no `LineNumber`, so no tax detail can join it |
| Order.ShippingAlwaysAppended | includes/wc-taxify-order.php:98-114 | when shipping is taxable and there are items, the shipping line is always appended after them |
| Order.Refunded | includes/wc-taxify-order.php:512-542 | the refunds used are exactly those with a positive amount |
| Order.IndexedDiscounts | includes/wc-taxify-order.php:512-542 | discount `k` is the refund discount of the k-th refund, under key `k` |
| Order.RefundDiscountsShape | includes/wc-taxify-order.php:512-542 | the refund discounts are the refunds with a positive amount, in order, numbered from 0 |
| Order.GetCartLineItemRefunds | includes/wc-taxify-order.php:512-542 | the loop builds the refund discounts of the order's refunds |
| Order.DetailTaxAnswered | includes/wc-taxify-order.php:554-572 | when a detail joins at most one sent line, the loop adds its amount exactly when it joins one |
| Order.ManyTaxAnswered | includes/wc-taxify-order.php:554-572 | when each detail joins at most one sent line, the line-item tax is the sum of the amounts of the details that join a sent line |
| Order.RepeatedLineCountsTwice | includes/wc-taxify-order.php:554-572 | a detail that joins two sent lines (two items of one product) adds its amount twice, while the reference sum counts it once |
| Order.ShippingDetailAddsNothing | includes/wc-taxify-order.php:554-572 | a detail with an empty `ItemKey` or `shipping_cost` adds nothing |
| Order.AddDetailTax | includes/wc-taxify-order.php:554-572 | the inner loop adds the detail's tax over all lines |
| Order.AssignOneTax | includes/wc-taxify-order.php:554-572 | a single detail object gives its amount when it joins a line, else 0 |
| Order.GetLineItemsTax | includes/wc-taxify-order.php:554-572 | the loops compute the line-item tax of the response |
| Order.LastShippingTax | includes/wc-taxify-order.php:643-653 | the shipping tax is 0 without a `shipping_cost` detail, otherwise the amount of the last one |
| Order.GetShippingTax | includes/wc-taxify-order.php:643-653 | the loop computes the shipping tax of the response |
| Order.ColonToUnderscore | includes/wc-taxify-order.php:583-611 | replacing `:` by `_` keeps the length and every other character, and leaves no `:` |
| Order.ShippingIdOf | includes/wc-taxify-order.php:583-611 | the method id is `false` or non-empty; after a final digit it is the id with `_` for `:`; otherwise the text before `:`, or the id itself |
| Order.GetShippingMethod | includes/wc-taxify-order.php:583-611 | the shipping id of the order's first shipping method, `false` without one |
| Order.ItemTaxKeepsProduct | includes/wc-taxify-order.php:741-786 | writing an item's taxes never changes which product an item is |
| Order.DetailItemsKeepProduct | includes/wc-taxify-order.php:741-786 | likewise for one detail written over all items |
| Order.DetailsKeepProduct | includes/wc-taxify-order.php:741-786 | likewise for all details |
| Order.ItemTaxLineTax | includes/wc-taxify-order.php:741-786 | writing an item's tax sets its `_line_tax` and no other item's |
| Order.DetailItemsLineTax | includes/wc-taxify-order.php:741-786 | one detail sets `_line_tax` on exactly the order's items of its product |
| Order.DetailsLineTax | includes/wc-taxify-order.php:741-786 | an item's `_line_tax` ends as the amount of the last detail for its product, and is unchanged when there is none |
| Order.OrderAddress | includes/wc-taxify-order.php:85 | the order's address is the 9 shipping fields or the 11 billing fields |
| Order.DiscountAmount | includes/wc-taxify-order.php:461-466 | the discount is the coupon item's `discount_amount`, or '' when that is empty |
| Order.WithLines | includes/wc-taxify-order.php:98-114 | collecting lines only sets the shipping fields, and there are lines only for an order that exists |
| Order.Prepare | includes/wc-taxify-order.php:69-114 | preparing a filing resolves the cached order and changes nothing else in the store, the metadata or the calls |
| Order.CommittedFlag | includes/wc-taxify-tax.php:536-540 | reading the committed flag only resolves the cached order |
| Order.FullyRefunded | includes/wc-taxify-order.php:985-995 | no answer for a missing order; fully refunded iff refunded ≥ total or the status is `wc-refunded` |
| Order.TaxifyOrder.constructor | includes/wc-taxify-order.php:19-22 | the singleton starts with zero tax, zero shipping tax, no shipping item and shipping not taxable |
| Order.TaxifyOrder.ReadCustomer | includes/wc-taxify-order.php:91-97 | the customer key and exempt status are read from the resolved order, and nothing changes |
| Order.TaxifyOrder.ReadOrderData | includes/wc-taxify-order.php:69-97 | the order's data are read as `OrderDataOf` says, and the only change is the cached order |
| Order.TaxifyOrder.ReadOrderFields | includes/wc-taxify-order.php:85-97 | the order's fields (address, discount, keys, dates) are read from the resolved order |
| Order.TaxifyOrder.ShippingLines | includes/wc-taxify-order.php:98-114 | the shipping item id and taxability fields are set, and the shipping line is added iff shipping is taxable |
| Order.TaxifyOrder.CollectLines | includes/wc-taxify-order.php:98-114 | collecting lines performs `WithLines` |
| Order.TaxifyOrder.PrepareFiling | includes/wc-taxify-order.php:69-114 | preparing a filing performs `Prepare` |
| Order.TaxifyOrder.WriteDetailTaxes | includes/wc-taxify-order.php:741-786 | one detail's taxes are written onto the order's items of its product |
| Order.TaxifyOrder.AddOrUpdateProductOrderTax | includes/wc-taxify-order.php:741-786 | every detail's taxes are written onto the matching items, and no tax item is added |
| Order.TaxifyOrder.MaybeAddOrUpdateOrderTax | includes/wc-taxify-order.php:798-810 | with a non-zero tax, the existing tax item's `tax_amount` and `shipping_tax_amount` are updated, or a tax item with the Taxify rate is added when the order has none |
| Order.TaxifyOrder.UpdateShippingTaxes | includes/wc-taxify-order.php:723-730 | the shipping item's taxes become the shipping tax under the Taxify rate |
| Order.TaxifyOrder.SetOrderMeta | includes/data-stores/wc-taxify-order-data-store.php:162-174 | one metadata write through the data store |
| Order.TaxifyOrder.ClearCommitFlags | includes/wc-taxify-order.php:165-178 | `_taxify_is_commited` becomes `no` and the commit date is deleted |
| Order.TaxifyOrder.SetCommitFlags | includes/wc-taxify-order.php:149-152 | `_taxify_is_commited` becomes `yes` and the commit date is now |
| Order.TaxifyOrder.WriteTaxAndCoupon | includes/wc-taxify-order.php:134-141 | the tax item and coupon item metadata are written |
| Order.TaxifyOrder.WriteItemTaxes | includes/wc-taxify-order.php:143-147 | the product, order and shipping taxes are written, in that order |
| Order.TaxifyOrder.FileSucceeded | includes/wc-taxify-order.php:120-163 | a Success response performs `Succeeded`: the totals, taxes and (for a commit) the commit flags |
| Order.TaxifyOrder.WriteTotals | includes/wc-taxify-order.php:124-141 | the order's tax totals are recorded as `TotalsWritten` says |
| Order.TaxifyOrder.FileFailed | includes/wc-taxify-order.php:165-180 | a failure clears the commit flags and schedules the missed-order retry |
| Order.TaxifyOrder.SendCalculate | includes/wc-taxify-order.php:116-118 | one `CalculateTax` exchange with the API |
| Order.TaxifyOrder.SendCancel | includes/wc-taxify-order.php:210-241 | one `CancelTax` exchange with the API |
| Order.TaxifyOrder.SendCommit | includes/wc-taxify-order.php:435-450 | one `CommitTax` exchange with the API |
| Order.TaxifyOrder.CalculateTax | includes/wc-taxify-order.php:116-118 | the `CalculateTax` exchange as a change of the snapshot |
| Order.TaxifyOrder.CancelTax | includes/wc-taxify-order.php:210-241 | the `CancelTax` exchange as a change of the snapshot |
| Order.TaxifyOrder.CommitTax | includes/wc-taxify-order.php:435-450 | the `CommitTax` exchange as a change of the snapshot |
| Order.TaxifyOrder.SendFiling | includes/wc-taxify-order.php:116-180 | sending a filing and handling Success, Failure or no result performs `Filed` |
| Order.TaxifyOrder.OrderCompleted | includes/wc-taxify-order.php:67-184 | `order_completed` performs `Completed` |
| Order.TaxifyOrder.CallOrderCompleted | includes/wc-taxify-order.php:195-197 | the hook files the order as committed; `call_order_completed_for_deleted_refund` (lines 380-382) is the same call |
| Order.TaxifyOrder.OrderCancelled | includes/wc-taxify-order.php:210-241 | `order_cancelled` performs `Cancelled` |
| Order.TaxifyOrder.ReadCommitted | includes/wc-taxify-tax.php:536-540 | the committed flag is read as `CommittedFlag` says |
| Order.TaxifyOrder.CallOrderCancelled | includes/wc-taxify-order.php:271-275 | the hook performs `CallCancelled` |
| Order.TaxifyOrder.IsOrderFullyRefunded | includes/wc-taxify-order.php:985-995 | the method computes `FullyRefunded` |
| Order.TaxifyOrder.CallOrderCompletedOrCancelForRefundUpdate | includes/wc-taxify-order.php:287-304 | a refund update performs `RefundUpdate` |
| Order.TaxifyOrder.ReadRefundData | includes/wc-taxify-order.php:314-346 | the refund's data are read as `RefundDataOf` says, and the only change is the cached order |
| Order.TaxifyOrder.ReadRefundFields | includes/wc-taxify-order.php:319-346 | the refund's fields are read from the resolved order |
| Order.TaxifyOrder.SendRefund | includes/wc-taxify-order.php:349-365 | sending the refund and handling the answer performs `RefundSent` |
| Order.TaxifyOrder.OrderRefunded | includes/wc-taxify-order.php:314-368 | `order_refunded` performs `RefundFiled` |
| Order.TaxifyOrder.RefundDeleted | includes/wc-taxify-order.php:392-405 | `refund_deleted` performs `RefundCancelled` |
| Order.TaxifyOrder.DeleteOrder | includes/wc-taxify-order.php:414-426 | `delete_order` sends `CancelTax` and changes no metadata |
| Order.TaxifyOrder.DeleteOrderFromTaxify | includes/wc-taxify-order.php:250-259 | `delete_order_from_taxify` performs `DeletedFromTaxify` |
| Order.TaxifyOrder.CommitOrder | includes/wc-taxify-order.php:435-450 | `commit_order` performs `OrderCommitted` |
| Order.TaxifyOrder.FileOrders | includes/wc-taxify-scheduler.php:267-276 | `file_orders` performs `OrderFiled` |
| Lifecycle.SetMetaFlag | includes/data-stores/wc-taxify-order-data-store.php:162-174 | a metadata write on the order sets that flag of the cached order and no other |
| Lifecycle.DelMetaFlag | includes/data-stores/wc-taxify-order-data-store.php:184-196 | a metadata delete makes that flag '' and leaves the others |
| Lifecycle.UncommittedFlags | includes/wc-taxify-order.php:165-178 | clearing the commit flags gives `no` and an empty date, and no other flag changes |
| Lifecycle.CommittedFlags | includes/wc-taxify-order.php:149-152 | setting the commit flags gives `yes` and the current MySQL time, and no other flag changes |
| Lifecycle.ExchangeRecords | includes/wc-taxify-soap-api.php:54-127 | an exchange only touches the client's state; it records the call whenever a client exists, and always when it answers |
| Lifecycle.SucceededFlags | includes/wc-taxify-order.php:120-163 | on Success, `_order_tax` is the line-item tax, `_order_shipping_tax` the shipping tax, and the commit flag becomes `yes` only for a commit |
| Lifecycle.FailedFlags | includes/wc-taxify-order.php:165-180 | on Failure or no result, the commit flag is `no` |
| Lifecycle.FailedRetries | includes/wc-taxify-order.php:165-180 | a failure queues the missed-order retry at now + 3600, unless the duplicate check finds an action for id 1 |
| Lifecycle.FiledFlags | includes/wc-taxify-order.php:116-180 | after filing, the commit flag is `no` on Failure or no result, `yes` on a committed Success, and unchanged on any other answer |
| Lifecycle.CompletedCallsOnce | includes/wc-taxify-order.php:67-184 | `order_completed` makes at most one call, `CalculateTax` with the prepared data, lines and refunds, and none unless there are lines |
| Lifecycle.FiledCalls | includes/wc-taxify-order.php:116-180 | filing sends at most the one `CalculateTax` call |
| Lifecycle.CompletedFlag | includes/wc-taxify-order.php:67-184 | re-entered with a cached order, the commit flag of that order after `order_completed` is unchanged, `no`, or `yes` for a commit |
| Lifecycle.CompletedFlagFresh | includes/wc-taxify-order.php:67-184 | entered with no cached order, the completed order becomes the cached one, and its commit flag is unchanged, `no`, or `yes` for a commit |
| Lifecycle.CommittedNotRefiled | includes/wc-taxify-scheduler.php:267-276 | after a committed Success, `file_orders` does nothing: a committed order is never filed again |
| Lifecycle.CancelledStatuses | includes/wc-taxify-order.php:210-241 | the guard admits every order; a new status outside `{saved, pending, processing, on-hold, cancelled, failed}` changes nothing |
| Lifecycle.CancelledLeavesUncommitted | includes/wc-taxify-order.php:210-241 | a cancel status with a Success answer leaves the order uncommitted |
| Lifecycle.FullyRefundedOnlyCancels | includes/wc-taxify-order.php:287-304 | a fully refunded order only gets `CancelTax`; no metadata, tax item or schedule changes |
| Lifecycle.NotFullyRefundedRefiles | includes/wc-taxify-order.php:287-304 | a partial refund files the order again as committed |
| Lifecycle.RefundFlagsOnTarget | includes/wc-taxify-order.php:314-368 | the refund's commit flags land on the order the cache resolves, leaving every other order as it was |
| Lifecycle.RefundSentFlags | includes/wc-taxify-order.php:349-365 | sending a refund sets the commit flag to `yes` on Success and `no` without an answer |
| Checkout.CartAddressValid | includes/wc-taxify-checkout.php:95-105 | the cart's address is valid iff the address `woocommerce_tax_based_on` selects is a US address |
| Checkout.CartCustomerKey | includes/wc-taxify-checkout.php:101-108 | the customer key is the session's cart customer id when that is non-empty, else the customer id (0 for a guest), so it is empty only as the id 0 |
| Checkout.CartAddressKeys | includes/wc-taxify-checkout.php:104-122 | the cart's address has only address keys, so it cannot overwrite the document key, commit flag, customer key or exempt flag |
| Checkout.DestinationKeysOnly | includes/wc-taxify-tax.php:88-162 | a customer address has only `destination_*` keys |
| Checkout.CartDataFields | includes/wc-taxify-checkout.php:112-122 | the data sent carry the instance's document key, `is_commited = false`, the customer key and the exempt flag |
| Checkout.ItemLine | includes/wc-taxify-checkout.php:229-241 | a cart line is fatal exactly when the SKU lookup of the row's product object is |
| Checkout.LineNumbered | includes/wc-taxify-checkout.php:233 | a cart line's `LineNumber` is the product object's id |
| Checkout.ItemLines | includes/wc-taxify-checkout.php:224-246 | there is one line per cart row, in order |
| Checkout.CartItemLinesShape | includes/wc-taxify-checkout.php:224-246 | the line list is fatal iff some row's SKU lookup is; otherwise line `k` is row `k`'s, under key `k` |
| Checkout.CollectStops | includes/wc-taxify-checkout.php:224-246 | one fatal line makes the whole list fatal |
| Checkout.GetCartLineItems | includes/wc-taxify-checkout.php:224-246 | the loop builds the cart's line list |
| Checkout.ShippingCost | includes/wc-taxify-checkout.php:257-272 | the shipping line list is empty iff the shipping total is 0, and otherwise holds the single shipping line |
| Checkout.ChosenShippingMethod | includes/wc-taxify-checkout.php:281-297 | the method id is `false` or non-empty, and after a digit it has no `:` and keeps its length |
| Checkout.SentLinesShape | includes/wc-taxify-checkout.php:124-136 | the shipping line is appended after the rows iff the shipping total is non-empty and the method is taxable |
| Checkout.MergeOneLine | includes/wc-taxify-checkout.php:127 | `array_merge` of the rows and one shipping line numbers it after the rows |
| Checkout.GetRequestLines | includes/wc-taxify-checkout.php:124-136 | the lines sent are the rows, plus the shipping line when it applies |
| Checkout.CartCallGuard | includes/wc-taxify-checkout.php:112-138 | a call is made iff the cart has rows, the address is valid and no line is fatal; it carries the document key, `is_commited = false` and the exempt flag |
| Checkout.CartShippingTax | includes/wc-taxify-checkout.php:308-318 | the shipping tax is '' or the non-zero amount of the last `shipping_cost` detail |
| Checkout.GetShippingTax | includes/wc-taxify-checkout.php:308-318 | the loop computes the cart's shipping tax |
| Checkout.LastJoin | includes/wc-taxify-checkout.php:330-352 | a row receives no amount iff no detail joins it, and otherwise the amount of a detail that does |
| Checkout.Taxed | includes/wc-taxify-checkout.php:340-343 | writing a row's tax never changes which product it is |
| Checkout.Joined | includes/wc-taxify-checkout.php:330-352 | every row gets the amount of the last detail that joins it, and rows keep their order |
| Checkout.DetailSumJoined | includes/wc-taxify-checkout.php:330-352 | with distinct products, a detail adds its amount iff it joins a row |
| Checkout.JoinSumJoined | includes/wc-taxify-checkout.php:330-352 | with distinct products, the sum returned is the sum of the joined details' amounts |
| Checkout.ShippingDetailJoinsNothing | includes/wc-taxify-checkout.php:337 | a detail with an empty `ItemKey` or `shipping_cost` adds nothing |
| Checkout.VariationRowUntaxed | includes/wc-taxify-checkout.php:233-338 | when every detail answers a sent line and no line carries a row's `product_id`, that row is left untaxed |
| Checkout.Step | includes/wc-taxify-checkout.php:336-346 | one detail applied to a row keeps the row's product |
| Checkout.JoinedSnoc | includes/wc-taxify-checkout.php:334-346 | one more detail updates each row as one more loop step |
| Checkout.JoinedStep | includes/wc-taxify-checkout.php:334-346 | the outer loop's next state is the join with one more detail |
| Checkout.NotSuccessKeepsStale | includes/wc-taxify-checkout.php:140-189 | without Success, the singleton's shipping and total tax and the rows keep their previous values; an exempt session still resets the cart |
| Checkout.EmptySalesTaxKeepsTotal | includes/wc-taxify-checkout.php:141-184 | a Success with an empty sales tax or no rate id joins the rows and reads the shipping tax, but keeps the previous total tax |
| Checkout.WrittenTotals | includes/wc-taxify-checkout.php:153-184 | the total tax is the line sum when both it and the shipping tax are non-empty, else the sales tax, and it is written to the cart; a non-empty shipping tax replaces the cart's shipping taxes with `{rate: tax}` |
| Checkout.ExemptResetOnlyCart | includes/wc-taxify-checkout.php:187-189 | an exempt reset zeroes the cart's taxes and empties its tax arrays, but keeps the singleton's fields and the total tax |
| Checkout.ShippingTaxFormKept | includes/wc-taxify-checkout.php:144-168 | the singleton's shipping tax stays '' or an integer, and after a written total it is an integer |
| Checkout.CartTotalAfterWrite | includes/wc-taxify-checkout.php:206-213 | after a write, `calculated_total` is the contents and shipping totals plus the cart's total tax and its shipping tax |
| Checkout.ExemptTotalStillTaxed | includes/wc-taxify-checkout.php:187-213 | an exempt reset zeroes the cart's taxes, but `calculated_total` is the same as without it |
| Checkout.Cart.constructor | includes/wc-taxify-checkout.php:88-89 | a cart holds its customer, display setting, totals, rows and taxes |
| Checkout.SetAndGetCartLineItemsTax | includes/wc-taxify-checkout.php:330-352 | the result is the sum of the joined amounts, and each row's taxes are those of the last detail that joins it |
| Checkout.JoinDetail | includes/wc-taxify-checkout.php:336-346 | the inner loop applies one detail to every row and adds the amounts it joins |
| Checkout.ResetCartTaxes | includes/wc-taxify-checkout.php:494-507 | the cart's shipping, contents and fee taxes become 0 and its tax arrays empty; the rows are unchanged |
| Checkout.TaxifyCheckout.constructor | includes/wc-taxify-checkout.php:42-44 | the document key is `cart_` plus a unique id when Taxify is enabled, else '' |
| Checkout.TaxifyCheckout.WriteCartTaxes | includes/wc-taxify-checkout.php:153-184 | the write block performs `TaxesSet` and keeps the other fields |
| Checkout.TaxifyCheckout.Reconcile | includes/wc-taxify-checkout.php:140-189 | handling an answer performs `Reconciled` |
| Checkout.TaxifyCheckout.CalculateTotals | includes/wc-taxify-checkout.php:88-194 | the address, customer key and display setting are recorded; a call is made iff the guard holds, and then the totals are reconciled with the answer; fatal iff a line is |
| Checkout.TaxifyCheckout.Send | includes/wc-taxify-checkout.php:138-189 | the `CalculateTax` exchange, then the reconciliation of its answer |
| Checkout.TaxifyCheckout.AddShippingTaxes | includes/wc-taxify-checkout.php:518-530 | with a shipping tax and an item id, the new order item's `taxes` are replaced by `{total: {rate: tax}}` and `total_tax` set; otherwise nothing changes |
| Checkout.ShippingTaxesWritten | includes/wc-taxify-checkout.php:518-530 | the new order item, of any type, then reads back its new `taxes` and `total_tax`, and every other item and key is unchanged |

## Left out

- Hook registration in the constructors: every event is a method called directly.
- The branches for WooCommerce below 3.0 or 3.2: `ready_to_run` refuses to run below 3.0, and the model follows the 3.2 branches.
- Logging: `WCT_LOG()` calls are no-ops.
- The SOAP transport, `SoapClient` construction and `includes/wc-taxify-soapclient.php`: each remote call is an oracle outcome.
- `includes/api/wc-taxify-rest-api.php`: an alternative HTTP client with no caller in the core.
- The SQL helpers `get_item_id`, `get_item_ids`, `get_order_completed_ids`, `get_refunds` and the `get_refund_ids*` family: their answers are inputs held in `Host.Shop`.
- Dates, time zones and `time()`: the clock, the MySQL time and the API date are inputs in `Host.Config`.
- Floating-point money: amounts are integer cents and `wc_format_decimal` is the identity.
- `uniqid`: the unique id is a constructor parameter.
- The WooCommerce customer and session objects, including `get_cart_customer_id`: what they report is an input (`Checkout.Visitor`, `Checkout.Profile`).
- `recalculate_order_totals`: it only calls WooCommerce's own total computation.
- The admin screens, the installer and the product data store: the product data store's answers are `Host.Shop.products`.
- `base_store_address` and `get_store_tax_address`: the store's base address is an input (`Tax.BaseAddress`).
- Tax.TaxifyTaxClasses: the API lookup's text is an input, and its write of the option is not modelled.
- Order.RefundAmount: an unknown refund is read as amount 0.
- PHP's conversion of numeric-string array keys to ints: keys keep the kind they are written with.
- Tax.GetSku: asking a missing product for its SKU is a fatal error in PHP, modelled as `None`, which stops the request.
- OrderDataStore.Store.GetMeta: only `$single = true` is modelled; no caller in the core passes `false`.
- `get_scheduled_events_timestamps` and `get_scheduled_event_datetime`: they are not used by the core's lifecycle and only format dates.
- The action scheduler's own behaviour: `accepts` says whether an insert gets a numeric id; `wc_unschedule_action` removes the first matching action.
