/**
 * Properties of the order tax lifecycle across its handlers: what one API
 * exchange records, where the commit flags land, when a retry is queued,
 * and which handlers never file twice.
 */
module Lifecycle {
  import opened Php
  import opened Host
  import opened Tax
  import opened OrderDataStore
  import opened SoapApi
  import opened Order
  import Scheduler

  /** The value of `key` on the order the store has cached. */
  function Flag(s: Snapshot, key: string): Value
    requires Coherent(s) && s.cached.Some?
  {
    MetaGet(s.orders[s.cached.value].meta, key)
  }

  /** The meta key order_completed and order_refunded read as the commit flag. */
  const CommitKey := "_taxify_is_commited"

  // ---------------------------------------------------------------------
  // Writes through the sticky store
  // ---------------------------------------------------------------------

  /** With an order cached, `update_meta` writes that order's key and no other. */
  lemma SetMetaFlag(s: Snapshot, id: int, key: string, v: Value, other: string)
    requires Coherent(s) && s.cached.Some?
    ensures var r := SetMeta(s, id, key, v);
      Coherent(r) && r.cached == s.cached && Flag(r, key) == v
      && (other != key ==> Flag(r, other) == Flag(s, other))
  {
    var rec := s.orders[s.cached.value];
    MetaUpdateReads(rec.meta, key, v);
    if other != key {
      MetaUpdateKeepsOthers(rec.meta, key, v, other);
    }
  }

  /** With an order cached, `delete_meta` empties that order's key and no other. */
  lemma DelMetaFlag(s: Snapshot, id: int, key: string, other: string)
    requires Coherent(s) && s.cached.Some?
    ensures var r := DelMeta(s, id, key);
      Coherent(r) && r.cached == s.cached && Flag(r, key) == VStr("")
      && (other != key ==> Flag(r, other) == Flag(s, other))
  {
    MetaRemoveReads(s.orders[s.cached.value].meta, key, other);
  }

  /** Clearing the flags leaves 'no' and no commit date, and keeps every other key. */
  lemma UncommittedFlags(s: Snapshot, id: int, other: string)
    requires Coherent(s) && s.cached.Some?
    ensures var r := Uncommitted(s, id);
      Coherent(r) && r.cached == s.cached
      && Flag(r, CommitKey) == VStr("no") && Flag(r, "_taxify_commited_date") == VStr("")
      && (other != CommitKey && other != "_taxify_commited_date" ==> Flag(r, other) == Flag(s, other))
  {
    var s1 := SetMeta(s, id, CommitKey, VStr("no"));
    SetMetaFlag(s, id, CommitKey, VStr("no"), other);
    DelMetaFlag(s1, id, "_taxify_commited_date", CommitKey);
    DelMetaFlag(s1, id, "_taxify_commited_date", other);
  }

  /** Setting the flags leaves 'yes' and the commit time, and keeps every other key. */
  lemma CommittedFlags(s: Snapshot, env: Env, id: int, other: string)
    requires Coherent(s) && s.cached.Some?
    ensures var r := Committed(s, env, id);
      Coherent(r) && r.cached == s.cached
      && Flag(r, CommitKey) == VStr("yes") && Flag(r, "_taxify_commited_date") == VStr(env.config.mysqlNow)
      && (other != CommitKey && other != "_taxify_commited_date" ==> Flag(r, other) == Flag(s, other))
  {
    var s1 := SetMeta(s, id, CommitKey, VStr("yes"));
    SetMetaFlag(s, id, CommitKey, VStr("yes"), other);
    SetMetaFlag(s1, id, "_taxify_commited_date", VStr(env.config.mysqlNow), CommitKey);
    SetMetaFlag(s1, id, "_taxify_commited_date", VStr(env.config.mysqlNow), other);
  }

  // ---------------------------------------------------------------------
  // One exchange
  // ---------------------------------------------------------------------

  /**
   * Every API call is one transport attempt; the call is recorded at most
   * once, always once a client exists, and an answer means it was recorded.
   * Nothing but the client's fields changes.
   */
  lemma ExchangeRecords(s: Snapshot, env: Env, call: ApiCall)
    ensures var (r, res) := Exchange(s, env, call);
      r == s.(attempts := r.attempts, clientCreated := r.clientCreated, calls := r.calls)
      && r.attempts == s.attempts + 1
      && (r.calls == s.calls || r.calls == s.calls + [call])
      && (s.clientCreated ==> r.clientCreated && r.calls == s.calls + [call])
      && (res.Some? ==> r.calls == s.calls + [call])
  {
  }

  // ---------------------------------------------------------------------
  // order_completed
  // ---------------------------------------------------------------------

  /**
   * The Success branch writes `_order_tax` as the line items' tax read back
   * and `_order_shipping_tax` as the shipping tax, which is the value left
   * from the previous call when shipping is not taxable; the commit flag
   * becomes 'yes' exactly when the call committed. No call is made and the
   * queue is untouched.
   */
  lemma SucceededFlags(s: Snapshot, env: Env, shop: Shop, orderId: int, isCommitted: bool,
                       r: Response, lines: seq<Entry>, discount: Value)
    requires Coherent(s) && s.cached.Some?
    ensures var f := Succeeded(s, env, shop, orderId, isCommitted, r, lines, discount);
      var shippingTax := if s.shippingTaxable then ShippingTaxOf(r) else s.shippingTax;
      Coherent(f) && f.cached == s.cached && f.calls == s.calls && f.pending == s.pending
      && f.tax == LineItemsTaxOf(r, lines) && f.shippingTax == shippingTax
      && Flag(f, "_order_tax") == VInt(LineItemsTaxOf(r, lines))
      && Flag(f, "_order_shipping_tax") == VInt(shippingTax)
      && Flag(f, CommitKey) == (if isCommitted then VStr("yes") else Flag(s, CommitKey))
  {
    var tax := LineItemsTaxOf(r, lines);
    var shippingTax := if s.shippingTaxable then ShippingTaxOf(r) else s.shippingTax;
    var t1 := s.(tax := tax, shippingTax := shippingTax);
    var a := SetMeta(t1, orderId, "_order_tax", VInt(tax));
    SetMetaFlag(t1, orderId, "_order_tax", VInt(tax), CommitKey);
    SetMetaFlag(a, orderId, "_order_shipping_tax", VInt(shippingTax), "_order_tax");
    SetMetaFlag(a, orderId, "_order_shipping_tax", VInt(shippingTax), CommitKey);
    var w := TotalsWritten(s, env, shop, orderId, r, lines, discount);
    var s2 := TaxesRecorded(w, env, shop, orderId, r);
    assert s2.orders == SetMeta(a, orderId, "_order_shipping_tax", VInt(shippingTax)).orders && s2.cached == s.cached;
    if isCommitted {
      CommittedFlags(s2, env, orderId, "_order_tax");
      CommittedFlags(s2, env, orderId, "_order_shipping_tax");
    }
  }

  /**
   * The Failure branch (also taken without an answer) leaves the flag 'no'
   * and makes no call.
   */
  lemma FailedFlags(s: Snapshot, env: Env, shop: Shop, orderId: int)
    requires Coherent(s) && s.cached.Some?
    ensures var f := Failed(s, env, shop, orderId);
      Coherent(f) && f.cached == s.cached && f.calls == s.calls && Flag(f, CommitKey) == VStr("no")
  {
    UncommittedFlags(s, orderId, CommitKey);
  }

  /**
   * A retry is queued an hour from now after a failed filing of an existing
   * order when no missed-order action for order id 1 is pending. A pending
   * missed-order action for order id 1 blocks the retry of every order,
   * because the duplicate lookup casts its argument array to 1; only such
   * an action due at time 0 does not, since `! 0` holds in PHP.
   */
  lemma FailedRetries(s: Snapshot, env: Env, shop: Shop, orderId: int)
    requires OrderExists(shop, orderId)
    ensures var f := Failed(s, env, shop, orderId);
      var due := env.config.now + Scheduler.HourInSeconds;
      var p := s.pending;
      var hook := Scheduler.MissedHook;
      ((forall i :: 0 <= i < |p| ==> !Scheduler.Matches(p[i], hook, Scheduler.IdArgs(1), "")) && env.accepts(s.inserts) ==>
         f.pending == p + [Scheduler.Action(hook, Scheduler.IdArgs(orderId), "", due)])
      && ((exists i :: 0 <= i < |p| && Scheduler.Matches(p[i], hook, Scheduler.IdArgs(1), ""))
          && (forall i :: 0 <= i < |p| && Scheduler.Matches(p[i], hook, Scheduler.IdArgs(1), "") ==> p[i].timestamp != 0)
          ==> f.pending == p)
  {
    var s1 := Uncommitted(s, orderId);
    assert s1.pending == s.pending && s1.inserts == s.inserts;
    Scheduler.DuplicateLookupIgnoresOrder(s.pending, Scheduler.MissedHook, orderId, "");
    Scheduler.NextScheduledFinds(s.pending, Scheduler.MissedHook, Scheduler.IdArgs(1), "");
  }

  /**
   * order_completed from the call on, by answer: Failure or no answer
   * clears the flag; Success sets it exactly for a committing call; any
   * other status leaves it. The store keeps its cached order.
   */
  lemma FiledFlags(s: Snapshot, env: Env, shop: Shop, orderId: int, isCommitted: bool,
                   data: seq<Entry>, lines: seq<Entry>, discount: Value)
    requires Coherent(s) && s.cached.Some?
    ensures var res := Exchange(s, env, CalculateCall(data, lines, OrderRefunds(shop, orderId), env.config.today)).1;
      var f := Filed(s, env, shop, orderId, isCommitted, data, lines, discount);
      Coherent(f) && f.cached == s.cached
      && (res.None? || StatusIs(res.value, "Failure") ==> Flag(f, CommitKey) == VStr("no"))
      && (res.Some? && StatusIs(res.value, "Success") ==>
            Flag(f, CommitKey) == if isCommitted then VStr("yes") else Flag(s, CommitKey))
      && (res.Some? && !StatusIs(res.value, "Failure") && !StatusIs(res.value, "Success") ==>
            Flag(f, CommitKey) == Flag(s, CommitKey))
  {
    var (s1, res) := Exchange(s, env, CalculateCall(data, lines, OrderRefunds(shop, orderId), env.config.today));
    if res.None? || StatusIs(res.value, "Failure") {
      FailedFlags(s1, env, shop, orderId);
    } else if StatusIs(res.value, "Success") {
      SucceededFlags(s1, env, shop, orderId, isCommitted, res.value, lines, discount);
    }
  }

  /**
   * order_completed makes at most one API call, CalculateTax with what it
   * prepared, and only when it prepared a filing with line items; otherwise
   * nothing changes beyond the reads, and the fatal error is reported
   * exactly when the order could not be read.
   */
  lemma CompletedCallsOnce(s: Snapshot, env: Env, shop: Shop, orderId: int, isCommitted: bool)
    requires Coherent(s)
    ensures var (s1, p) := Prepare(s, env, shop, orderId, isCommitted);
      var (r, fatal) := Completed(s, env, shop, orderId, isCommitted);
      (r.calls == s.calls
       || (p.Filing? && |p.lines| > 0
           && r.calls == s.calls + [CalculateCall(p.data, p.lines, OrderRefunds(shop, orderId), env.config.today)]))
      && (!(p.Filing? && |p.lines| > 0) ==> r == s1 && fatal == p.Fatal?)
      && (p.Filing? && |p.lines| > 0 ==> !fatal)
  {
    var (s1, p) := Prepare(s, env, shop, orderId, isCommitted);
    if p.Filing? && |p.lines| > 0 {
      FiledCalls(s1, env, shop, orderId, isCommitted, p.data, p.lines, p.discount);
    }
  }

  /** order_completed from the call on records at most its one CalculateTax call. */
  lemma FiledCalls(s: Snapshot, env: Env, shop: Shop, orderId: int, isCommitted: bool,
                   data: seq<Entry>, lines: seq<Entry>, discount: Value)
    ensures var f := Filed(s, env, shop, orderId, isCommitted, data, lines, discount);
      f.calls == s.calls || f.calls == s.calls + [CalculateCall(data, lines, OrderRefunds(shop, orderId), env.config.today)]
  {
    var (s1, res) := Exchange(s, env, CalculateCall(data, lines, OrderRefunds(shop, orderId), env.config.today));
    if res.Some? && StatusIs(res.value, "Success") && !StatusIs(res.value, "Failure") {
      var w := TotalsWritten(s1, env, shop, orderId, res.value, lines, discount);
      assert w.calls == s1.calls;
    }
  }

  /**
   * Across order_completed the commit flag of the cached order keeps its
   * value, becomes 'no', or, for a committing call only, becomes 'yes'.
   * This is re-entry within a request that has already cached an order;
   * CompletedFlagFresh is the first call of a request.
   */
  lemma CompletedFlag(s: Snapshot, env: Env, shop: Shop, orderId: int, isCommitted: bool)
    requires Coherent(s) && s.cached.Some?
    ensures var r := Completed(s, env, shop, orderId, isCommitted).0;
      Coherent(r) && r.cached == s.cached
      && (Flag(r, CommitKey) == Flag(s, CommitKey) || Flag(r, CommitKey) == VStr("no")
          || (isCommitted && Flag(r, CommitKey) == VStr("yes")))
  {
    var (s1, p) := Prepare(s, env, shop, orderId, isCommitted);
    assert s1.orders == s.orders && s1.cached == s.cached;
    if p.Filing? && |p.lines| > 0 {
      FiledFlags(s1, env, shop, orderId, isCommitted, p.data, p.lines, p.discount);
    }
  }

  /**
   * order_completed in a request with no cached order: the store caches
   * the completed order, and its commit flag keeps its value, becomes 'no',
   * or, for a committing call only, becomes 'yes'.
   */
  lemma CompletedFlagFresh(s: Snapshot, env: Env, shop: Shop, orderId: int, isCommitted: bool)
    requires Coherent(s) && s.cached.None? && orderId in s.orders
    ensures var r := Completed(s, env, shop, orderId, isCommitted).0;
      var before := MetaGet(s.orders[orderId].meta, CommitKey);
      Coherent(r) && r.cached == Some(orderId)
      && (Flag(r, CommitKey) == before || Flag(r, CommitKey) == VStr("no")
          || (isCommitted && Flag(r, CommitKey) == VStr("yes")))
  {
    var (s1, p) := Prepare(s, env, shop, orderId, isCommitted);
    assert s1.orders == s.orders && s1.cached == Some(orderId);
    if p.Filing? && |p.lines| > 0 {
      FiledFlags(s1, env, shop, orderId, isCommitted, p.data, p.lines, p.discount);
    }
  }

  /**
   * A filing that committed is not filed again by file_orders: the flag
   * is 'yes' on the order the store reads.
   */
  lemma CommittedNotRefiled(s: Snapshot, env: Env, shop: Shop, orderId: int,
                            data: seq<Entry>, lines: seq<Entry>, discount: Value)
    requires Coherent(s) && s.cached.Some?
    requires var res := Exchange(s, env, CalculateCall(data, lines, OrderRefunds(shop, orderId), env.config.today)).1;
      res.Some? && StatusIs(res.value, "Success")
    ensures var f := Filed(s, env, shop, orderId, true, data, lines, discount);
      Coherent(f) && OrderFiled(f, env, shop, orderId) == (f, false)
  {
    FiledFlags(s, env, shop, orderId, true, data, lines, discount);
  }

  // ---------------------------------------------------------------------
  // The other handlers
  // ---------------------------------------------------------------------

  /**
   * order_cancelled's guard admits every order: no status is both completed
   * and refunded. A status outside the cancelling ones changes nothing.
   */
  lemma CancelledStatuses(s: Snapshot, env: Env, shop: Shop, orderId: int, newStatus: string)
    requires Coherent(s)
    ensures CancelGuard(shop, orderId)
    ensures newStatus !in CancelStatuses ==> Cancelled(s, env, shop, orderId, newStatus) == (s, false)
  {
  }

  /**
   * After a successful cancellation the order is refiled uncommitted, so
   * its commit flag ends 'no' whatever the refiling answers.
   */
  lemma CancelledLeavesUncommitted(s: Snapshot, env: Env, shop: Shop, orderId: int, newStatus: string)
    requires Coherent(s) && (s.cached.Some? || orderId in s.orders)
    requires newStatus in CancelStatuses
    requires var res := Exchange(s, env, CancelCall(VInt(orderId))).1; res.Some? && StatusIs(res.value, "Success")
    ensures var r := Cancelled(s, env, shop, orderId, newStatus).0;
      Coherent(r) && r.cached == Target(s.cached, s.orders, orderId) && Flag(r, CommitKey) == VStr("no")
  {
    CancelledStatuses(s, env, shop, orderId, newStatus);
    var (s1, res) := Exchange(s, env, CancelCall(VInt(orderId)));
    var u := Uncommitted(s1, orderId);
    var s2 := s1.(cached := Target(s1.cached, s1.orders, orderId));
    assert SetMeta(s1, orderId, CommitKey, VStr("no")) == SetMeta(s2, orderId, CommitKey, VStr("no"));
    UncommittedFlags(s2, orderId, CommitKey);
    CompletedFlag(u, env, shop, orderId, false);
  }

  /**
   * A fully refunded order is only cancelled: the one call is CancelTax,
   * and nothing is written but the cleared flags.
   */
  lemma FullyRefundedOnlyCancels(s: Snapshot, env: Env, shop: Shop, orderId: int)
    requires Coherent(s) && FullyRefunded(shop, orderId) == Some(true)
    ensures var (r, fatal) := RefundUpdate(s, env, shop, orderId);
      !fatal && (r.calls == s.calls || r.calls == s.calls + [CancelCall(VInt(orderId))])
      && r.meta == s.meta && r.pending == s.pending && r.addedTaxes == s.addedTaxes
  {
    var (s1, res) := Exchange(s, env, CancelCall(VInt(orderId)));
    assert RefundUpdate(s, env, shop, orderId)
        == (if res.Some? && StatusIs(res.value, "Success") then Uncommitted(s1, orderId) else s1, false);
  }

  /** Any other order with a record is filed again, committed. */
  lemma NotFullyRefundedRefiles(s: Snapshot, env: Env, shop: Shop, orderId: int)
    requires Coherent(s) && orderId in shop.orders
    requires !(shop.orders[orderId].refunded >= shop.orders[orderId].total || PostStatus(shop, orderId) == "wc-refunded")
    ensures RefundUpdate(s, env, shop, orderId) == Completed(s, env, shop, orderId, true)
  {
  }

  /**
   * order_refunded writes the commit flags through the store under the
   * refund id, so on Success they land on the order the store targets (the
   * refunded order, or whichever order was cached before), never on a
   * record of the refund itself; without an answer the order's flag is
   * cleared.
   */
  lemma RefundFlagsOnTarget(s: Snapshot, env: Env, shop: Shop, orderId: int, refundId: int, data: seq<Entry>)
    requires Coherent(s) && RefundDataOf(s, env, shop, orderId, refundId) == Some(data)
    ensures var t := Target(s.cached, s.orders, orderId);
      var lines := RefundItems(orderId, -(RefundAmount(shop, refundId) as int));
      var res := Exchange(s.(cached := t), env, CalculateCall(data, lines, [], env.config.today)).1;
      var f := RefundFiled(s, env, shop, orderId, refundId);
      t.Some? && Coherent(f) && f.cached == t
      && (res.Some? && StatusIs(res.value, "Success") ==>
            Flag(f, CommitKey) == VStr("yes")
            && forall id :: id in s.orders && id != t.value ==> id in f.orders && f.orders[id] == s.orders[id])
      && (res.None? ==> Flag(f, CommitKey) == VStr("no"))
  {
    var t := Target(s.cached, s.orders, orderId);
    assert t.Some?;
    RefundSentFlags(s.(cached := t), env, shop, orderId, refundId, data);
  }

  /** order_refunded from the call on, with an order cached: where the flags land. */
  lemma RefundSentFlags(s: Snapshot, env: Env, shop: Shop, orderId: int, refundId: int, data: seq<Entry>)
    requires Coherent(s) && s.cached.Some?
    ensures var lines := RefundItems(orderId, -(RefundAmount(shop, refundId) as int));
      var res := Exchange(s, env, CalculateCall(data, lines, [], env.config.today)).1;
      var f := RefundSent(s, env, shop, orderId, refundId, data);
      Coherent(f) && f.cached == s.cached
      && (res.Some? && StatusIs(res.value, "Success") ==>
            Flag(f, CommitKey) == VStr("yes")
            && forall id :: id in s.orders && id != s.cached.value ==> id in f.orders && f.orders[id] == s.orders[id])
      && (res.None? ==> Flag(f, CommitKey) == VStr("no"))
  {
    var lines := RefundItems(orderId, -(RefundAmount(shop, refundId) as int));
    var (s2, res) := Exchange(s, env, CalculateCall(data, lines, [], env.config.today));
    if res.Some? && StatusIs(res.value, "Success") {
      CommittedFlags(s2, env, refundId, CommitKey);
    } else if res.None? {
      UncommittedFlags(s2, orderId, CommitKey);
    }
  }
}
