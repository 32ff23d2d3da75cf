/**
 * The retry scheduler (includes/wc-taxify-scheduler.php) over the Action
 * Scheduler queue. The queue is the list of pending actions in the order
 * they were added; whether the queue hands back an action id for an insert
 * is an input (`accepts`, indexed by the number of inserts asked for).
 */
module Scheduler {
  import opened Php
  import opened Host
  import opened Tax
  import opened OrderDataStore

  const BulkHook := "wc_taxify_scheduled_bulk_orders"
  const MissedHook := "wc_taxify_scheduled_missed_order"
  /** The keys of `$scheduler_hooks`, in order. */
  const SchedulerHooks := [BulkHook, MissedHook]
  const HourInSeconds := 3600

  /** One pending action: its hook, arguments, group and due time. */
  datatype Action = Action(hook: string, args: Value, group: string, timestamp: int)

  /** `array( 'id' => $n )`. */
  function IdArgs(n: int): Value
  {
    VArr([Entry(SK("id"), VInt(n))])
  }

  /** An action the queue finds for a hook, arguments and group ('' matches any group). */
  predicate Matches(a: Action, hook: string, args: Value, group: string)
  {
    a.hook == hook && a.args == args && (group == "" || a.group == group)
  }

  /** Position of the first matching action, `|pending|` when there is none. */
  function FirstMatch(pending: seq<Action>, hook: string, args: Value, group: string): (i: nat)
    ensures i <= |pending|
    ensures forall j :: 0 <= j < i ==> !Matches(pending[j], hook, args, group)
    ensures i < |pending| ==> Matches(pending[i], hook, args, group)
  {
    if |pending| == 0 then 0
    else if Matches(pending[0], hook, args, group) then 0
    else 1 + FirstMatch(pending[1..], hook, args, group)
  }

  /** `wc_next_scheduled_action`: the due time of the first matching action, `false` when none. */
  function NextScheduled(pending: seq<Action>, hook: string, args: Value, group: string): (r: Value)
  {
    var i := FirstMatch(pending, hook, args, group);
    if i < |pending| then VInt(pending[i].timestamp) else VBool(false)
  }

  /** `false` exactly when nothing matches; otherwise the due time of the first match. */
  lemma NextScheduledFinds(pending: seq<Action>, hook: string, args: Value, group: string)
    ensures var r := NextScheduled(pending, hook, args, group);
      (r == VBool(false) <==> forall i :: 0 <= i < |pending| ==> !Matches(pending[i], hook, args, group))
      && (r != VBool(false) ==> exists i :: (0 <= i < |pending| && Matches(pending[i], hook, args, group)
          && r == VInt(pending[i].timestamp) && forall j :: 0 <= j < i ==> !Matches(pending[j], hook, args, group)))
  {
  }

  /**
   * get_scheduled_event_timestamp: `false` for an empty hook or arguments;
   * otherwise the lookup is for `array( 'id' => (int) $args )`.
   */
  function EventTimestamp(pending: seq<Action>, hook: string, args: Value, group: string): (r: Value)
    ensures EmptyStr(hook) || Empty(args) ==> r == VBool(false)
    ensures !EmptyStr(hook) && !Empty(args) ==> r == NextScheduled(pending, hook, IdArgs(CastInt(args)), group)
  {
    if !EmptyStr(hook) && !Empty(args) then NextScheduled(pending, hook, IdArgs(CastInt(args)), group)
    else VBool(false)
  }

  /**
   * The duplicate lookup does not see the order id: for any order's
   * arguments `array( 'id' => $id )` it looks for `array( 'id' => 1 )`,
   * because PHP casts a non-empty array to 1.
   */
  lemma DuplicateLookupIgnoresOrder(pending: seq<Action>, hook: string, orderId: int, group: string)
    requires !EmptyStr(hook)
    ensures EventTimestamp(pending, hook, IdArgs(orderId), group) == NextScheduled(pending, hook, IdArgs(1), group)
  {
  }

  /** The queue after `schedule`, how many inserts were asked for, and the result. */
  datatype Scheduled = Scheduled(pending: seq<Action>, inserts: nat, ok: bool)

  /**
   * schedule: nothing when the duplicate lookup finds an action; otherwise
   * the insert is asked for, and succeeds when the queue hands back an id.
   */
  function ScheduleOn(pending: seq<Action>, inserts: nat, accepts: nat -> bool,
                      timestamp: int, hook: string, args: Value, group: string): Scheduled
  {
    if Empty(EventTimestamp(pending, hook, args, group)) then
      var ok := accepts(inserts);
      Scheduled(pending + (if ok then [Action(hook, args, group, timestamp)] else []), inserts + 1, ok)
    else Scheduled(pending, inserts, false)
  }

  /** `wc_unschedule_action`: the first matching action leaves the queue. */
  function Removed(pending: seq<Action>, hook: string, args: Value, group: string): seq<Action>
  {
    var i := FirstMatch(pending, hook, args, group);
    if i < |pending| then pending[..i] + pending[i + 1..] else pending
  }

  /** Without a match the queue is unchanged; otherwise exactly the first match is dropped. */
  lemma RemovedFinds(pending: seq<Action>, hook: string, args: Value, group: string)
    ensures (forall i :: 0 <= i < |pending| ==> !Matches(pending[i], hook, args, group)) ==>
      Removed(pending, hook, args, group) == pending
    ensures (exists i :: 0 <= i < |pending| && Matches(pending[i], hook, args, group)) ==>
      exists i :: 0 <= i < |pending| && Matches(pending[i], hook, args, group)
        && (forall j :: 0 <= j < i ==> !Matches(pending[j], hook, args, group))
        && Removed(pending, hook, args, group) == pending[..i] + pending[i + 1..]
  {
    var i := FirstMatch(pending, hook, args, group);
    if i < |pending| {
      assert 0 <= i < |pending| && Matches(pending[i], hook, args, group);
    }
  }

  /** Unscheduling never touches an action that does not match. */
  lemma RemovedKeepsOthers(pending: seq<Action>, hook: string, args: Value, group: string, a: Action)
    requires !Matches(a, hook, args, group)
    ensures a in Removed(pending, hook, args, group) <==> a in pending
  {
    var i := FirstMatch(pending, hook, args, group);
    if i < |pending| {
      assert pending == pending[..i] + [pending[i]] + pending[i + 1..];
    }
  }

  /** unschedule: a no-op for an empty hook or arguments. */
  function UnscheduleOn(pending: seq<Action>, hook: string, args: Value, group: string): seq<Action>
  {
    if !EmptyStr(hook) && !Empty(args) then Removed(pending, hook, args, group) else pending
  }

  /** unschedule for each hook in turn. */
  function UnscheduleEach(pending: seq<Action>, hooks: seq<string>, args: Value, group: string): seq<Action>
  {
    if |hooks| == 0 then pending
    else UnscheduleOn(UnscheduleEach(pending, hooks[..|hooks| - 1], args, group), hooks[|hooks| - 1], args, group)
  }

  /** Unscheduling several hooks never touches an action of another hook. */
  lemma {:induction false} UnscheduleEachKeepsOthers(pending: seq<Action>, hooks: seq<string>, args: Value,
                                                     group: string, a: Action)
    requires a.hook !in hooks
    ensures a in UnscheduleEach(pending, hooks, args, group) <==> a in pending
  {
    if |hooks| > 0 {
      var init := hooks[..|hooks| - 1];
      assert forall j :: 0 <= j < |init| ==> init[j] == hooks[j];
      UnscheduleEachKeepsOthers(pending, init, args, group, a);
      var mid := UnscheduleEach(pending, init, args, group);
      if !EmptyStr(hooks[|hooks| - 1]) && !Empty(args) {
        RemovedKeepsOthers(mid, hooks[|hooks| - 1], args, group, a);
      }
    }
  }

  /** `add_option`: the value is stored only when the option does not exist yet. */
  function AddedOption(values: map<string, Value>, name: string, v: Value): map<string, Value>
  {
    if name in values then values else values[name := v]
  }

  // ---------------------------------------------------------------------
  // schedule_bulk_orders: the plan
  // ---------------------------------------------------------------------

  /** A `wc-refunded` order whose refunded total reaches its total is not filed. */
  predicate FullyRefundedSkip(shop: Shop, orderId: int)
  {
    PostStatus(shop, orderId) == "wc-refunded" && orderId in shop.orders
    && shop.orders[orderId].refunded >= shop.orders[orderId].total
  }

  /** What is_commited_to_taxify reads once the store has resolved `cached`. */
  predicate CommittedIn(orders: map<int, OrderRecord>, cached: Option<int>)
  {
    cached.Some? && cached.value in orders && IsYes(MetaGet(orders[cached.value].meta, "_taxify_is_commited"))
  }

  /** The orders schedule_bulk_orders asks to schedule, and the store's cached order afterwards. */
  datatype Plan = Plan(ids: seq<int>, cached: Option<int>)

  function BulkPlan(shop: Shop, orders: map<int, OrderRecord>, cached: Option<int>, ids: seq<int>): (p: Plan)
  {
    if |ids| == 0 then Plan([], cached)
    else PlanStep(shop, orders, BulkPlan(shop, orders, cached, ids[..|ids| - 1]), ids[|ids| - 1])
  }

  /** One order of the loop: skipped, found committed, or planned. */
  function PlanStep(shop: Shop, orders: map<int, OrderRecord>, prev: Plan, id: int): Plan
  {
    if FullyRefundedSkip(shop, id) then prev
    else
      var c := Target(prev.cached, orders, id);
      if CommittedIn(orders, c) then Plan(prev.ids, c) else Plan(prev.ids + [id], c)
  }

  /** The orders that are not skipped as fully refunded, in order. */
  function NotRefunded(shop: Shop, ids: seq<int>): seq<int>
  {
    if |ids| == 0 then []
    else NotRefunded(shop, ids[..|ids| - 1]) + (if FullyRefundedSkip(shop, ids[|ids| - 1]) then [] else [ids[|ids| - 1]])
  }

  /** Every planned order was listed and is not a fully refunded one. */
  lemma {:induction false} BulkPlanSound(shop: Shop, orders: map<int, OrderRecord>, cached: Option<int>, ids: seq<int>)
    ensures forall id :: id in BulkPlan(shop, orders, cached, ids).ids ==> id in ids && !FullyRefundedSkip(shop, id)
  {
    if |ids| > 0 {
      BulkPlanSound(shop, orders, cached, ids[..|ids| - 1]);
      forall id | id in ids[..|ids| - 1] ensures id in ids {
        var j :| 0 <= j < |ids[..|ids| - 1]| && ids[..|ids| - 1][j] == id;
        assert ids[j] == id;
      }
    }
  }

  /**
   * Once the store holds an order object, every committed check reads that
   * order: either every order that is not fully refunded is planned, or none.
   */
  lemma {:induction false} BulkPlanSticky(shop: Shop, orders: map<int, OrderRecord>, c: int, ids: seq<int>)
    requires c in orders
    ensures BulkPlan(shop, orders, Some(c), ids) ==
      Plan(if CommittedIn(orders, Some(c)) then [] else NotRefunded(shop, ids), Some(c))
  {
    if |ids| > 0 {
      BulkPlanSticky(shop, orders, c, ids[..|ids| - 1]);
    }
  }

  /** The queue after scheduling each planned order; the k-th (from 1) is due at now + 5 + 5k. */
  /** One more bulk order: the action asked for at `timestamp`, whether or not the queue took it. */
  function QueueNext(prev: Scheduled, accepts: nat -> bool, timestamp: int, id: int): Scheduled
  {
    var s := ScheduleOn(prev.pending, prev.inserts, accepts, timestamp, BulkHook, IdArgs(id), "");
    Scheduled(s.pending, s.inserts, true)
  }

  function ScheduleEach(pending: seq<Action>, inserts: nat, accepts: nat -> bool, now: int, ids: seq<int>): (s: Scheduled)
  {
    if |ids| == 0 then Scheduled(pending, inserts, true)
    else QueueNext(ScheduleEach(pending, inserts, accepts, now, ids[..|ids| - 1]), accepts, now + 5 + 5 * |ids|, ids[|ids| - 1])
  }

  lemma ScheduleEachSnoc(pending: seq<Action>, inserts: nat, accepts: nat -> bool, now: int, ids: seq<int>, id: int)
    ensures ScheduleEach(pending, inserts, accepts, now, ids + [id])
      == QueueNext(ScheduleEach(pending, inserts, accepts, now, ids), accepts, now + 5 + 5 * (|ids| + 1), id)
  {
    var xs := ids + [id];
    assert xs[..|xs| - 1] == ids;
  }

  /** The bulk actions appended when no lookup finds a duplicate and the queue takes every insert. */
  function BulkActions(now: int, ids: seq<int>): (r: seq<Action>)
    ensures |r| == |ids|
  {
    if |ids| == 0 then []
    else BulkActions(now, ids[..|ids| - 1]) + [Action(BulkHook, IdArgs(ids[|ids| - 1]), "", now + 10 + 5 * (|ids| - 1))]
  }

  /** The k-th bulk action is order k's, due 10 + 5k seconds from now. */
  lemma {:induction false} BulkActionsAt(now: int, ids: seq<int>, k: nat)
    requires k < |ids|
    ensures BulkActions(now, ids)[k] == Action(BulkHook, IdArgs(ids[k]), "", now + 10 + 5 * k)
  {
    if k < |ids| - 1 {
      var init := ids[..|ids| - 1];
      BulkActionsAt(now, init, k);
      assert init[k] == ids[k];
    }
  }

  /**
   * With no pending bulk action for `array( 'id' => 1 )`, order 1 not
   * planned and every insert taken, the planned orders are queued 5 seconds
   * apart starting at now + 10.
   */
  lemma {:induction false} ScheduleEachStaggers(pending: seq<Action>, inserts: nat, accepts: nat -> bool, now: int,
                                                ids: seq<int>)
    requires forall i :: 0 <= i < |pending| ==> !Matches(pending[i], BulkHook, IdArgs(1), "")
    requires 1 !in ids
    requires forall n :: inserts <= n < inserts + |ids| ==> accepts(n)
    ensures ScheduleEach(pending, inserts, accepts, now, ids) ==
      Scheduled(pending + BulkActions(now, ids), inserts + |ids|, true)
  {
    if |ids| > 0 {
      var init := ids[..|ids| - 1];
      var id := ids[|ids| - 1];
      assert ids == init + [id];
      ScheduleEachStaggers(pending, inserts, accepts, now, init);
      BulkActionsNoOne(pending, now, init);
      StaggerStep(pending, inserts, accepts, now, init, id);
    }
  }

  /** One step of the induction above: the next order joins the queue 5 seconds after the last. */
  lemma StaggerStep(pending: seq<Action>, inserts: nat, accepts: nat -> bool, now: int, init: seq<int>, id: int)
    requires ScheduleEach(pending, inserts, accepts, now, init) ==
      Scheduled(pending + BulkActions(now, init), inserts + |init|, true)
    requires forall i :: 0 <= i < |pending + BulkActions(now, init)| ==>
      !Matches((pending + BulkActions(now, init))[i], BulkHook, IdArgs(1), "")
    requires accepts(inserts + |init|)
    ensures ScheduleEach(pending, inserts, accepts, now, init + [id]) ==
      Scheduled(pending + BulkActions(now, init + [id]), inserts + |init + [id]|, true)
  {
    var mid := pending + BulkActions(now, init);
    var t := now + 5 + 5 * (|init| + 1);
    QueueNextFresh(mid, inserts + |init|, accepts, t, id);
    ScheduleEachSnoc(pending, inserts, accepts, now, init, id);
    var xs := init + [id];
    assert xs[..|xs| - 1] == init;
    assert BulkActions(now, xs) == BulkActions(now, init) + [Action(BulkHook, IdArgs(id), "", t)];
    assert pending + BulkActions(now, xs) == mid + [Action(BulkHook, IdArgs(id), "", t)];
  }

  /** The bulk actions never carry the arguments of order 1 unless order 1 is listed. */
  lemma BulkActionsNoOne(pending: seq<Action>, now: int, ids: seq<int>)
    requires forall i :: 0 <= i < |pending| ==> !Matches(pending[i], BulkHook, IdArgs(1), "")
    requires 1 !in ids
    ensures var mid := pending + BulkActions(now, ids);
      forall i :: 0 <= i < |mid| ==> !Matches(mid[i], BulkHook, IdArgs(1), "")
  {
    var mid := pending + BulkActions(now, ids);
    forall i | 0 <= i < |mid| ensures !Matches(mid[i], BulkHook, IdArgs(1), "") {
      if i >= |pending| {
        BulkActionsAt(now, ids, i - |pending|);
        assert mid[i] == BulkActions(now, ids)[i - |pending|];
      }
    }
  }

  /** With no action for `array( 'id' => 1 )` queued, the next bulk order is asked for, and taken when the queue accepts it. */
  lemma QueueNextFresh(pending: seq<Action>, inserts: nat, accepts: nat -> bool, timestamp: int, id: int)
    requires forall i :: 0 <= i < |pending| ==> !Matches(pending[i], BulkHook, IdArgs(1), "")
    requires accepts(inserts)
    ensures QueueNext(Scheduled(pending, inserts, true), accepts, timestamp, id)
      == Scheduled(pending + [Action(BulkHook, IdArgs(id), "", timestamp)], inserts + 1, true)
  {
    NextScheduledFinds(pending, BulkHook, IdArgs(1), "");
  }

  /** The pending queue of the Action Scheduler, as the plugin drives it. */
  class Scheduler {
    var pending: seq<Action>
    var inserts: nat
    const accepts: nat -> bool

    constructor(pending: seq<Action>, accepts: nat -> bool)
      ensures this.pending == pending && inserts == 0 && this.accepts == accepts
    {
      this.pending := pending;
      inserts := 0;
      this.accepts := accepts;
    }

    /** get_scheduled_event_timestamp: the due time of the matching action, `false` when none. */
    function GetScheduledEventTimestamp(hook: string, args: Value, group: string): (r: Value)
      reads this
      ensures r == VBool(false) || r.VInt?
      ensures EmptyStr(hook) || Empty(args) ==> r == VBool(false)
      ensures r.VInt? ==> exists i :: (0 <= i < |pending| && pending[i].timestamp == r.n
        && Matches(pending[i], hook, IdArgs(CastInt(args)), group))
    {
      EventTimestamp(pending, hook, args, group)
    }

    /**
     * schedule: `false` and no insert when the duplicate lookup finds an
     * action; otherwise whether the queue took the insert.
     */
    method Schedule(timestamp: int, hook: string, args: Value, group: string) returns (ok: bool)
      modifies this
      ensures Scheduled(pending, inserts, ok) == ScheduleOn(old(pending), old(inserts), accepts, timestamp, hook, args, group)
    {
      if Empty(EventTimestamp(pending, hook, args, group)) {
        ok := accepts(inserts);
        if ok {
          pending := pending + [Action(hook, args, group, timestamp)];
        }
        inserts := inserts + 1;
      } else {
        ok := false;
      }
    }

    /** unschedule: the first matching action leaves the queue; nothing for an empty hook or arguments. */
    method Unschedule(hook: string, args: Value, group: string)
      modifies this
      ensures pending == UnscheduleOn(old(pending), hook, args, group) && inserts == old(inserts)
    {
      if !EmptyStr(hook) && !Empty(args) {
        pending := Removed(pending, hook, args, group);
      }
    }

    /** unschedule_multiple: each hook for `array( 'id' => (int) $args )`. */
    method UnscheduleMultiple(hooks: seq<string>, args: Value, group: string)
      modifies this
      ensures |hooks| > 0 && !Empty(args) ==> pending == UnscheduleEach(old(pending), hooks, IdArgs(CastInt(args)), group)
      ensures |hooks| == 0 || Empty(args) ==> pending == old(pending)
      ensures inserts == old(inserts)
    {
      if |hooks| > 0 && !Empty(args) {
        var i := 0;
        while i < |hooks|
          invariant 0 <= i <= |hooks|
          invariant pending == UnscheduleEach(old(pending), hooks[..i], IdArgs(CastInt(args)), group)
          invariant inserts == old(inserts)
        {
          Unschedule(hooks[i], IdArgs(CastInt(args)), group);
          assert hooks[..i + 1][..i] == hooks[..i];
          i := i + 1;
        }
        assert hooks[..|hooks|] == hooks;
      }
    }

    /** unschedule_all: both plugin hooks for `array( 'id' => (int) $args )`. */
    method UnscheduleAll(args: Value, group: string)
      modifies this
      ensures !Empty(args) ==> pending == UnscheduleEach(old(pending), SchedulerHooks, IdArgs(CastInt(args)), group)
      ensures Empty(args) ==> pending == old(pending)
      ensures inserts == old(inserts)
    {
      if !Empty(args) {
        var hooks := SchedulerHooks;
        var i := 0;
        while i < |hooks|
          invariant 0 <= i <= |hooks|
          invariant pending == UnscheduleEach(old(pending), hooks[..i], IdArgs(CastInt(args)), group)
          invariant inserts == old(inserts)
        {
          Unschedule(hooks[i], IdArgs(CastInt(args)), group);
          assert hooks[..i + 1][..i] == hooks[..i];
          i := i + 1;
        }
        assert hooks[..|hooks|] == hooks;
      }
    }

    /** schedule_missed_order: a retry an hour from now, only for an order that exists. */
    method ScheduleMissedOrder(shop: Shop, now: int, orderId: int)
      modifies this
      ensures OrderExists(shop, orderId) ==>
        var s := ScheduleOn(old(pending), old(inserts), accepts, now + HourInSeconds, MissedHook, IdArgs(orderId), "");
        pending == s.pending && inserts == s.inserts
      ensures !OrderExists(shop, orderId) ==> pending == old(pending) && inserts == old(inserts)
    {
      if OrderExists(shop, orderId) {
        var _ := Schedule(now + HourInSeconds, MissedHook, IdArgs(orderId), "");
      }
    }

    /** `$this->schedule( time() + $time += 5, ... )` for the next planned order. */
    method BulkSchedule(now: int, id: int, ghost pending0: seq<Action>, ghost inserts0: nat, ghost ids: seq<int>,
                        time: int) returns (time': int)
      requires time == 5 + 5 * |ids|
      requires Scheduled(pending, inserts, true) == ScheduleEach(pending0, inserts0, accepts, now, ids)
      modifies this
      ensures time' == 5 + 5 * |ids + [id]|
      ensures Scheduled(pending, inserts, true) == ScheduleEach(pending0, inserts0, accepts, now, ids + [id])
    {
      time' := time + 5;
      ScheduleEachSnoc(pending0, inserts0, accepts, now, ids, id);
      var _ := Schedule(now + time', BulkHook, IdArgs(id), "");
    }

    /** One pass of the schedule_bulk_orders loop: the plan grows by the order `ids[i]`. */
    method BulkStep(shop: Shop, store: Store, now: int, ids: seq<int>, i: nat, ghost pending0: seq<Action>,
                    ghost inserts0: nat, ghost cached0: Option<int>, time: int) returns (time': int)
      requires i < |ids|
      requires store.Valid()
      requires var prev := BulkPlan(shop, store.orders, cached0, ids[..i]);
        store.cached == prev.cached && time == 5 + 5 * |prev.ids|
        && Scheduled(pending, inserts, true) == ScheduleEach(pending0, inserts0, accepts, now, prev.ids)
      modifies this, store
      ensures store.orders == old(store.orders) && store.Valid()
      ensures var next := BulkPlan(shop, store.orders, cached0, ids[..i + 1]);
        store.cached == next.cached && time' == 5 + 5 * |next.ids|
        && Scheduled(pending, inserts, true) == ScheduleEach(pending0, inserts0, accepts, now, next.ids)
    {
      ghost var prev := BulkPlan(shop, store.orders, cached0, ids[..i]);
      assert ids[..i + 1][..i] == ids[..i];
      assert BulkPlan(shop, store.orders, cached0, ids[..i + 1]) == PlanStep(shop, store.orders, prev, ids[i]);
      var id := ids[i];
      time' := time;
      if !FullyRefundedSkip(shop, id) {
        var committed := IsCommittedToTaxify(store, id);
        assert committed == CommittedIn(store.orders, store.cached);
        if !committed {
          time' := BulkSchedule(now, id, pending0, inserts0, prev.ids, time);
        }
      }
    }

    /**
     * schedule_bulk_orders: every completed order that is neither fully
     * refunded nor committed is queued, 5 seconds apart; the two
     * did-schedule options are added when the list is non-empty. A
     * `wc-refunded` id must name an order: the source calls methods on what
     * `wc_get_order` returns for it.
     */
    method ScheduleBulkOrders(shop: Shop, store: Store, options: Options, now: int)
      requires store.Valid()
      requires forall id :: id in shop.completedIds && PostStatus(shop, id) == "wc-refunded" ==> id in shop.orders
      modifies this, store, options
      ensures store.orders == old(store.orders) && store.Valid()
      ensures var plan := BulkPlan(shop, store.orders, old(store.cached), shop.completedIds);
        store.cached == plan.cached
        && Scheduled(pending, inserts, true) == ScheduleEach(old(pending), old(inserts), accepts, now, plan.ids)
      ensures options.values == if |shop.completedIds| == 0 then old(options.values)
        else AddedOption(AddedOption(old(options.values), "wc_taxify_did_schedule_bulk_orders", VStr("yes")),
                         "wc_taxify_did_schedule_tax_exempt_bulk_orders", VStr("yes"))
    {
      if |shop.completedIds| > 0 {
        QueueBulk(shop, store, now);
        options.Add("wc_taxify_did_schedule_bulk_orders", VStr("yes"));
        options.Add("wc_taxify_did_schedule_tax_exempt_bulk_orders", VStr("yes"));
      }
    }

    /** The schedule_bulk_orders loop over the completed orders, 5 seconds apart. */
    method QueueBulk(shop: Shop, store: Store, now: int)
      requires store.Valid()
      modifies this, store
      ensures store.orders == old(store.orders) && store.Valid()
      ensures var plan := BulkPlan(shop, store.orders, old(store.cached), shop.completedIds);
        store.cached == plan.cached
        && Scheduled(pending, inserts, true) == ScheduleEach(old(pending), old(inserts), accepts, now, plan.ids)
    {
      var ids := shop.completedIds;
      var time := 5;
      var i := 0;
      while i < |ids|
        invariant 0 <= i <= |ids|
        invariant store.orders == old(store.orders) && store.Valid()
        invariant var plan := BulkPlan(shop, store.orders, old(store.cached), ids[..i]);
          store.cached == plan.cached && time == 5 + 5 * |plan.ids|
          && Scheduled(pending, inserts, true) == ScheduleEach(old(pending), old(inserts), accepts, now, plan.ids)
      {
        time := BulkStep(shop, store, now, ids, i, old(pending), old(inserts), old(store.cached), time);
        i := i + 1;
      }
      assert ids[..|ids|] == ids;
    }
  }
}
