/**
  The background sweep over pending orders whose payment link ran out: page by
  page it asks the provider about each and settles what the provider has decided.
 */
module PendingSweep {
  import opened Options
  import opened Bindings
  import opened Orders
  import OrderRuns

  const LOOKBACK: Time := 30 * DAY
  const DEFAULT_PAGE: nat := 50

  /** What the provider says of a transaction; `Failure` is no answer at all. */
  datatype Answer = Confirmed(charged: int, now: Time, broken: set<NodeId>) | Refused | NotFound | Open | Failure

  type Provider = OrderId -> Answer

  // ----------------------------------------------------------- specification

  /** What GetStalePendingOrdersAfterID selects. */
  predicate Stale(o: Order, before: Time) {
    o.status.Pending? && !o.uncertain && o.linkDeadline.Some? && before - LOOKBACK <= o.linkDeadline.value < before
  }

  /** The stale orders from the given id on, in the order of their ids. */
  function StaleFrom(orders: seq<Order>, before: Time, from: nat): seq<OrderId>
    decreases |orders| - from
  {
    if from >= |orders| then []
    else (if Stale(orders[from], before) then [from] else []) + StaleFrom(orders, before, from + 1)
  }

  /** reconcilePendingOrder: one order without a provider id is left alone. */
  function Settled(db: Db, c: Catalog, id: OrderId, answer: Answer): Db {
    if id >= |db.orders| || db.orders[id].providerId.None? then db
    else match answer
      case Confirmed(charged, now, broken) => OrderRuns.ConfirmPayment(db, c, id, db.orders[id], charged, now, broken).0
      case Refused => db.(orders := ExpireOrder(db.orders, id).0)
      case NotFound => db.(orders := ExpireOrder(db.orders, id).0)
      case Open => db
      case Failure => db
  }

  function SettledAll(db: Db, c: Catalog, provider: Provider, ids: seq<OrderId>): Db {
    if ids == [] then db
    else
      var last := |ids| - 1;
      Settled(SettledAll(db, c, provider, ids[..last]), c, ids[last], provider(ids[last]))
  }

  /** Settling one order leaves every other order and the set of subscriptions as they were. */
  lemma OnlyOneOrderMoves(db: Db, c: Catalog, id: OrderId, answer: Answer)
    ensures var db' := Settled(db, c, id, answer);
            && |db'.orders| == |db.orders| && db'.subs.Keys == db.subs.Keys
            && forall i :: 0 <= i < |db.orders| && i != id ==> db'.orders[i] == db.orders[i]
  {
  }

  lemma {:induction false} OnlyTheseOrdersMove(db: Db, c: Catalog, provider: Provider, ids: seq<OrderId>)
    ensures var db' := SettledAll(db, c, provider, ids);
            && |db'.orders| == |db.orders| && db'.subs.Keys == db.subs.Keys
            && forall i :: 0 <= i < |db.orders| && i !in ids ==> db'.orders[i] == db.orders[i]
  {
    if ids != [] {
      var (front, id) := (ids[..|ids| - 1], ids[|ids| - 1]);
      OnlyTheseOrdersMove(db, c, provider, front);
      OnlyOneOrderMoves(SettledAll(db, c, provider, front), c, id, provider(id));
      assert forall i :: i in front ==> i in ids;
    }
  }

  // ------------------------------------------------------------------- paging

  lemma {:induction false} StaleOnes(orders: seq<Order>, before: Time, from: nat)
    ensures forall i :: i in StaleFrom(orders, before, from) <==> from <= i < |orders| && Stale(orders[i], before)
    decreases |orders| - from
  {
    if from < |orders| {
      StaleOnes(orders, before, from + 1);
    }
  }

  predicate Ascends(ids: seq<OrderId>) {
    forall i, j :: 0 <= i < j < |ids| ==> ids[i] < ids[j]
  }

  lemma {:induction false} StaleAscend(orders: seq<Order>, before: Time, from: nat)
    ensures Ascends(StaleFrom(orders, before, from))
    decreases |orders| - from
  {
    if from < |orders| {
      var ids, rest := StaleFrom(orders, before, from), StaleFrom(orders, before, from + 1);
      StaleAscend(orders, before, from + 1);
      StaleOnes(orders, before, from + 1);
      assert forall i :: 0 <= i < |rest| ==> rest[i] in rest;
      if Stale(orders[from], before) {
        assert ids == [from] + rest;
      } else {
        assert ids == rest;
      }
    }
  }

  /** Selection looks at nothing before `from`. */
  lemma {:induction false} SameTailSameStale(a: seq<Order>, b: seq<Order>, before: Time, from: nat)
    requires |a| == |b| && forall i :: from <= i < |a| ==> a[i] == b[i]
    ensures StaleFrom(a, before, from) == StaleFrom(b, before, from)
    decreases |a| - from
  {
    if from < |a| {
      SameTailSameStale(a, b, before, from + 1);
    }
  }

  /** After the k-th stale order the selection goes on with the others. */
  lemma {:induction false} AfterPage(orders: seq<Order>, before: Time, from: nat, k: nat)
    requires k < |StaleFrom(orders, before, from)|
    ensures var ids := StaleFrom(orders, before, from);
            ids[k + 1..] == StaleFrom(orders, before, ids[k] + 1)
    decreases |orders| - from
  {
    var ids, rest := StaleFrom(orders, before, from), StaleFrom(orders, before, from + 1);
    if !Stale(orders[from], before) {
      assert ids == rest;
      AfterPage(orders, before, from + 1, k);
    } else {
      assert ids == [from] + rest;
      if k > 0 {
        AfterPage(orders, before, from + 1, k - 1);
        assert ids[k] == rest[k - 1];
        assert ids[k + 1..] == rest[k..];
      } else {
        assert ids[1..] == rest;
      }
    }
  }

  // ---------------------------------------------------------------- the code

  /** GetStalePendingOrdersAfterID: the ids of one page. */
  function Page(orders: seq<Order>, before: Time, from: nat, limit: nat): (page: seq<OrderId>)
    ensures page <= StaleFrom(orders, before, from) && |page| <= limit
    ensures |page| < limit ==> page == StaleFrom(orders, before, from)
  {
    var ids := StaleFrom(orders, before, from);
    if |ids| <= limit then ids else ids[..limit]
  }

  method ReconcileOrder(store: OrderStore, id: OrderId, answer: Answer)
    requires id < |store.orders|
    modifies store
    ensures store.Snapshot() == Settled(old(store.Snapshot()), store.catalog, id, answer)
  {
    var o := store.orders[id];
    if o.providerId.None? {
      return;
    }
    match answer {
      case Confirmed(charged, now, broken) =>
        if OrderRuns.Accepts(o, charged, now) && o.product in store.catalog.products {
          var _ := store.ConfirmOrderPaidCAS(id, o.sub, o.product, store.catalog.products[o.product], now, broken);
        }
      case Refused => var _ := store.ExpirePendingOrder(id);
      case NotFound => var _ := store.ExpirePendingOrder(id);
      case Open =>
      case Failure =>
    }
  }

  lemma {:induction false} SettledInTwo(db: Db, c: Catalog, provider: Provider, a: seq<OrderId>, b: seq<OrderId>)
    ensures SettledAll(db, c, provider, a + b) == SettledAll(SettledAll(db, c, provider, a), c, provider, b)
  {
    if b == [] {
      assert a + b == a;
    } else {
      assert (a + b)[..|a + b| - 1] == a + b[..|b| - 1];
      SettledInTwo(db, c, provider, a, b[..|b| - 1]);
    }
  }

  /** The orders of one page, until the deadline. */
  method ReconcilePage(store: OrderStore, provider: Provider, page: seq<OrderId>, budget: nat) returns (n: nat)
    requires forall i :: 0 <= i < |page| ==> page[i] < |store.orders|
    modifies store
    ensures n == if |page| < budget then |page| else budget
    ensures store.Snapshot() == SettledAll(old(store.Snapshot()), store.catalog, provider, page[..n])
  {
    ghost var start := store.Snapshot();
    n := 0;
    while n < |page| && n < budget
      invariant n <= |page| && n <= budget && |store.orders| == |start.orders|
      invariant store.Snapshot() == SettledAll(start, store.catalog, provider, page[..n])
    {
      ghost var was := store.Snapshot();
      assert page[..n + 1][..n] == page[..n];
      ReconcileOrder(store, page[n], provider(page[n]));
      OnlyOneOrderMoves(was, store.catalog, page[n], provider(page[n]));
      n := n + 1;
    }
  }

  lemma LastOfPage(orders: seq<Order>, before: Time, from: nat, page: seq<OrderId>)
    requires page != [] && page <= StaleFrom(orders, before, from)
    ensures var last := page[|page| - 1];
            from <= last < |orders| && forall i :: last < i ==> i !in page
  {
    var ids := StaleFrom(orders, before, from);
    StaleOnes(orders, before, from);
    StaleAscend(orders, before, from);
    assert forall k :: 0 <= k < |page| ==> page[k] == ids[k] && ids[k] in ids;
  }

  lemma PageThenRest(orders: seq<Order>, before: Time, from: nat, page: seq<OrderId>)
    requires page != [] && page <= StaleFrom(orders, before, from)
    ensures StaleFrom(orders, before, from) == page + StaleFrom(orders, before, page[|page| - 1] + 1)
  {
    var ids := StaleFrom(orders, before, from);
    AfterPage(orders, before, from, |page| - 1);
    assert ids == page + ids[|page|..];
  }

  /** Orders of a page may change: what is selected behind it stays. */
  lemma RestUnchanged(orders: seq<Order>, orders': seq<Order>, before: Time, from: nat, page: seq<OrderId>)
    requires page != [] && page <= StaleFrom(orders, before, from)
    requires |orders'| == |orders| && forall i :: 0 <= i < |orders| && i !in page ==> orders'[i] == orders[i]
    ensures from < page[|page| - 1] + 1 <= |orders|
    ensures StaleFrom(orders, before, from) == page + StaleFrom(orders', before, page[|page| - 1] + 1)
  {
    LastOfPage(orders, before, from, page);
    PageThenRest(orders, before, from, page);
    SameTailSameStale(orders, orders', before, page[|page| - 1] + 1);
  }

  /** `visited` is settled, and the others that were stale at the start are the ones selected from `from` on. */
  ghost predicate Swept(start: Db, c: Catalog, provider: Provider, before: Time, visited: seq<OrderId>, db: Db, from: nat) {
    && StaleFrom(start.orders, before, 0) == visited + StaleFrom(db.orders, before, from)
    && db == SettledAll(start, c, provider, visited)
    && |db.orders| == |start.orders|
  }

  lemma PageSwept(start: Db, c: Catalog, provider: Provider, before: Time, visited: seq<OrderId>, db: Db, from: nat,
                  page: seq<OrderId>)
    requires Swept(start, c, provider, before, visited, db, from)
    requires page != [] && page <= StaleFrom(db.orders, before, from)
    ensures var next := page[|page| - 1] + 1;
            && from < next <= |db.orders|
            && Swept(start, c, provider, before, visited + page, SettledAll(db, c, provider, page), next)
  {
    var db' := SettledAll(db, c, provider, page);
    OnlyTheseOrdersMove(db, c, provider, page);
    RestUnchanged(db.orders, db'.orders, before, from, page);
    SettledInTwo(start, c, provider, visited, page);
    Regrouped(visited, page, StaleFrom(db'.orders, before, page[|page| - 1] + 1));
  }

  lemma Regrouped(a: seq<OrderId>, b: seq<OrderId>, rest: seq<OrderId>)
    ensures a + (b + rest) == (a + b) + rest
  {
  }

  /** The deadline falls inside a page. */
  lemma CutShort(start: Db, c: Catalog, provider: Provider, before: Time, visited: seq<OrderId>, db: Db, from: nat,
                 page: seq<OrderId>, n: nat)
    requires Swept(start, c, provider, before, visited, db, from) && page <= StaleFrom(db.orders, before, from)
    requires n <= |page|
    ensures visited + page[..n] <= StaleFrom(start.orders, before, 0)
    ensures SettledAll(db, c, provider, page[..n]) == SettledAll(start, c, provider, visited + page[..n])
  {
    SettledInTwo(start, c, provider, visited, page[..n]);
  }

  /** A page that is empty was the last. */
  lemma NothingLeft(start: Db, c: Catalog, provider: Provider, before: Time, visited: seq<OrderId>, db: Db, from: nat)
    requires Swept(start, c, provider, before, visited, db, from) && StaleFrom(db.orders, before, from) == []
    ensures visited == StaleFrom(start.orders, before, 0)
  {
  }

  lemma PageIsKnown(orders: seq<Order>, before: Time, from: nat, page: seq<OrderId>)
    requires page <= StaleFrom(orders, before, from)
    ensures forall i :: 0 <= i < |page| ==> from <= page[i] < |orders|
  {
    StaleOnes(orders, before, from);
    assert forall i :: 0 <= i < |page| ==> page[i] in StaleFrom(orders, before, from);
  }

  /** One round: load a page and settle it, or find that nothing is left. */
  method SweepPage(store: OrderStore, provider: Provider, before: Time, from: nat, pageSize: nat, budget: nat,
                   ghost start: Db, visited: seq<OrderId>)
    returns (visited': seq<OrderId>, next: nat, more: bool)
    requires pageSize > 0 && Swept(start, store.catalog, provider, before, visited, store.Snapshot(), from)
    requires |visited| <= budget
    modifies store
    ensures |visited'| <= budget
    ensures more ==> from < next <= |store.orders| && Swept(start, store.catalog, provider, before, visited', store.Snapshot(), next)
    ensures !more ==>
              && visited' <= StaleFrom(start.orders, before, 0)
              && (|visited'| < budget ==> visited' == StaleFrom(start.orders, before, 0))
              && store.Snapshot() == SettledAll(start, store.catalog, provider, visited')
  {
    ghost var db := store.Snapshot();
    var page := Page(store.orders, before, from, pageSize);
    if page == [] {
      NothingLeft(start, store.catalog, provider, before, visited, db, from);
      return visited, from, false;
    }
    PageSwept(start, store.catalog, provider, before, visited, db, from, page);
    PageIsKnown(store.orders, before, from, page);
    var n := ReconcilePage(store, provider, page, budget - |visited|);
    if n < |page| {
      CutShort(start, store.catalog, provider, before, visited, db, from, page, n);
      return visited + page[..n], from, false;
    }
    assert page[..n] == page;
    return visited + page, page[|page| - 1] + 1, true;
  }

  /**
    ReconcilePendingOrders run without interference; `budget` is the number of
    orders it gets to before its deadline.  However the selection is cut into pages
    and however much each settled order changes, it visits the orders that were
    stale at the start, each once, in ascending order.
   */
  method ReconcilePendingOrders(store: OrderStore, provider: Provider, before: Time, limit: int, budget: nat)
    returns (visited: seq<OrderId>)
    modifies store
    ensures var all := StaleFrom(old(store.orders), before, 0);
            && visited <= all && |visited| <= budget
            && (|visited| < budget ==> visited == all)
    ensures store.Snapshot() == SettledAll(old(store.Snapshot()), store.catalog, provider, visited)
  {
    var pageSize: nat := if limit <= 0 then DEFAULT_PAGE else limit;
    ghost var start := store.Snapshot();
    visited := [];
    var from, more := 0, true;
    assert [] + StaleFrom(store.orders, before, 0) == StaleFrom(store.orders, before, 0);
    while more
      invariant |visited| <= budget
      invariant more ==> Swept(start, store.catalog, provider, before, visited, store.Snapshot(), from)
      invariant !more ==>
                  && visited <= StaleFrom(start.orders, before, 0)
                  && (|visited| < budget ==> visited == StaleFrom(start.orders, before, 0))
                  && store.Snapshot() == SettledAll(start, store.catalog, provider, visited)
      decreases more, |start.orders| - from
    {
      visited, from, more := SweepPage(store, provider, before, from, pageSize, budget, start, visited);
    }
  }

  // -------------------------------------------------------------- properties

  /** What the visit at `at` makes of a stale order with a provider id. */
  predicate Decided(o: Order, o': Order, c: Catalog, at: Db, answer: Answer) {
    match answer
    case Refused => o' == o.(status := Expired)
    case NotFound => o' == o.(status := Expired)
    case Open => o' == o
    case Failure => o' == o
    case Confirmed(charged, now, broken) =>
      && (o'.status.Paid? <==> charged >= o.amount && OrderRuns.Activatable(at, c, o, broken))
      && (!o'.status.Paid? ==> o' == o)
  }

  lemma VisitDecides(db: Db, c: Catalog, id: OrderId, answer: Answer)
    requires id < |db.orders| && db.orders[id].status.Pending? && db.orders[id].providerId.Some?
    ensures Decided(db.orders[id], Settled(db, c, id, answer).orders[id], c, db, answer)
  {
    if answer.Confirmed? {
      OrderRuns.ConfirmIsAtomic(db, c, id, db.orders[id], answer.charged, answer.now, answer.broken);
    }
  }

  lemma NotBesideItself(ids: seq<OrderId>, k: nat)
    requires Ascends(ids) && k < |ids|
    ensures ids[k] !in ids[..k] && ids[k] !in ids[k + 1..]
    ensures ids[..k + 1][..k] == ids[..k] && ids[..k + 1] + ids[k + 1..] == ids
  {
  }

  /** Only its own visit moves an order. */
  lemma OnlyOneVisitMatters(db: Db, c: Catalog, provider: Provider, ids: seq<OrderId>, k: nat)
    requires Ascends(ids) && k < |ids| && ids[k] < |db.orders|
    ensures var (i, at) := (ids[k], SettledAll(db, c, provider, ids[..k]));
            && |at.orders| == |db.orders| && at.orders[i] == db.orders[i]
            && var (one, all) := (Settled(at, c, i, provider(i)), SettledAll(db, c, provider, ids));
            && |one.orders| == |all.orders| == |db.orders| && all.orders[i] == one.orders[i]
  {
    var (i, front) := (ids[k], ids[..k + 1]);
    NotBesideItself(ids, k);
    OnlyTheseOrdersMove(db, c, provider, ids[..k]);
    SettledInTwo(db, c, provider, front, ids[k + 1..]);
    OnlyTheseOrdersMove(db, c, provider, front);
    OnlyTheseOrdersMove(SettledAll(db, c, provider, front), c, provider, ids[k + 1..]);
  }

  /** The k-th visit decides its order, in the state the visits before it left. */
  lemma KthVisitDecides(db: Db, c: Catalog, provider: Provider, ids: seq<OrderId>, k: nat)
    requires Ascends(ids) && k < |ids| && ids[k] < |db.orders|
    requires db.orders[ids[k]].status.Pending? && db.orders[ids[k]].providerId.Some?
    ensures var (i, at) := (ids[k], SettledAll(db, c, provider, ids[..k]));
            && i < |SettledAll(db, c, provider, ids).orders|
            && Decided(db.orders[i], SettledAll(db, c, provider, ids).orders[i], c, at, provider(i))
  {
    OnlyOneVisitMatters(db, c, provider, ids, k);
    VisitDecides(SettledAll(db, c, provider, ids[..k]), c, ids[k], provider(ids[k]));
  }

  /**
    A sweep with enough time: every stale order with a provider id is decided as
    the provider says, a confirmed payment being taken exactly when it is in full
    and the transaction is possible in the state of its visit; every other order is
    left exactly as it was, the ones whose creation is uncertain among them.
   */
  lemma SweepDecides(db: Db, c: Catalog, provider: Provider, before: Time, i: nat)
    requires i < |db.orders|
    ensures var (o, ids) := (db.orders[i], StaleFrom(db.orders, before, 0));
            var db' := SettledAll(db, c, provider, ids);
            && |db'.orders| == |db.orders|
            && (if o.status.Pending? && !o.uncertain && o.providerId.Some?
                   && o.linkDeadline.Some? && before - 30 * 86400 <= o.linkDeadline.value < before
                then (exists k :: 0 <= k < |ids| && ids[k] == i
                                  && Decided(o, db'.orders[i], c, SettledAll(db, c, provider, ids[..k]), provider(i)))
                else db'.orders[i] == o)
  {
    var ids := StaleFrom(db.orders, before, 0);
    StaleOnes(db.orders, before, 0);
    StaleAscend(db.orders, before, 0);
    OnlyTheseOrdersMove(db, c, provider, ids);
    if i in ids && db.orders[i].providerId.Some? {
      var k :| 0 <= k < |ids| && ids[k] == i;
      KthVisitDecides(db, c, provider, ids, k);
    } else if i in ids {
      NoIdNoChange(db, c, provider, ids, i);
    }
  }

  lemma {:induction false} NoIdNoChange(db: Db, c: Catalog, provider: Provider, ids: seq<OrderId>, i: nat)
    requires i < |db.orders| && db.orders[i].providerId.None?
    ensures i < |SettledAll(db, c, provider, ids).orders| && SettledAll(db, c, provider, ids).orders[i] == db.orders[i]
  {
    if ids != [] {
      var (front, id) := (ids[..|ids| - 1], ids[|ids| - 1]);
      NoIdNoChange(db, c, provider, front, i);
      OnlyOneOrderMoves(SettledAll(db, c, provider, front), c, id, provider(id));
    }
  }
}
