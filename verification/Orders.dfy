/**
  Orders, subscriptions and the conditional updates between them.  Each function
  is one database transaction; orders are numbered by position, as their
  autoincremented ids are, and all belong to the one payment provider.
 */
module Orders {
  import opened Options
  import opened Bindings
  import opened PlanReconcile

  type OrderId = nat
  type SubId = nat
  type ProductId = nat
  type PlanId = nat

  const DAY: Time := 86400

  datatype OrderStatus = Pending | Paid | Expired | Canceled

  datatype SubStatus = SubActive | SubExpired | SubPaused | SubCanceled | SubRevoked

  datatype Product = Product(plan: PlanId, days: int, price: nat)

  datatype Order = Order(
    sub: SubId, product: ProductId, status: OrderStatus, amount: nat,
    providerId: Option<nat>, linkDeadline: Option<Time>, uncertain: bool,
    paidAt: Option<Time>, expiresAt: Option<Time>)

  datatype Subscription = Subscription(
    status: SubStatus, plan: PlanId, product: Option<ProductId>,
    expiresAt: Option<Time>, startedAt: Option<Time>, pricePaid: nat)

  datatype Event =
    | PaymentConfirmed(order: OrderId)
    | SubscriptionRenewed(sub: SubId)
    | OrderCanceled(order: OrderId)
    | ChargebackReceived(order: OrderId)

  /** Products and plans (plan to its nodes) are fixed; the rest changes. */
  datatype Catalog = Catalog(products: map<ProductId, Product>, plans: map<PlanId, seq<Node>>, freePlan: PlanId)

  datatype Db = Db(orders: seq<Order>, subs: map<SubId, Subscription>, bindings: map<SubId, Rows>, audit: seq<Event>)

  function NewOrder(sub: SubId, product: ProductId, amount: nat): Order {
    Order(sub, product, Pending, amount, None, None, false, None, None)
  }

  function PlanNodes(c: Catalog, plan: PlanId): set<NodeId> {
    if plan in c.plans then TargetSet(c.plans[plan]) else {}
  }

  /** The plan application for this subscription needs no write to a broken node. */
  predicate PlanFits(db: Db, c: Catalog, sub: SubId, plan: PlanId, broken: set<NodeId>) {
    PlanApplies(RowsOf(db, sub), PlanNodes(c, plan), broken)
  }

  function RowsOf(db: Db, sub: SubId): Rows {
    if sub in db.bindings then db.bindings[sub] else map[]
  }

  // ------------------------------------------------------------- confirmation

  /** CalculatePaymentExpiry for a known product. */
  function PaymentExpiry(now: Time, sub: Subscription, product: Product): Time {
    var base := if sub.plan == product.plan && sub.expiresAt.Some? && sub.expiresAt.value > now
                then sub.expiresAt.value else now;
    base + product.days * DAY
  }

  /** The subscription row after a confirmed payment. */
  function Renewed(now: Time, sub: Subscription, id: ProductId, product: Product): Subscription {
    Subscription(SubActive, product.plan, Some(id), Some(PaymentExpiry(now, sub, product)), Some(now), product.price)
  }

  /** The bindings after ApplyPlanToSubscriptionInTx for the given plan. */
  function WithPlan(db: Db, c: Catalog, sub: SubId, plan: PlanId): Db {
    db.(bindings := db.bindings[sub := Applied(RowsOf(db, sub), PlanNodes(c, plan))])
  }

  datatype Confirmation = Activated | AlreadySettled | SubMissing | OrderMissing | PlanFailed

  /** ConfirmOrderPaidCAS; writes to the rows of `broken` nodes fail. */
  function Confirm(db: Db, c: Catalog, id: OrderId, sub: SubId, productId: ProductId, product: Product,
                   now: Time, broken: set<NodeId>): (Db, Confirmation)
  {
    if sub !in db.subs then (db, SubMissing)
    else if id >= |db.orders| then (db, OrderMissing)
    else if db.orders[id].status !in {Pending, Expired} then (db, AlreadySettled)
    else
      var renewed := Renewed(now, db.subs[sub], productId, product);
      var order := db.orders[id].(status := Paid, paidAt := Some(now), expiresAt := renewed.expiresAt);
      var db' := Db(db.orders[id := order], db.subs[sub := renewed], db.bindings,
                    db.audit + [PaymentConfirmed(id), SubscriptionRenewed(sub)]);
      if db.subs[sub].plan == product.plan then (db', Activated)
      else if PlanFits(db, c, sub, product.plan, broken) then (WithPlan(db', c, sub, product.plan), Activated)
      else (db, PlanFailed)
  }

  // --------------------------------------------------- chargeback and expiry

  /** The row of a subscription put back on the free plan. */
  function OnFreePlan(c: Catalog): Subscription {
    Subscription(SubActive, c.freePlan, None, None, None, 0)
  }

  /** A paid order that still entitles its subscription at `now`. */
  predicate Covers(o: Order, sub: SubId, now: Time) {
    o.sub == sub && o.status.Paid? && (o.expiresAt.None? || o.expiresAt.value > now)
  }

  datatype ChargebackResult = Done(transitioned: bool, wasPaid: bool, downgraded: bool) | Error

  /**
    CancelPaidOrderAndDowngradeCAS.  The coverage count runs after the order was
    set to canceled, so the order itself no longer counts.
   */
  function Chargeback(db: Db, c: Catalog, id: OrderId, now: Time, broken: set<NodeId>): (Db, ChargebackResult) {
    if id >= |db.orders| then (db, Done(false, false, false))
    else
      var order := db.orders[id];
      var wasPaid := order.status.Paid?;
      if order.sub !in db.subs then (db, Error)
      else if order.status !in {Pending, Paid} then (db, Done(false, false, false))
      else
        var db' := db.(orders := db.orders[id := order.(status := Canceled)], audit := db.audit + [OrderCanceled(id)]);
        if !wasPaid || !db.subs[order.sub].status.SubActive? then (db', Done(true, wasPaid, false))
        else if exists i :: 0 <= i < |db'.orders| && Covers(db'.orders[i], order.sub, now) then (db', Done(true, true, false))
        else if !PlanFits(db, c, order.sub, c.freePlan, broken) then (db, Error)
        else
          var free := WithPlan(db'.(subs := db'.subs[order.sub := OnFreePlan(c)]), c, order.sub, c.freePlan);
          (free.(audit := free.audit + [ChargebackReceived(id)]), Done(true, true, true))
  }

  datatype ExpiryResult = Downgraded | AlreadyFree | Changed | Missing | ExpiryPlanFailed

  /** ExpireSubscriptionWithPlanCAS. */
  function ExpireSub(db: Db, c: Catalog, sub: SubId, now: Time, broken: set<NodeId>): (Db, ExpiryResult) {
    if sub !in db.subs then (db, Missing)
    else
      var row := db.subs[sub];
      if row.status.SubActive? && row.expiresAt.Some? && row.expiresAt.value <= now then
        if PlanFits(db, c, sub, c.freePlan, broken) then (WithPlan(db.(subs := db.subs[sub := OnFreePlan(c)]), c, sub, c.freePlan), Downgraded)
        else (db, ExpiryPlanFailed)
      else (db, if row == OnFreePlan(c) then AlreadyFree else Changed)
  }

  // ------------------------------------------------- single-statement updates

  /** No other order has changed. */
  predicate OnlyOrder(id: OrderId, orders: seq<Order>, orders': seq<Order>) {
    |orders'| == |orders| && forall i :: 0 <= i < |orders| && i != id ==> orders'[i] == orders[i]
  }

  /** ExpirePendingOrder. */
  function ExpireOrder(orders: seq<Order>, id: OrderId): (seq<Order>, bool) {
    if id < |orders| && orders[id].status.Pending? then (orders[id := orders[id].(status := Expired)], true)
    else (orders, false)
  }

  /** CancelOrderCAS from the given states. */
  function CancelOrder(orders: seq<Order>, id: OrderId, from: set<OrderStatus>): (seq<Order>, bool) {
    if id < |orders| && orders[id].status in from then (orders[id := orders[id].(status := Canceled)], true)
    else (orders, false)
  }

  /** MarkPaymentCreationUncertain. */
  function MarkUncertain(orders: seq<Order>, id: OrderId, uncertain: bool): (seq<Order>, bool) {
    if id < |orders| && orders[id].status.Pending? && orders[id].uncertain != uncertain
       && (uncertain ==> orders[id].providerId.None?)
    then (orders[id := orders[id].(uncertain := uncertain)], true)
    else (orders, false)
  }

  /** SavePaymentDetails: id, link deadline and the cleared flag in one update. */
  function SaveDetails(orders: seq<Order>, id: OrderId, providerId: nat, deadline: Time): (seq<Order>, bool) {
    if id < |orders| && orders[id].status.Pending?
    then (orders[id := orders[id].(providerId := Some(providerId), linkDeadline := Some(deadline), uncertain := false)], true)
    else (orders, false)
  }

  /** AttachProviderPaymentID. */
  function Attach(orders: seq<Order>, id: OrderId, providerId: nat): (seq<Order>, bool) {
    if id < |orders| && orders[id].providerId.None?
    then (orders[id := orders[id].(providerId := Some(providerId))], true)
    else (orders, false)
  }

  // ---------------------------------------------------------- payment intents

  predicate IsIntent(o: Order, sub: SubId, product: ProductId) {
    o.sub == sub && o.product == product && o.status.Pending?
  }

  /** The pending intent with the lowest id, if any. */
  function FirstIntent(orders: seq<Order>, sub: SubId, product: ProductId): (r: Option<OrderId>)
    ensures r.Some? ==> r.value < |orders| && IsIntent(orders[r.value], sub, product)
    ensures r.Some? ==> forall i :: 0 <= i < r.value ==> !IsIntent(orders[i], sub, product)
    ensures r.None? ==> forall i :: 0 <= i < |orders| ==> !IsIntent(orders[i], sub, product)
  {
    if orders == [] then None
    else
      var last := |orders| - 1;
      var earlier := FirstIntent(orders[..last], sub, product);
      if earlier.Some? then earlier
      else if IsIntent(orders[last], sub, product) then Some(last) else None
  }

  predicate LinkExpired(o: Order, now: Time) {
    o.linkDeadline.Some? && o.linkDeadline.value <= now
  }

  /** FindPendingPaymentOrder: an overdue intent is expired, none is created. */
  function FindIntent(orders: seq<Order>, sub: SubId, product: ProductId, now: Time): (seq<Order>, Option<OrderId>) {
    var found := FirstIntent(orders, sub, product);
    if found.Some? && LinkExpired(orders[found.value], now) then (ExpireOrder(orders, found.value).0, found)
    else (orders, found)
  }

  /** FindOrCreatePendingPaymentOrder: an intent with an uncertain creation is always reused. */
  function FindOrCreateIntent(orders: seq<Order>, sub: SubId, product: ProductId, amount: nat, now: Time): (seq<Order>, OrderId) {
    var found := FirstIntent(orders, sub, product);
    if found.None? then (orders + [NewOrder(sub, product, amount)], |orders|)
    else if orders[found.value].uncertain || !LinkExpired(orders[found.value], now) then (orders, found.value)
    else (ExpireOrder(orders, found.value).0 + [NewOrder(sub, product, amount)], |orders|)
  }

  // ---------------------------------------------------------------- the code

  class OrderStore {
    var orders: seq<Order>
    var subs: map<SubId, Subscription>
    var bindings: map<SubId, Rows>
    var audit: seq<Event>
    const catalog: Catalog

    constructor (db: Db, catalog: Catalog)
      ensures Snapshot() == db && this.catalog == catalog
    {
      orders, subs, bindings, audit := db.orders, db.subs, db.bindings, db.audit;
      this.catalog := catalog;
    }

    ghost function Snapshot(): Db
      reads this
    {
      Db(orders, subs, bindings, audit)
    }

    /** The registered plan callback, on this transaction's handle: its writes are undone by nobody but the caller. */
    method ApplyPlan(sub: SubId, plan: PlanId, broken: set<NodeId>) returns (ok: bool)
      modifies `bindings
      ensures ok <==> PlanFits(old(Snapshot()), catalog, sub, plan, broken)
      ensures ok ==> bindings == old(bindings)[sub := Applied(RowsOf(old(Snapshot()), sub), PlanNodes(catalog, plan))]
    {
      var nodes := if plan in catalog.plans then catalog.plans[plan] else [];
      assert TargetSet(nodes) == PlanNodes(catalog, plan);
      var store := new BindingStore(if sub in bindings then bindings[sub] else map[], broken);
      assert store.rows == RowsOf(Snapshot(), sub);
      ok := store.RunPlanStatements(nodes);
      bindings := bindings[sub := store.rows];
    }

    method ConfirmOrderPaidCAS(id: OrderId, sub: SubId, productId: ProductId, product: Product, now: Time, broken: set<NodeId>)
      returns (result: Confirmation)
      modifies this
      ensures (Snapshot(), result) == Confirm(old(Snapshot()), catalog, id, sub, productId, product, now, broken)
    {
      if sub !in subs {
        return SubMissing;
      }
      var savepoint := (orders, subs, bindings, audit);
      var current := subs[sub];
      var newExpiry := PaymentExpiry(now, current, product);
      if id >= |orders| {
        return OrderMissing;
      }
      if orders[id].status !in {Pending, Expired} {
        return AlreadySettled;
      }
      orders := orders[id := orders[id].(status := Paid, paidAt := Some(now), expiresAt := Some(newExpiry))];
      subs := subs[sub := Subscription(SubActive, product.plan, Some(productId), Some(newExpiry), Some(now), product.price)];
      audit := audit + [PaymentConfirmed(id)];
      audit := audit + [SubscriptionRenewed(sub)];
      assert audit == savepoint.3 + [PaymentConfirmed(id), SubscriptionRenewed(sub)];
      if current.plan != product.plan {
        var ok := ApplyPlan(sub, product.plan, broken);
        if !ok {
          orders, subs, bindings, audit := savepoint.0, savepoint.1, savepoint.2, savepoint.3;
          return PlanFailed;
        }
      }
      return Activated;
    }

    method CancelPaidOrderAndDowngradeCAS(id: OrderId, now: Time, broken: set<NodeId>) returns (result: ChargebackResult)
      modifies this
      ensures (Snapshot(), result) == Chargeback(old(Snapshot()), catalog, id, now, broken)
    {
      if id >= |orders| {
        return Done(false, false, false);
      }
      var savepoint := (orders, subs, bindings, audit);
      var order := orders[id];
      if order.sub !in subs {
        return Error;
      }
      var wasPaid := order.status.Paid?;
      var from := if wasPaid then Paid else Pending;
      if order.status != from {
        return Done(false, false, false);
      }
      orders := orders[id := order.(status := Canceled)];
      audit := audit + [OrderCanceled(id)];
      if !wasPaid || !subs[order.sub].status.SubActive? {
        return Done(true, wasPaid, false);
      }
      var covered := false;
      for i := 0 to |orders|
        invariant covered <==> exists j :: 0 <= j < i && Covers(orders[j], order.sub, now)
      {
        covered := covered || Covers(orders[i], order.sub, now);
      }
      if covered {
        return Done(true, true, false);
      }
      subs := subs[order.sub := OnFreePlan(catalog)];
      var ok := ApplyPlan(order.sub, catalog.freePlan, broken);
      if !ok {
        orders, subs, bindings, audit := savepoint.0, savepoint.1, savepoint.2, savepoint.3;
        return Error;
      }
      audit := audit + [ChargebackReceived(id)];
      return Done(true, true, true);
    }

    method ExpireSubscriptionWithPlanCAS(sub: SubId, now: Time, broken: set<NodeId>) returns (result: ExpiryResult)
      modifies this
      ensures (Snapshot(), result) == ExpireSub(old(Snapshot()), catalog, sub, now, broken)
    {
      if sub !in subs {
        return Missing;
      }
      var current := subs[sub];
      if !(current.status.SubActive? && current.expiresAt.Some? && current.expiresAt.value <= now) {
        return if current == OnFreePlan(catalog) then AlreadyFree else Changed;
      }
      var savepoint := (subs, bindings);
      subs := subs[sub := OnFreePlan(catalog)];
      var ok := ApplyPlan(sub, catalog.freePlan, broken);
      if !ok {
        subs, bindings := savepoint.0, savepoint.1;
        return ExpiryPlanFailed;
      }
      return Downgraded;
    }

    method ExpirePendingOrder(id: OrderId) returns (expired: bool)
      modifies `orders
      ensures (orders, expired) == ExpireOrder(old(orders), id)
      ensures expired <==> id < |old(orders)| && old(orders)[id].status.Pending?
      ensures if expired then OnlyOrder(id, old(orders), orders) && orders[id] == old(orders)[id].(status := Expired)
              else orders == old(orders)
    {
      expired := id < |orders| && orders[id].status == Pending;
      if expired {
        orders := orders[id := orders[id].(status := Expired)];
      }
    }

    /** CancelOrderCAS for the order with this provider id. */
    method CancelOrderCAS(id: OrderId, from: set<OrderStatus>) returns (canceled: bool)
      modifies `orders
      ensures (orders, canceled) == CancelOrder(old(orders), id, from)
      ensures canceled <==> id < |old(orders)| && old(orders)[id].status in from
      ensures if canceled then OnlyOrder(id, old(orders), orders) && orders[id] == old(orders)[id].(status := Canceled)
              else orders == old(orders)
    {
      canceled := id < |orders| && orders[id].status in from;
      if canceled {
        orders := orders[id := orders[id].(status := Canceled)];
      }
    }

    method AttachProviderPaymentID(id: OrderId, providerId: nat) returns (attached: bool)
      modifies `orders
      ensures (orders, attached) == Attach(old(orders), id, providerId)
      ensures attached <==> id < |old(orders)| && old(orders)[id].providerId.None?
      ensures if attached then OnlyOrder(id, old(orders), orders) && orders[id] == old(orders)[id].(providerId := Some(providerId))
              else orders == old(orders)
    {
      attached := id < |orders| && orders[id].providerId.None?;
      if attached {
        orders := orders[id := orders[id].(providerId := Some(providerId))];
      }
    }

    method MarkPaymentCreationUncertain(id: OrderId, uncertain: bool) returns (claimed: bool)
      modifies `orders
      ensures (orders, claimed) == MarkUncertain(old(orders), id, uncertain)
      ensures claimed <==>
                && id < |old(orders)| && old(orders)[id].status.Pending?
                && if uncertain then !old(orders)[id].uncertain && old(orders)[id].providerId.None? else old(orders)[id].uncertain
      ensures if claimed then OnlyOrder(id, old(orders), orders) && orders[id] == old(orders)[id].(uncertain := uncertain)
              else orders == old(orders)
    {
      if id >= |orders| || !orders[id].status.Pending? {
        return false;
      }
      if uncertain {
        claimed := !orders[id].uncertain && orders[id].providerId.None?;
      } else {
        claimed := orders[id].uncertain;
      }
      if claimed {
        orders := orders[id := orders[id].(uncertain := uncertain)];
      }
    }

    method SavePaymentDetails(id: OrderId, providerId: nat, deadline: Time) returns (saved: bool)
      modifies `orders
      ensures (orders, saved) == SaveDetails(old(orders), id, providerId, deadline)
      ensures saved <==> id < |old(orders)| && old(orders)[id].status.Pending?
      ensures if saved then
                && OnlyOrder(id, old(orders), orders)
                && orders[id] == old(orders)[id].(providerId := Some(providerId), linkDeadline := Some(deadline), uncertain := false)
              else orders == old(orders)
    {
      saved := id < |orders| && orders[id].status.Pending?;
      if saved {
        orders := orders[id := orders[id].(providerId := Some(providerId), linkDeadline := Some(deadline), uncertain := false)];
      }
    }

    method FindPendingPaymentOrder(sub: SubId, product: ProductId, now: Time) returns (found: Option<OrderId>)
      modifies `orders
      ensures (orders, found) == FindIntent(old(orders), sub, product, now)
    {
      found := FirstIntent(orders, sub, product);
      if found.Some? && LinkExpired(orders[found.value], now) {
        var _ := ExpirePendingOrder(found.value);
      }
    }

    method FindOrCreatePendingPaymentOrder(sub: SubId, product: ProductId, amount: nat, now: Time) returns (id: OrderId)
      modifies `orders
      ensures (orders, id) == FindOrCreateIntent(old(orders), sub, product, amount, now)
    {
      var found := FirstIntent(orders, sub, product);
      if found.Some? {
        if orders[found.value].uncertain {
          return found.value;
        }
        if !LinkExpired(orders[found.value], now) {
          return found.value;
        }
        orders := orders[found.value := orders[found.value].(status := Expired)];
      }
      id := |orders|;
      orders := orders + [NewOrder(sub, product, amount)];
    }
  }
}
