/**
  Runs of order operations: duplicate and late callbacks, sweeps, chargebacks,
  expiry, revocation and reanimation in any interleaving.
 */
module OrderRuns {
  import opened Options
  import opened Bindings
  import opened PlanReconcile
  import opened Orders

  /** The settlement grace after the link deadline: five minutes. */
  const SETTLEMENT_GRACE: Time := 300

  datatype Op =
    | RequestIntent(sub: SubId, product: ProductId, amount: nat, now: Time)
    | LookupIntent(sub: SubId, product: ProductId, now: Time)
    | ConfirmCallback(order: OrderId, loaded: Order, charged: int, now: Time, broken: set<NodeId>)  // checks the row it loaded earlier
    | CancelCallback(order: OrderId, charged: int)
    | ChargebackCallback(order: OrderId, charged: int, now: Time, broken: set<NodeId>)
    | SweepExpire(order: OrderId)
    | ExpireSubscription(sub: SubId, now: Time, broken: set<NodeId>)
    | Revoke(sub: SubId, row: Subscription)     // writes back the row it loaded earlier
    | Reanimate(sub: SubId)                     // overwrites the row whatever it has become
    | ClearBindings(sub: SubId)
    | EnsureNode(sub: SubId, node: NodeId)
    | SetUncertain(order: OrderId, uncertain: bool)
    | SaveLink(order: OrderId, providerId: nat, deadline: Time)
    | AttachId(order: OrderId, providerId: nat)

  /** The settlement grace after the link deadline is over, or there is no deadline to count it from. */
  predicate PastGrace(o: Order, now: Time) {
    o.linkDeadline.None? || now > o.linkDeadline.value + SETTLEMENT_GRACE
  }

  /** confirmPayment's checks before the transaction, on the loaded order. */
  predicate Accepts(o: Order, charged: int, now: Time) {
    charged >= o.amount && (o.status.Pending? || (o.status.Expired? && !PastGrace(o, now)))
  }

  /** The columns no operation ever changes. */
  predicate SameOrder(a: Order, b: Order) {
    a.sub == b.sub && a.product == b.product && a.amount == b.amount
  }

  /** confirmPayment: checks on the row loaded earlier, then the transaction; a row of another order is no load of this one. */
  function ConfirmPayment(db: Db, c: Catalog, id: OrderId, loaded: Order, charged: int, now: Time, broken: set<NodeId>): (Db, Confirmation) {
    if id >= |db.orders| || !SameOrder(loaded, db.orders[id]) then (db, OrderMissing)
    else if !Accepts(loaded, charged, now) || loaded.product !in c.products then (db, AlreadySettled)
    else Confirm(db, c, id, loaded.sub, loaded.product, c.products[loaded.product], now, broken)
  }

  /** CancelPaymentByProvider rejects an unknown order and an amount below the price. */
  predicate FullAmount(db: Db, id: OrderId, charged: int) {
    id < |db.orders| && charged >= db.orders[id].amount
  }

  function Apply(db: Db, c: Catalog, op: Op): Db {
    match op
    case RequestIntent(sub, product, amount, now) =>
      db.(orders := FindOrCreateIntent(db.orders, sub, product, amount, now).0)
    case LookupIntent(sub, product, now) => db.(orders := FindIntent(db.orders, sub, product, now).0)
    case ConfirmCallback(id, loaded, charged, now, broken) => ConfirmPayment(db, c, id, loaded, charged, now, broken).0
    case CancelCallback(id, charged) =>
      if FullAmount(db, id, charged) then db.(orders := CancelOrder(db.orders, id, {Pending}).0) else db
    case ChargebackCallback(id, charged, now, broken) =>
      if FullAmount(db, id, charged) then Chargeback(db, c, id, now, broken).0 else db
    case SweepExpire(id) => db.(orders := ExpireOrder(db.orders, id).0)
    case ExpireSubscription(sub, now, broken) => ExpireSub(db, c, sub, now, broken).0
    case Revoke(sub, row) =>
      if sub in db.subs then db.(subs := db.subs[sub := row.(status := SubRevoked)]) else db
    case Reanimate(sub) => if sub in db.subs then db.(subs := db.subs[sub := OnFreePlan(c)]) else db
    case ClearBindings(sub) => db.(bindings := db.bindings[sub := map[]])
    case EnsureNode(sub, node) => db.(bindings := db.bindings[sub := RowsOf(db, sub)[node := Fresh(PendingAdd)]])
    case SetUncertain(id, uncertain) => db.(orders := MarkUncertain(db.orders, id, uncertain).0)
    case SaveLink(id, providerId, deadline) => db.(orders := SaveDetails(db.orders, id, providerId, deadline).0)
    case AttachId(id, providerId) => db.(orders := Attach(db.orders, id, providerId).0)
  }

  function Run(db: Db, c: Catalog, ops: seq<Op>): Db
    decreases |ops|
  {
    if ops == [] then db else Run(Apply(db, c, ops[0]), c, ops[1..])
  }

  // ------------------------------------------------------- order transitions

  /** The edges of one order's status. */
  predicate Edge(a: OrderStatus, b: OrderStatus) {
    || a == b
    || (a.Pending? && !b.Pending?)
    || (a.Expired? && b.Paid?)
    || (a.Paid? && b.Canceled?)
  }

  /** Where a status can go in any number of steps. */
  predicate Path(a: OrderStatus, b: OrderStatus) {
    Edge(a, b) || (a.Expired? && b.Canceled?)
  }

  /** One operation moves each order along at most one edge and keeps its identity. */
  lemma OpFollowsEdges(db: Db, c: Catalog, op: Op)
    ensures |db.orders| <= |Apply(db, c, op).orders|
    ensures forall i :: 0 <= i < |db.orders| ==>
              var (o, o') := (db.orders[i], Apply(db, c, op).orders[i]);
              Edge(o.status, o'.status) && o'.sub == o.sub && o'.product == o.product && o'.amount == o.amount
    ensures forall i :: |db.orders| <= i < |Apply(db, c, op).orders| ==> Apply(db, c, op).orders[i].status.Pending?
  {
  }

  lemma {:induction false} RunFollowsPaths(db: Db, c: Catalog, ops: seq<Op>)
    ensures |db.orders| <= |Run(db, c, ops).orders|
    ensures forall i :: 0 <= i < |db.orders| ==> Path(db.orders[i].status, Run(db, c, ops).orders[i].status)
    decreases |ops|
  {
    if ops != [] {
      OpFollowsEdges(db, c, ops[0]);
      RunFollowsPaths(Apply(db, c, ops[0]), c, ops[1..]);
    }
  }

  // ------------------------------------------------------------------ grants

  /** The operation is a confirmation of order `id` that takes effect. */
  predicate Grants(db: Db, c: Catalog, op: Op, id: OrderId) {
    op.ConfirmCallback? && op.order == id && ConfirmPayment(db, c, id, op.loaded, op.charged, op.now, op.broken).1.Activated?
  }

  function GrantCount(db: Db, c: Catalog, ops: seq<Op>, id: OrderId): nat
    decreases |ops|
  {
    if ops == [] then 0
    else (if Grants(db, c, ops[0], id) then 1 else 0) + GrantCount(Apply(db, c, ops[0]), c, ops[1..], id)
  }

  /** An order becomes paid by a grant and by nothing else; a grant needs the full amount, in time for the row it loaded. */
  lemma PaidOnlyByGrant(db: Db, c: Catalog, op: Op, id: OrderId)
    requires id < |db.orders|
    ensures Grants(db, c, op, id) <==> !db.orders[id].status.Paid? && Apply(db, c, op).orders[id].status.Paid?
    ensures Grants(db, c, op, id) ==>
              && SameOrder(op.loaded, db.orders[id]) && Accepts(op.loaded, op.charged, op.now)
              && op.charged >= db.orders[id].amount
              && (op.loaded.status.Pending?
                  || (op.loaded.status.Expired? && op.loaded.linkDeadline.Some? && op.now <= op.loaded.linkDeadline.value + 5 * 60))
  {
    OpFollowsEdges(db, c, op);
  }

  /**
    Whatever duplicates and sweeps arrive, an order grants at most one
    subscription change, exactly one when it ends paid, and none once it was
    paid or canceled.
   */
  lemma {:induction false} AtMostOneGrant(db: Db, c: Catalog, ops: seq<Op>, id: OrderId)
    requires id < |db.orders|
    ensures GrantCount(db, c, ops, id) <= 1
    ensures db.orders[id].status in {Paid, Canceled} ==> GrantCount(db, c, ops, id) == 0
    ensures !db.orders[id].status.Paid? && id < |Run(db, c, ops).orders| && Run(db, c, ops).orders[id].status.Paid? ==>
              GrantCount(db, c, ops, id) == 1
    decreases |ops|
  {
    if ops != [] {
      OpFollowsEdges(db, c, ops[0]);
      PaidOnlyByGrant(db, c, ops[0], id);
      var next := Apply(db, c, ops[0]);
      AtMostOneGrant(next, c, ops[1..], id);
      RunFollowsPaths(next, c, ops[1..]);
    }
  }

  // ----------------------------------------------------- one order, one change

  /** What the transaction itself asks for, besides the order's status. */
  predicate Activatable(db: Db, c: Catalog, o: Order, broken: set<NodeId>) {
    && o.product in c.products && o.sub in db.subs
    && (db.subs[o.sub].plan == c.products[o.product].plan || PlanFits(db, c, o.sub, c.products[o.product].plan, broken))
  }

  /** Every node of the plan is to be provisioned or updated, every other row removed, and no row is lost. */
  predicate Follows(rows: Rows, target: set<NodeId>, rows': Rows) {
    && rows'.Keys == rows.Keys + target
    && forall n :: n in rows' ==>
         if n in target then rows'[n].status in {PendingAdd, PendingUpdate} else rows'[n].status.PendingRemove?
  }

  /** No other subscription and no other subscription's bindings have changed. */
  ghost predicate OnlySubscription(sub: SubId, db: Db, db': Db) {
    && db'.subs.Keys == db.subs.Keys
    && (forall s :: s in db.subs && s != sub ==> db'.subs[s] == db.subs[s])
    && (forall s: SubId :: s != sub ==> RowsOf(db', s) == RowsOf(db, s))
  }

  /**
    Order, subscription and audit change together or not at all, also when the
    plan application fails half way; a purchase of another plan brings every
    binding in line with it, and one of the same plan touches none.
   */
  lemma ConfirmIsAtomic(db: Db, c: Catalog, id: OrderId, loaded: Order, charged: int, now: Time, broken: set<NodeId>)
    requires id < |db.orders| && SameOrder(loaded, db.orders[id])
    ensures var (db', result) := ConfirmPayment(db, c, id, loaded, charged, now, broken);
            && (result.Activated? <==>
                  Accepts(loaded, charged, now) && db.orders[id].status in {Pending, Expired} && Activatable(db, c, loaded, broken))
            && (result.Activated? <==> db'.orders != db.orders)
            && (result.Activated? <==> |db'.audit| == |db.audit| + 2)
            && (!result.Activated? ==> db' == db)
            && (result.Activated? ==>
                  var (was, after, product) := (db.subs[loaded.sub], db'.subs[loaded.sub], c.products[loaded.product]);
                  && OnlyOrder(id, db.orders, db'.orders) && OnlySubscription(loaded.sub, db, db')
                  && db'.audit == db.audit + [PaymentConfirmed(id), SubscriptionRenewed(loaded.sub)]
                  && db'.orders[id] == db.orders[id].(status := Paid, paidAt := Some(now), expiresAt := after.expiresAt)
                  && after.status.SubActive? && after.plan == product.plan && after.product == Some(loaded.product)
                  && after.startedAt == Some(now) && after.pricePaid == product.price
                  && after.expiresAt == Some(product.days * 86400 + if Running(was, product.plan, now) then was.expiresAt.value else now)
                  && if was.plan == product.plan then db'.bindings == db.bindings
                     else Follows(RowsOf(db, loaded.sub), PlanNodes(c, product.plan), RowsOf(db', loaded.sub)))
  {
    if loaded.product in c.products {
      AppliedOutcome(RowsOf(db, loaded.sub), PlanNodes(c, c.products[loaded.product].plan));
    }
  }

  /** The subscription has time left on this plan. */
  predicate Running(sub: Subscription, plan: PlanId, now: Time) {
    sub.plan == plan && sub.expiresAt.Some? && sub.expiresAt.value > now
  }

  /** A duplicate, whatever its amount, time or kind, is absorbed once the order was settled. */
  lemma DuplicatesAreAbsorbed(db: Db, c: Catalog, id: OrderId, op: Op)
    requires id < |db.orders|
    requires match op
             case ConfirmCallback(o, _, _, _, _) => o == id && db.orders[id].status in {Paid, Canceled}
             case CancelCallback(o, _) => o == id && !db.orders[id].status.Pending?
             case SweepExpire(o) => o == id && !db.orders[id].status.Pending?
             case ChargebackCallback(o, _, _, _) => o == id && db.orders[id].status in {Expired, Canceled}
             case _ => false
    ensures Apply(db, c, op) == db
  {
  }

  /** Delivering the same callback, sweep or expiry twice in a row is delivering it once. */
  lemma TwiceIsOnce(db: Db, c: Catalog, op: Op)
    requires op.ConfirmCallback? || op.CancelCallback? || op.ChargebackCallback? || op.SweepExpire? || op.ExpireSubscription?
    ensures Apply(Apply(db, c, op), c, op) == Apply(db, c, op)
  {
    var db' := Apply(db, c, op);
    if db' != db && !op.ExpireSubscription? {
      OpFollowsEdges(db, c, op);
      DuplicatesAreAbsorbed(db', c, op.order, op);
    }
  }

  /**
    Expiry downgrades exactly an active subscription whose time has passed, unless
    the plan application fails; it then brings every binding in line with the free
    plan, and no later expiry of any kind changes anything again.
   */
  lemma ExpiryExactly(db: Db, c: Catalog, sub: SubId, now: Time, broken: set<NodeId>, later: Time, broken': set<NodeId>)
    requires sub in db.subs
    ensures var (db', result) := ExpireSub(db, c, sub, now, broken);
            var was := db.subs[sub];
            var due := was.status.SubActive? && was.expiresAt.Some? && was.expiresAt.value <= now;
            && (result.Downgraded? <==> due && PlanFits(db, c, sub, c.freePlan, broken))
            && (result.ExpiryPlanFailed? <==> due && !PlanFits(db, c, sub, c.freePlan, broken))
            && (result.AlreadyFree? <==> IsFree(c, was))
            && (!result.Downgraded? ==> db' == db)
            && (result.Downgraded? ==>
                  && db'.orders == db.orders && db'.audit == db.audit && OnlySubscription(sub, db, db')
                  && IsFree(c, db'.subs[sub])
                  && Follows(RowsOf(db, sub), PlanNodes(c, c.freePlan), RowsOf(db', sub))
                  && ExpireSub(db', c, sub, later, broken') == (db', AlreadyFree))
  {
    AppliedOutcome(RowsOf(db, sub), PlanNodes(c, c.freePlan));
  }

  /** Active on the free plan, with nothing bought. */
  predicate IsFree(c: Catalog, sub: Subscription) {
    && sub.status.SubActive? && sub.plan == c.freePlan
    && sub.product.None? && sub.expiresAt.None? && sub.startedAt.None? && sub.pricePaid == 0
  }

  /** A cancellation with the full amount ends a pending order, and nothing else, on that order alone. */
  lemma CancelExactly(db: Db, c: Catalog, id: OrderId, charged: int)
    ensures var db' := Apply(db, c, CancelCallback(id, charged));
            if id < |db.orders| && charged >= db.orders[id].amount && db.orders[id].status.Pending?
            then db' == db.(orders := db'.orders) && OnlyOrder(id, db.orders, db'.orders)
                 && db'.orders[id] == db.orders[id].(status := Canceled)
            else db' == db
  {
  }

  /** An unknown order, or less than its amount: no callback changes anything. */
  lemma UnderpaidChangesNothing(db: Db, c: Catalog, id: OrderId, loaded: Order, charged: int, now: Time, broken: set<NodeId>)
    requires id < |db.orders| ==> charged < db.orders[id].amount
    ensures Apply(db, c, ConfirmCallback(id, loaded, charged, now, broken)) == db
    ensures Apply(db, c, CancelCallback(id, charged)) == db
    ensures Apply(db, c, ChargebackCallback(id, charged, now, broken)) == db
  {
  }

  // -------------------------------------------------------------- chargeback

  /** No other order of the subscription is paid with time left, or without end. */
  predicate Alone(orders: seq<Order>, id: OrderId, now: Time)
    requires id < |orders|
  {
    forall i :: 0 <= i < |orders| && i != id && orders[i].sub == orders[id].sub && orders[i].status.Paid? ==>
      orders[i].expiresAt.Some? && orders[i].expiresAt.value <= now
  }

  /** Once canceled, an order covers nothing: what covers the subscription is the others. */
  lemma AloneIsUncovered(orders: seq<Order>, id: OrderId, now: Time)
    requires id < |orders|
    ensures var canceled := orders[id := orders[id].(status := Canceled)];
            Alone(orders, id, now) <==> !exists i :: 0 <= i < |canceled| && Covers(canceled[i], orders[id].sub, now)
  {
    var canceled := orders[id := orders[id].(status := Canceled)];
    if i :| 0 <= i < |canceled| && Covers(canceled[i], orders[id].sub, now) {
      assert i != id && canceled[i] == orders[i];
    }
    if i :| 0 <= i < |orders| && i != id && orders[i].sub == orders[id].sub && orders[i].status.Paid?
            && !(orders[i].expiresAt.Some? && orders[i].expiresAt.value <= now) {
      assert canceled[i] == orders[i] && Covers(canceled[i], orders[id].sub, now);
    }
  }

  /** What a downgrade changes. */
  ghost predicate Downgraded(db: Db, c: Catalog, id: OrderId, db': Db)
    requires id < |db.orders|
  {
    var o := db.orders[id];
    && OnlyOrder(id, db.orders, db'.orders) && db'.orders[id] == o.(status := Canceled)
    && OnlySubscription(o.sub, db, db') && o.sub in db'.subs && IsFree(c, db'.subs[o.sub])
    && Follows(RowsOf(db, o.sub), PlanNodes(c, c.freePlan), RowsOf(db', o.sub))
    && db'.audit == db.audit + [OrderCanceled(id), ChargebackReceived(id)]
  }

  lemma DowngradeDone(db: Db, c: Catalog, id: OrderId, now: Time, broken: set<NodeId>)
    requires id < |db.orders| && db.orders[id].sub in db.subs && db.orders[id].status.Paid?
    requires db.subs[db.orders[id].sub].status.SubActive? && Alone(db.orders, id, now)
    requires PlanFits(db, c, db.orders[id].sub, c.freePlan, broken)
    ensures var (db', result) := Chargeback(db, c, id, now, broken);
            result == Done(true, true, true) && Downgraded(db, c, id, db')
  {
    AloneIsUncovered(db.orders, id, now);
    AppliedOutcome(RowsOf(db, db.orders[id].sub), PlanNodes(c, c.freePlan));
    assert db.audit + [OrderCanceled(id)] + [ChargebackReceived(id)] == db.audit + [OrderCanceled(id), ChargebackReceived(id)];
  }

  /**
    A chargeback downgrades exactly when the order was paid, its subscription is
    active, no other order of it is paid with time left or no end, and the plan
    application needs no broken write.  It then brings every binding in line with
    the free plan; it never touches another order or subscription.
   */
  lemma ChargebackExactly(db: Db, c: Catalog, id: OrderId, now: Time, broken: set<NodeId>)
    requires id < |db.orders| && db.orders[id].sub in db.subs
    ensures var o := db.orders[id];
            var planOk := PlanFits(db, c, o.sub, c.freePlan, broken);
            var (db', result) := Chargeback(db, c, id, now, broken);
            var due := o.status.Paid? && db.subs[o.sub].status.SubActive? && Alone(db.orders, id, now);
            && (result == Done(true, true, true) <==> due && planOk)
            && (due && planOk ==> Downgraded(db, c, id, db'))
            && (due && !planOk ==> db' == db && result.Error?)
            && (!due && o.status in {Pending, Paid} ==>
                  && result == Done(true, o.status.Paid?, false)
                  && db'.orders[id] == o.(status := Canceled) && OnlyOrder(id, db.orders, db'.orders)
                  && db'.subs == db.subs && db'.bindings == db.bindings && db'.audit == db.audit + [OrderCanceled(id)])
            && (o.status !in {Pending, Paid} ==> db' == db && result == Done(false, false, false))
  {
    var o := db.orders[id];
    AloneIsUncovered(db.orders, id, now);
    if o.status.Paid? && db.subs[o.sub].status.SubActive? && Alone(db.orders, id, now) && PlanFits(db, c, o.sub, c.freePlan, broken) {
      DowngradeDone(db, c, id, now, broken);
    }
  }

  /** Paid access is backed by a paid order. */
  ghost predicate Backed(db: Db) {
    forall s :: s in db.subs && db.subs[s].status.SubActive? && db.subs[s].product.Some? ==> HasPaidOrder(db.orders, s)
  }

  ghost predicate HasPaidOrder(orders: seq<Order>, s: SubId) {
    exists i :: 0 <= i < |orders| && orders[i].sub == s && orders[i].status.Paid?
  }

  lemma ConfirmKeepsBacked(db: Db, c: Catalog, id: OrderId, loaded: Order, charged: int, now: Time, broken: set<NodeId>)
    requires Backed(db)
    ensures Backed(ConfirmPayment(db, c, id, loaded, charged, now, broken).0)
  {
    var db' := ConfirmPayment(db, c, id, loaded, charged, now, broken).0;
    forall s | s in db'.subs && db'.subs[s].status.SubActive? && db'.subs[s].product.Some?
      ensures HasPaidOrder(db'.orders, s)
    {
      if db' != db && s == db.orders[id].sub {
        assert db'.orders[id].sub == s && db'.orders[id].status.Paid?;
      } else {
        PaidOrdersStay(db.orders, db'.orders, s);
      }
    }
  }

  lemma PaidOrdersStay(orders: seq<Order>, orders': seq<Order>, s: SubId)
    requires |orders| <= |orders'|
    requires forall i :: 0 <= i < |orders| && orders[i].status.Paid? ==> orders'[i].status.Paid? && orders'[i].sub == orders[i].sub
    ensures HasPaidOrder(orders, s) ==> HasPaidOrder(orders', s)
  {
    if HasPaidOrder(orders, s) {
      var i :| 0 <= i < |orders| && orders[i].sub == s && orders[i].status.Paid?;
      assert orders'[i].sub == s && orders'[i].status.Paid?;
    }
  }

  lemma ChargebackKeepsBacked(db: Db, c: Catalog, id: OrderId, now: Time, broken: set<NodeId>)
    requires Backed(db)
    ensures Backed(Chargeback(db, c, id, now, broken).0)
  {
    var (db', result) := Chargeback(db, c, id, now, broken);
    forall s | s in db'.subs && db'.subs[s].status.SubActive? && db'.subs[s].product.Some?
      ensures HasPaidOrder(db'.orders, s)
    {
      if db' != db {
        var i :| 0 <= i < |db.orders| && db.orders[i].sub == s && db.orders[i].status.Paid?;
        if i == id {
          var j :| 0 <= j < |db'.orders| && Covers(db'.orders[j], s, now);
        } else {
          assert db'.orders[i] == db.orders[i];
        }
      }
    }
  }

  lemma OpKeepsBacked(db: Db, c: Catalog, op: Op)
    requires Backed(db)
    ensures Backed(Apply(db, c, op))
  {
    match op
    case ConfirmCallback(id, loaded, charged, now, broken) => ConfirmKeepsBacked(db, c, id, loaded, charged, now, broken);
    case ChargebackCallback(id, _, now, broken) => ChargebackKeepsBacked(db, c, id, now, broken);
    case _ =>
      var db' := Apply(db, c, op);
      forall s | s in db'.subs && db'.subs[s].status.SubActive? && db'.subs[s].product.Some?
        ensures HasPaidOrder(db'.orders, s)
      {
        assert db.subs[s] == db'.subs[s];
        PaidOrdersStay(db.orders, db'.orders, s);
      }
  }

  /** In every run an active subscription with a product has some paid order. */
  lemma {:induction false} PaidAccessIsBacked(db: Db, c: Catalog, ops: seq<Op>)
    requires Backed(db)
    ensures Backed(Run(db, c, ops))
    decreases |ops|
  {
    if ops != [] {
      OpKeepsBacked(db, c, ops[0]);
      PaidAccessIsBacked(Apply(db, c, ops[0]), c, ops[1..]);
    }
  }

  // ----------------------------------------------------------------- intents

  /** The partial unique index: one pending intent per subscription and product. */
  ghost predicate UniqueIntents(orders: seq<Order>) {
    forall i, j :: 0 <= i < j < |orders| && orders[i].status.Pending? && orders[j].status.Pending? ==>
      orders[i].sub != orders[j].sub || orders[i].product != orders[j].product
  }

  lemma OpKeepsUniqueIntents(db: Db, c: Catalog, op: Op)
    requires UniqueIntents(db.orders)
    ensures UniqueIntents(Apply(db, c, op).orders)
  {
    OpFollowsEdges(db, c, op);
    var orders, orders' := db.orders, Apply(db, c, op).orders;
    if op.RequestIntent? && |orders'| > |orders| {
      assert forall i :: 0 <= i < |orders| && IsIntent(orders[i], op.sub, op.product) ==> !orders'[i].status.Pending?;
    }
  }

  /**
    Every run keeps one pending intent per subscription and product, and a
    request never starts a second one beside an intent whose creation is uncertain.
   */
  lemma {:induction false} IntentsStayUnique(db: Db, c: Catalog, ops: seq<Op>)
    requires UniqueIntents(db.orders)
    ensures UniqueIntents(Run(db, c, ops).orders)
    decreases |ops|
  {
    if ops != [] {
      OpKeepsUniqueIntents(db, c, ops[0]);
      IntentsStayUnique(Apply(db, c, ops[0]), c, ops[1..]);
    }
  }

  /** The intent can still be used: its creation is uncertain, or its link has time left or no end. */
  predicate Usable(o: Order, now: Time) {
    o.uncertain || o.linkDeadline.None? || now < o.linkDeadline.value
  }

  predicate IsNew(o: Order, sub: SubId, product: ProductId, amount: nat) {
    && o.sub == sub && o.product == product && o.status.Pending? && o.amount == amount
    && o.providerId.None? && o.linkDeadline.None? && !o.uncertain && o.paidAt.None? && o.expiresAt.None?
  }

  /**
    A request reuses the pending intent exactly if it is usable, and then changes
    nothing; otherwise it ends the overdue one and starts a new one behind all others.
   */
  lemma IntentReusedExactly(orders: seq<Order>, i: OrderId, amount: nat, now: Time)
    requires UniqueIntents(orders) && i < |orders| && orders[i].status.Pending?
    ensures var (orders', id) := FindOrCreateIntent(orders, orders[i].sub, orders[i].product, amount, now);
            if Usable(orders[i], now) then orders' == orders && id == i
            else
              && id == |orders| && |orders'| == |orders| + 1 && IsNew(orders'[id], orders[i].sub, orders[i].product, amount)
              && orders'[i] == orders[i].(status := Expired)
              && forall k :: 0 <= k < |orders| && k != i ==> orders'[k] == orders[k]
  {
    assert FirstIntent(orders, orders[i].sub, orders[i].product) == Some(i);
  }

  /** Without a pending intent for this purchase, it starts one. */
  lemma IntentCreated(orders: seq<Order>, sub: SubId, product: ProductId, amount: nat, now: Time)
    requires forall i :: 0 <= i < |orders| && orders[i].status.Pending? ==> orders[i].sub != sub || orders[i].product != product
    ensures var (orders', id) := FindOrCreateIntent(orders, sub, product, amount, now);
            id == |orders| && |orders'| == |orders| + 1 && orders'[..|orders|] == orders && IsNew(orders'[id], sub, product, amount)
  {
    var found := FirstIntent(orders, sub, product);
    assert found.None?;
  }

  /** A lookup finds the pending intent, and ends it exactly if its link ran out. */
  lemma IntentFoundExactly(orders: seq<Order>, i: OrderId, now: Time)
    requires UniqueIntents(orders) && i < |orders| && orders[i].status.Pending?
    ensures var (orders', found) := FindIntent(orders, orders[i].sub, orders[i].product, now);
            && found == Some(i)
            && orders' == if orders[i].linkDeadline.Some? && orders[i].linkDeadline.value <= now
                          then orders[i := orders[i].(status := Expired)] else orders
  {
    assert FirstIntent(orders, orders[i].sub, orders[i].product) == Some(i);
  }

  lemma UncertainIntentIsReused(orders: seq<Order>, id: OrderId, now: Time, amount: nat)
    requires UniqueIntents(orders) && id < |orders| && orders[id].status.Pending? && orders[id].uncertain
    ensures FindOrCreateIntent(orders, orders[id].sub, orders[id].product, amount, now) == (orders, id)
  {
    var found := FirstIntent(orders, orders[id].sub, orders[id].product);
    assert IsIntent(orders[id], orders[id].sub, orders[id].product);
  }

  // ---------------------------------------------------------------- renewals

  datatype Renewal = Renewal(now: Time, id: ProductId, product: Product)

  function AfterRenewals(sub: Subscription, rs: seq<Renewal>): Subscription
    decreases |rs|
  {
    if rs == [] then sub else AfterRenewals(Renewed(rs[0].now, sub, rs[0].id, rs[0].product), rs[1..])
  }

  /** Same-plan confirmations, each made before the expiry it finds. */
  ghost predicate InTime(sub: Subscription, rs: seq<Renewal>)
    decreases |rs|
  {
    rs == [] ||
    (&& rs[0].product.plan == sub.plan
     && sub.expiresAt.Some? && rs[0].now < sub.expiresAt.value
     && InTime(Renewed(rs[0].now, sub, rs[0].id, rs[0].product), rs[1..]))
  }

  function Days(rs: seq<Renewal>): seq<int> {
    seq(|rs|, i requires 0 <= i < |rs| => rs[i].product.days)
  }

  function Sum(xs: seq<int>): int {
    if xs == [] then 0 else xs[0] + Sum(xs[1..])
  }

  /** In-time renewals add up: no paid day is lost or counted twice. */
  lemma {:induction false} RenewalsAddUp(sub: Subscription, rs: seq<Renewal>)
    requires InTime(sub, rs) && sub.expiresAt.Some?
    ensures AfterRenewals(sub, rs).expiresAt == Some(sub.expiresAt.value + Sum(Days(rs)) * DAY)
    decreases |rs|
  {
    if rs == [] {
      assert Days(rs) == [];
    } else {
      assert Days(rs)[1..] == Days(rs[1..]);
      RenewalsAddUp(Renewed(rs[0].now, sub, rs[0].id, rs[0].product), rs[1..]);
    }
  }

  /**
    From a subscription with no time left on the plan, whatever it had before: the
    first payment starts the time, every in-time renewal adds to it.
   */
  lemma PaidTimeAddsUp(sub: Subscription, first: Renewal, rs: seq<Renewal>)
    requires !Running(sub, first.product.plan, first.now)
    requires InTime(AfterRenewals(sub, [first]), rs)
    ensures AfterRenewals(sub, [first] + rs).expiresAt == Some(first.now + Sum(Days([first] + rs)) * 86400)
  {
    var bought := Renewed(first.now, sub, first.id, first.product);
    assert ([first] + rs)[1..] == rs && [first][1..] == [];
    assert AfterRenewals(sub, [first]) == bought;
    RenewalsAddUp(bought, rs);
    assert Days([first] + rs) == [first.product.days] + Days(rs);
    assert Sum([first.product.days] + Days(rs)) == first.product.days + Sum(([first.product.days] + Days(rs))[1..]);
    assert ([first.product.days] + Days(rs))[1..] == Days(rs);
  }

  lemma {:induction false} SumSplit(xs: seq<int>, i: nat)
    requires i < |xs|
    ensures Sum(xs) == xs[i] + Sum(xs[..i] + xs[i + 1..])
  {
    if i == 0 {
      assert xs[..0] + xs[1..] == xs[1..];
    } else {
      SumSplit(xs[1..], i - 1);
      var ys := xs[..i] + xs[i + 1..];
      assert ys[0] == xs[0] && ys[1..] == xs[1..][..i - 1] + xs[1..][i..];
    }
  }

  lemma OneTaken(xs: seq<int>, i: nat)
    requires i < |xs|
    ensures multiset(xs[..i] + xs[i + 1..]) == multiset(xs) - multiset{xs[i]}
  {
    assert xs == xs[..i] + [xs[i]] + xs[i + 1..];
  }

  lemma {:induction false} SumOfPermutation(xs: seq<int>, ys: seq<int>)
    requires multiset(xs) == multiset(ys)
    ensures Sum(xs) == Sum(ys)
    decreases |xs|
  {
    if xs == [] {
      assert |ys| == |multiset(ys)| == |multiset(xs)| == 0;
    } else {
      assert xs[0] in multiset(ys);
      var i :| 0 <= i < |ys| && ys[i] == xs[0];
      OneTaken(ys, i);
      OneTaken(xs, 0);
      assert xs[..0] + xs[1..] == xs[1..];
      SumOfPermutation(xs[1..], ys[..i] + ys[i + 1..]);
      SumSplit(ys, i);
    }
  }

  /** The order in which in-time renewals are confirmed does not matter. */
  lemma RenewalOrderIrrelevant(sub: Subscription, rs: seq<Renewal>, rs': seq<Renewal>)
    requires sub.expiresAt.Some? && InTime(sub, rs) && InTime(sub, rs')
    requires multiset(Days(rs)) == multiset(Days(rs'))
    ensures AfterRenewals(sub, rs).expiresAt == AfterRenewals(sub, rs').expiresAt
  {
    RenewalsAddUp(sub, rs);
    RenewalsAddUp(sub, rs');
    SumOfPermutation(Days(rs), Days(rs'));
  }

  /**
    A confirmation never leaves less than its own duration from activation, and
    shortens the current expiry exactly when it changes the plan of a longer
    subscription or sells a negative duration.
   */
  lemma ExpiryBounds(now: Time, sub: Subscription, product: Product)
    ensures PaymentExpiry(now, sub, product) >= now + product.days * DAY
    ensures sub.expiresAt.Some? ==>
              (PaymentExpiry(now, sub, product) < sub.expiresAt.value <==>
                 if sub.plan == product.plan && sub.expiresAt.value > now then product.days < 0
                 else now + product.days * DAY < sub.expiresAt.value)
  {
  }
}
