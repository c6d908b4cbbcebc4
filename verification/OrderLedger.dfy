/**
  The audit log as a ledger: in every run it agrees with the orders, entry by
  entry, and with itself across orders and subscriptions.
 */
module OrderLedger {
  import opened Options
  import opened Bindings
  import opened PlanReconcile
  import opened Orders
  import opened OrderRuns

  function Entries(audit: seq<Event>, e: Event): nat {
    multiset(audit)[e]
  }

  /** Confirmations the log has for the orders of one subscription. */
  function Confirmations(orders: seq<Order>, audit: seq<Event>, sub: SubId): nat {
    if orders == [] then 0
    else
      var last := |orders| - 1;
      Confirmations(orders[..last], audit, sub) +
      if orders[last].sub == sub then Entries(audit, PaymentConfirmed(last)) else 0
  }

  /** What the log says of one order: confirmed once if it was ever paid, charged back only after that. */
  predicate OrderLogged(status: OrderStatus, confirmed: nat, chargedBack: nat) {
    && chargedBack <= confirmed <= 1
    && (status.Paid? ==> confirmed == 1 && chargedBack == 0)
    && (status in {Pending, Expired} ==> confirmed == 0)
  }

  /** The log has exactly the entries the orders account for. */
  ghost predicate Accounts(orders: seq<Order>, audit: seq<Event>) {
    && (forall id :: 0 <= id < |orders| ==>
          OrderLogged(orders[id].status, Entries(audit, PaymentConfirmed(id)), Entries(audit, ChargebackReceived(id))))
    && (forall id: OrderId :: id >= |orders| ==>
          Entries(audit, PaymentConfirmed(id)) == 0 && Entries(audit, ChargebackReceived(id)) == 0)
    && (forall sub: SubId :: Entries(audit, SubscriptionRenewed(sub)) == Confirmations(orders, audit, sub))
  }

  ghost predicate Balanced(db: Db) {
    Accounts(db.orders, db.audit)
  }

  // ------------------------------------------------------------- confirmations

  lemma OneMoreEntry(audit: seq<Event>, e: Event, f: Event)
    ensures Entries(audit + [e], f) == Entries(audit, f) + if e == f then 1 else 0
  {
  }

  /** Only the subscriptions of the orders and the confirmations in the log count. */
  lemma {:induction false} SameConfirmations(a: seq<Order>, b: seq<Order>, x: seq<Event>, y: seq<Event>, sub: SubId)
    requires |a| <= |b| && forall i :: 0 <= i < |a| ==> b[i].sub == a[i].sub
    requires forall i :: 0 <= i < |a| ==> Entries(y, PaymentConfirmed(i)) == Entries(x, PaymentConfirmed(i))
    requires forall i :: |a| <= i < |b| ==> Entries(y, PaymentConfirmed(i)) == 0
    ensures Confirmations(b, y, sub) == Confirmations(a, x, sub)
    decreases |b|
  {
    if b != [] {
      var last := |b| - 1;
      if |a| == |b| {
        SameConfirmations(a[..last], b[..last], x, y, sub);
      } else {
        SameConfirmations(a, b[..last], x, y, sub);
      }
    }
  }

  /** One more confirmation counts for the order's subscription. */
  lemma {:induction false} OneMoreConfirmation(a: seq<Order>, b: seq<Order>, x: seq<Event>, y: seq<Event>, id: OrderId, sub: SubId)
    requires |b| == |a| && id < |a| && forall i :: 0 <= i < |a| ==> b[i].sub == a[i].sub
    requires forall i :: 0 <= i < |a| ==> Entries(y, PaymentConfirmed(i)) == Entries(x, PaymentConfirmed(i)) + if i == id then 1 else 0
    ensures Confirmations(b, y, sub) == Confirmations(a, x, sub) + if a[id].sub == sub then 1 else 0
    decreases |b|
  {
    var last := |b| - 1;
    if id == last {
      SameConfirmations(a[..last], b[..last], x, y, sub);
    } else {
      OneMoreConfirmation(a[..last], b[..last], x, y, id, sub);
    }
  }

  // ------------------------------------------------------------------ operations

  /** Operations that add no entry about payments. */
  lemma SilentOpKeepsBalance(db: Db, c: Catalog, op: Op)
    requires Balanced(db) && Apply(db, c, op).audit == db.audit
    ensures Balanced(Apply(db, c, op))
  {
    var db' := Apply(db, c, op);
    OpFollowsEdges(db, c, op);
    forall id | 0 <= id < |db.orders|
      ensures OrderLogged(db'.orders[id].status, Entries(db.audit, PaymentConfirmed(id)), Entries(db.audit, ChargebackReceived(id)))
    {
      PaidMeansLogged(db, c, op, id);
    }
    forall sub: SubId
      ensures Confirmations(db'.orders, db.audit, sub) == Confirmations(db.orders, db.audit, sub)
    {
      SameConfirmations(db.orders, db'.orders, db.audit, db.audit, sub);
    }
  }

  /** No order becomes paid without two entries. */
  lemma PaidMeansLogged(db: Db, c: Catalog, op: Op, id: OrderId)
    requires id < |db.orders| && Apply(db, c, op).audit == db.audit
    ensures id < |Apply(db, c, op).orders|
    ensures Apply(db, c, op).orders[id].status.Paid? ==> db.orders[id].status.Paid?
  {
    OpFollowsEdges(db, c, op);
    PaidOnlyByGrant(db, c, op, id);
    if op.ConfirmCallback? && op.order == id && SameOrder(op.loaded, db.orders[id]) {
      ConfirmIsAtomic(db, c, id, op.loaded, op.charged, op.now, op.broken);
    }
  }

  lemma PaymentEntries(audit: seq<Event>, id: OrderId, sub: SubId, e: Event)
    ensures Entries(audit + [PaymentConfirmed(id), SubscriptionRenewed(sub)], e) ==
              Entries(audit, e) + (if e == PaymentConfirmed(id) then 1 else 0) + (if e == SubscriptionRenewed(sub) then 1 else 0)
  {
    assert audit + [PaymentConfirmed(id), SubscriptionRenewed(sub)] == (audit + [PaymentConfirmed(id)]) + [SubscriptionRenewed(sub)];
    OneMoreEntry(audit, PaymentConfirmed(id), e);
    OneMoreEntry(audit + [PaymentConfirmed(id)], SubscriptionRenewed(sub), e);
  }

  /** One order paid, with its two entries. */
  lemma PaymentAccounted(orders: seq<Order>, audit: seq<Event>, id: OrderId, paid: Order)
    requires Accounts(orders, audit) && id < |orders| && orders[id].status in {Pending, Expired}
    requires paid.status.Paid? && paid.sub == orders[id].sub
    ensures Accounts(orders[id := paid], audit + [PaymentConfirmed(id), SubscriptionRenewed(paid.sub)])
  {
    var (orders', sub) := (orders[id := paid], paid.sub);
    var audit' := audit + [PaymentConfirmed(id), SubscriptionRenewed(sub)];
    forall i: OrderId
      ensures Entries(audit', PaymentConfirmed(i)) == Entries(audit, PaymentConfirmed(i)) + if i == id then 1 else 0
      ensures Entries(audit', ChargebackReceived(i)) == Entries(audit, ChargebackReceived(i))
    {
      PaymentEntries(audit, id, sub, PaymentConfirmed(i));
      PaymentEntries(audit, id, sub, ChargebackReceived(i));
    }
    forall s: SubId
      ensures Entries(audit', SubscriptionRenewed(s)) == Confirmations(orders', audit', s)
    {
      PaymentEntries(audit, id, sub, SubscriptionRenewed(s));
      OneMoreConfirmation(orders, orders', audit, audit', id, s);
    }
  }

  lemma GrantKeepsBalance(db: Db, c: Catalog, op: Op, id: OrderId)
    requires Balanced(db) && id < |db.orders| && Grants(db, c, op, id)
    ensures Balanced(Apply(db, c, op))
  {
    var db' := Apply(db, c, op);
    assert db'.orders == db.orders[id := db'.orders[id]];
    PaymentAccounted(db.orders, db.audit, id, db'.orders[id]);
  }

  /** One order canceled, with its entry. */
  lemma CancelAccounted(orders: seq<Order>, audit: seq<Event>, id: OrderId, canceled: Order)
    requires Accounts(orders, audit) && id < |orders| && canceled.status.Canceled? && canceled.sub == orders[id].sub
    ensures Accounts(orders[id := canceled], audit + [OrderCanceled(id)])
  {
    var (orders', audit') := (orders[id := canceled], audit + [OrderCanceled(id)]);
    forall e: Event
      ensures Entries(audit', e) == Entries(audit, e) + if e == OrderCanceled(id) then 1 else 0
    {
      OneMoreEntry(audit, OrderCanceled(id), e);
    }
    forall s: SubId
      ensures Confirmations(orders', audit', s) == Confirmations(orders, audit, s)
    {
      SameConfirmations(orders, orders', audit, audit', s);
    }
  }

  /** One chargeback of an order that was confirmed and not charged back yet. */
  lemma ChargebackAccounted(orders: seq<Order>, audit: seq<Event>, id: OrderId)
    requires Accounts(orders, audit) && id < |orders| && orders[id].status.Canceled?
    requires Entries(audit, PaymentConfirmed(id)) == 1 && Entries(audit, ChargebackReceived(id)) == 0
    ensures Accounts(orders, audit + [ChargebackReceived(id)])
  {
    var audit' := audit + [ChargebackReceived(id)];
    forall e: Event
      ensures Entries(audit', e) == Entries(audit, e) + if e == ChargebackReceived(id) then 1 else 0
    {
      OneMoreEntry(audit, ChargebackReceived(id), e);
    }
    forall s: SubId
      ensures Confirmations(orders, audit', s) == Confirmations(orders, audit, s)
    {
      SameConfirmations(orders, orders, audit, audit', s);
    }
  }

  lemma ChargebackKeepsBalance(db: Db, c: Catalog, id: OrderId, now: Time, broken: set<NodeId>)
    requires Balanced(db) && id < |db.orders|
    ensures Balanced(Chargeback(db, c, id, now, broken).0)
  {
    var (db', result) := Chargeback(db, c, id, now, broken);
    if result.Done? && result.transitioned {
      var audit' := db.audit + [OrderCanceled(id)];
      assert db'.orders == db.orders[id := db'.orders[id]];
      CancelAccounted(db.orders, db.audit, id, db'.orders[id]);
      if result.downgraded {
        OneMoreEntry(db.audit, OrderCanceled(id), PaymentConfirmed(id));
        OneMoreEntry(db.audit, OrderCanceled(id), ChargebackReceived(id));
        ChargebackAccounted(db'.orders, audit', id);
      }
    }
  }

  lemma OpKeepsBalance(db: Db, c: Catalog, op: Op)
    requires Balanced(db)
    ensures Balanced(Apply(db, c, op))
  {
    if op.ConfirmCallback? && op.order < |db.orders| && Grants(db, c, op, op.order) {
      GrantKeepsBalance(db, c, op, op.order);
    } else if op.ChargebackCallback? && FullAmount(db, op.order, op.charged) {
      ChargebackKeepsBalance(db, c, op.order, op.now, op.broken);
    } else {
      SilentOpKeepsBalance(db, c, op);
    }
  }

  /**
    In every run the log balances: an order has one confirmation if it was ever
    paid and none otherwise, a chargeback only after its confirmation, and every
    subscription has as many renewals as its orders have confirmations.  So no
    run ever commits a part of a payment.
   */
  lemma {:induction false} LedgerBalances(db: Db, c: Catalog, ops: seq<Op>)
    requires Balanced(db)
    ensures Balanced(Run(db, c, ops))
    decreases |ops|
  {
    if ops != [] {
      OpKeepsBalance(db, c, ops[0]);
      LedgerBalances(Apply(db, c, ops[0]), c, ops[1..]);
    }
  }

  /** An empty database balances. */
  lemma EmptyBalances(db: Db)
    requires db.orders == [] && db.audit == []
    ensures Balanced(db)
  {
  }
}
