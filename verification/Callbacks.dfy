/**
  Provider callbacks: which order a transaction id means, also when the callback
  overtakes the saving of that id, and why replays find the same order settled.
 */
module Callbacks {
  import opened Options
  import opened Bindings
  import opened Orders
  import opened OrderRuns

  datatype Callback = Callback(providerId: nat, payload: Option<OrderId>, charged: int, now: Time, broken: set<NodeId>)

  // ----------------------------------------------------------- specification

  /** GetOrderByProviderPaymentID: the first order with this transaction id. */
  function Payee(orders: seq<Order>, providerId: nat): (r: Option<OrderId>)
    ensures r.Some? ==> r.value < |orders| && orders[r.value].providerId == Some(providerId)
    ensures r.Some? ==> forall i :: 0 <= i < r.value ==> orders[i].providerId != Some(providerId)
    ensures r.None? ==> forall i :: 0 <= i < |orders| ==> orders[i].providerId != Some(providerId)
  {
    if orders == [] then None
    else
      var last := |orders| - 1;
      var earlier := Payee(orders[..last], providerId);
      if earlier.Some? then earlier
      else if orders[last].providerId == Some(providerId) then Some(last) else None
  }

  /** The order a confirmation is for: by id, else by payload if that order has no id yet. */
  function Recipient(orders: seq<Order>, cb: Callback): Option<OrderId> {
    var payee := Payee(orders, cb.providerId);
    if payee.Some? then payee
    else if cb.payload.Some? && cb.payload.value < |orders| && orders[cb.payload.value].providerId.None? then cb.payload
    else None
  }

  /** A confirmation attaches a missing id before it checks anything else. */
  function AfterCallback(db: Db, c: Catalog, cb: Callback): (Db, Confirmation) {
    var id := Recipient(db.orders, cb);
    if id.None? then (db, OrderMissing)
    else
      var attached := db.(orders := Attach(db.orders, id.value, cb.providerId).0);
      ConfirmPayment(attached, c, id.value, attached.orders[id.value], cb.charged, cb.now, cb.broken)
  }

  // ---------------------------------------------------------------- the code

  class CallbackService {
    const store: OrderStore

    constructor (store: OrderStore)
      ensures this.store == store
    {
      this.store := store;
    }

    /** orderByCallbackPayload: the payload's order, with the id attached, unless it has another. */
    method OrderByCallbackPayload(payload: Option<OrderId>, providerId: nat) returns (id: Option<OrderId>)
      modifies store`orders
      ensures id == if payload.Some? && payload.value < |old(store.orders)| && old(store.orders)[payload.value].providerId.None?
                    then payload else None
      ensures store.orders == if id.Some? then Attach(old(store.orders), id.value, providerId).0 else old(store.orders)
    {
      if payload.None? || payload.value >= |store.orders| || store.orders[payload.value].providerId.Some? {
        return None;
      }
      var attached := store.AttachProviderPaymentID(payload.value, providerId);
      id := if attached then payload else None;
    }

    method ConfirmPayment(cb: Callback) returns (result: Confirmation)
      modifies store
      ensures store.Snapshot() == AfterCallback(old(store.Snapshot()), store.catalog, cb).0
      ensures result.Activated? <==> AfterCallback(old(store.Snapshot()), store.catalog, cb).1.Activated?
    {
      var id := Payee(store.orders, cb.providerId);
      if id.None? {
        id := OrderByCallbackPayload(cb.payload, cb.providerId);
        if id.None? {
          return OrderMissing;
        }
      }
      var order := store.orders[id.value];
      if !Accepts(order, cb.charged, cb.now) || order.product !in store.catalog.products {
        return AlreadySettled;
      }
      var product := store.catalog.products[order.product];
      result := store.ConfirmOrderPaidCAS(id.value, order.sub, order.product, product, cb.now, cb.broken);
    }

    /** CancelPaymentByProvider: a cancellation of a pending order or a chargeback. */
    method CancelPayment(providerId: nat, chargeback: bool, charged: int, now: Time, broken: set<NodeId>)
      modifies store
      ensures var id := Payee(old(store.orders), providerId);
              store.Snapshot() ==
                if id.None? then old(store.Snapshot())
                else Apply(old(store.Snapshot()), store.catalog,
                           if chargeback then ChargebackCallback(id.value, charged, now, broken) else CancelCallback(id.value, charged))
    {
      var id := Payee(store.orders, providerId);
      if id.None? || charged < store.orders[id.value].amount {
        return;
      }
      if chargeback {
        var _ := store.CancelPaidOrderAndDowngradeCAS(id.value, now, broken);
      } else {
        var _ := store.CancelOrderCAS(id.value, {Pending});
      }
    }
  }

  // -------------------------------------------------------------- properties

  /** No operation of the run gives this transaction id to another order. */
  predicate NotReused(ops: seq<Op>, id: OrderId, providerId: nat) {
    forall i :: 0 <= i < |ops| ==>
      && (ops[i].SaveLink? && ops[i].order != id ==> ops[i].providerId != providerId)
      && (ops[i].AttachId? && ops[i].order != id ==> ops[i].providerId != providerId)
  }

  /** An order that left pending keeps its transaction id, and no other order gets one out of nothing. */
  lemma IdsStay(db: Db, c: Catalog, op: Op, id: OrderId, providerId: nat)
    requires id < |db.orders| && NotReused([op], id, providerId)
    requires Payee(db.orders, providerId) == Some(id) && !db.orders[id].status.Pending?
    ensures id < |Apply(db, c, op).orders| && !Apply(db, c, op).orders[id].status.Pending?
    ensures Payee(Apply(db, c, op).orders, providerId) == Some(id)
  {
    var (orders, orders') := (db.orders, Apply(db, c, op).orders);
    OpFollowsEdges(db, c, op);
    assert [op][0] == op;
    SettledIdStays(db, c, op, id);
    forall i | 0 <= i < id
      ensures orders'[i].providerId != Some(providerId)
    {
      NoIdFromNothing(db, c, op, i, providerId);
    }
  }

  lemma SettledIdStays(db: Db, c: Catalog, op: Op, id: OrderId)
    requires id < |db.orders| && !db.orders[id].status.Pending? && db.orders[id].providerId.Some?
    ensures id < |Apply(db, c, op).orders| && Apply(db, c, op).orders[id].providerId == db.orders[id].providerId
  {
    OpFollowsEdges(db, c, op);
  }

  lemma NoIdFromNothing(db: Db, c: Catalog, op: Op, i: OrderId, providerId: nat)
    requires i < |db.orders| && db.orders[i].providerId != Some(providerId)
    requires op.SaveLink? && op.order == i ==> op.providerId != providerId
    requires op.AttachId? && op.order == i ==> op.providerId != providerId
    ensures i < |Apply(db, c, op).orders| && Apply(db, c, op).orders[i].providerId != Some(providerId)
  {
    OpFollowsEdges(db, c, op);
  }

  lemma {:induction false} IdsStayOverRun(db: Db, c: Catalog, ops: seq<Op>, id: OrderId, providerId: nat)
    requires id < |db.orders| && NotReused(ops, id, providerId)
    requires Payee(db.orders, providerId) == Some(id) && !db.orders[id].status.Pending?
    ensures id < |Run(db, c, ops).orders| && Payee(Run(db, c, ops).orders, providerId) == Some(id)
    decreases |ops|
  {
    if ops != [] {
      IdsStay(db, c, ops[0], id, providerId);
      IdsStayOverRun(Apply(db, c, ops[0]), c, ops[1..], id, providerId);
    }
  }

  /**
    Whom a callback is for: the order with its id, if any; else the payload's order
    as long as that has no id, which is how a callback that overtook the saving of
    its id arrives; else nobody.
   */
  lemma RecipientExactly(orders: seq<Order>, cb: Callback, i: OrderId)
    requires i < |orders|
    ensures var known := exists j :: 0 <= j < |orders| && orders[j].providerId == Some(cb.providerId);
            && (Recipient(orders, cb) == Some(i) <==>
                  if known then
                    orders[i].providerId == Some(cb.providerId) && forall j :: 0 <= j < i ==> orders[j].providerId != Some(cb.providerId)
                  else cb.payload == Some(i) && orders[i].providerId.None?)
            && (Recipient(orders, cb).None? <==>
                  !known && !(cb.payload.Some? && cb.payload.value < |orders| && orders[cb.payload.value].providerId.None?))
  {
    var payee := Payee(orders, cb.providerId);
  }

  /** A callback that overtook the saving of its id pays the payload's order, in full and in time, and leaves the id with it. */
  lemma OvertakingCallbackPays(db: Db, c: Catalog, cb: Callback, i: OrderId)
    requires i < |db.orders| && cb.payload == Some(i) && db.orders[i].status.Pending? && db.orders[i].providerId.None?
    requires forall j :: 0 <= j < |db.orders| ==> db.orders[j].providerId != Some(cb.providerId)
    requires cb.charged >= db.orders[i].amount && Activatable(db, c, db.orders[i], cb.broken)
    ensures var (db', result) := AfterCallback(db, c, cb);
            result.Activated? && i < |db'.orders| && db'.orders[i].status.Paid? && db'.orders[i].providerId == Some(cb.providerId)
  {
    RecipientExactly(db.orders, cb, i);
    var attached := db.(orders := Attach(db.orders, i, cb.providerId).0);
    ConfirmIsAtomic(attached, c, i, attached.orders[i], cb.charged, cb.now, cb.broken);
  }

  /** After a callback its transaction id means the order it was for, payload or not. */
  lemma CallbackAttaches(db: Db, c: Catalog, cb: Callback)
    requires Recipient(db.orders, cb).Some?
    ensures Payee(AfterCallback(db, c, cb).0.orders, cb.providerId) == Recipient(db.orders, cb)
  {
    var id := Recipient(db.orders, cb).value;
    var attached := db.(orders := Attach(db.orders, id, cb.providerId).0);
    assert attached.orders[id].providerId == Some(cb.providerId);
    ConfirmKeepsIds(attached, c, id, attached.orders[id], cb);
    var orders' := AfterCallback(db, c, cb).0.orders;
    assert orders'[id].providerId == Some(cb.providerId);
    assert forall i :: 0 <= i < id ==> orders'[i].providerId == db.orders[i].providerId;
  }

  lemma ConfirmKeepsIds(db: Db, c: Catalog, id: OrderId, loaded: Order, cb: Callback)
    ensures var orders' := ConfirmPayment(db, c, id, loaded, cb.charged, cb.now, cb.broken).0.orders;
            |orders'| == |db.orders| && forall i :: 0 <= i < |orders'| ==> orders'[i].providerId == db.orders[i].providerId
  {
  }

  /**
    Once a callback has paid an order, every replay of its transaction, with any
    payload, amount and time and after any operations that do not give the id to
    another order, finds that order and changes nothing.  The operations may save
    or attach the same id for the order itself, as a request that the callback
    overtook does.
   */
  lemma ReplaysChangeNothing(db: Db, c: Catalog, cb: Callback, ops: seq<Op>, replay: Callback)
    requires AfterCallback(db, c, cb).1.Activated? && replay.providerId == cb.providerId
    requires NotReused(ops, Recipient(db.orders, cb).value, cb.providerId)
    ensures var at := Run(AfterCallback(db, c, cb).0, c, ops);
            && Recipient(at.orders, replay) == Recipient(db.orders, cb)
            && AfterCallback(at, c, replay).0 == at
  {
    var id := Recipient(db.orders, cb).value;
    var paid := AfterCallback(db, c, cb).0;
    CallbackAttaches(db, c, cb);
    assert paid.orders[id].status.Paid?;
    IdsStayOverRun(paid, c, ops, id, cb.providerId);
    RunFollowsPaths(paid, c, ops);
    var at := Run(paid, c, ops);
    assert Attach(at.orders, id, cb.providerId).0 == at.orders;
  }

  /** Underpaid or late, a callback that overtook the saving of its id still leaves the id with its order. */
  lemma RejectedCallbackStillAttaches(db: Db, c: Catalog, cb: Callback)
    requires !AfterCallback(db, c, cb).1.Activated? && Recipient(db.orders, cb).Some?
    ensures var id := Recipient(db.orders, cb).value;
            AfterCallback(db, c, cb).0 == db.(orders := db.orders[id := db.orders[id].(providerId := Some(cb.providerId))])
  {
    var id := Recipient(db.orders, cb).value;
    var attached := db.(orders := Attach(db.orders, id, cb.providerId).0);
    ConfirmIsAtomic(attached, c, id, attached.orders[id], cb.charged, cb.now, cb.broken);
    assert db.orders[id].providerId == Some(cb.providerId) ==> db.orders[id := db.orders[id].(providerId := Some(cb.providerId))] == db.orders;
  }
}
