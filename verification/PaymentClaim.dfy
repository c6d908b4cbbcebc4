/**
  Claim before call: how requests for a payment link avoid a second provider
  transaction for one order.  Any number of requests run at once, each may crash
  at any point, and every other order operation interleaves with them.
 */
module PaymentClaim {
  import opened Options
  import opened Bindings
  import opened Orders
  import OrderRuns

  type Request = nat

  /** What is known about one provider create call. */
  datatype Outcome = InFlight | Rejected | Accepted | Unknown

  datatype ProviderCall = ProviderCall(order: OrderId, outcome: Outcome)

  /** A request between its successful claim and its last statement. */
  datatype Phase =
    | Claimed(order: OrderId)
    | Calling(order: OrderId, call: nat)
    | Clearing(order: OrderId)                                            // rejected: clear the flag next
    | Saving(order: OrderId, call: nat, providerId: nat, deadline: Time)  // created: save the details next

  datatype State = State(db: Db, requests: map<Request, Phase>, calls: seq<ProviderCall>)

  datatype Answer = Reject | Create(providerId: nat, deadline: Time) | Lose

  datatype Step =
    | Claim(r: Request, order: OrderId)
    | IssueCall(r: Request)
    | Receive(r: Request, answer: Answer)
    | ClearFlag(r: Request)
    | Save(r: Request)
    | Crash(r: Request)
    | AttachId(order: OrderId, providerId: nat)
    | OrderOp(op: OrderRuns.Op)

  /** The order operations outside the claim protocol. */
  predicate Elsewhere(op: OrderRuns.Op) {
    !op.SetUncertain? && !op.SaveLink? && !op.AttachId?
  }

  predicate Enabled(s: State, step: Step) {
    match step
    case Claim(r, _) => r !in s.requests
    case IssueCall(r) => r in s.requests && s.requests[r].Claimed?
    case Receive(r, _) => r in s.requests && s.requests[r].Calling? && s.requests[r].call < |s.calls|
    case ClearFlag(r) => r in s.requests && s.requests[r].Clearing?
    case Save(r) => r in s.requests && s.requests[r].Saving?
    case Crash(_) => true
    case AttachId(_, _) => true
    case OrderOp(op) => Elsewhere(op)
  }

  function Received(s: State, r: Request, answer: Answer): State
    requires r in s.requests && s.requests[r].Calling? && s.requests[r].call < |s.calls|
  {
    var Calling(o, i) := s.requests[r];
    match answer
    case Reject => s.(calls := s.calls[i := ProviderCall(o, Rejected)], requests := s.requests[r := Clearing(o)])
    case Create(id, deadline) =>
      s.(calls := s.calls[i := ProviderCall(o, Accepted)], requests := s.requests[r := Saving(o, i, id, deadline)])
    case Lose => s.(calls := s.calls[i := ProviderCall(o, Unknown)], requests := s.requests - {r})
  }

  function Apply(s: State, c: Catalog, step: Step): State
    requires Enabled(s, step)
  {
    match step
    case Claim(r, o) =>
      var (orders, claimed) := MarkUncertain(s.db.orders, o, true);
      if claimed then s.(db := s.db.(orders := orders), requests := s.requests[r := Claimed(o)]) else s
    case IssueCall(r) =>
      var o := s.requests[r].order;
      s.(calls := s.calls + [ProviderCall(o, InFlight)], requests := s.requests[r := Calling(o, |s.calls|)])
    case Receive(r, answer) => Received(s, r, answer)
    case ClearFlag(r) =>
      s.(db := s.db.(orders := MarkUncertain(s.db.orders, s.requests[r].order, false).0), requests := s.requests - {r})
    case Save(r) =>
      var p := s.requests[r];
      s.(db := s.db.(orders := SaveDetails(s.db.orders, p.order, p.providerId, p.deadline).0), requests := s.requests - {r})
    case Crash(r) => s.(requests := s.requests - {r})
    case AttachId(o, id) => s.(db := s.db.(orders := Attach(s.db.orders, o, id).0))
    case OrderOp(op) => s.(db := OrderRuns.Apply(s.db, c, op))
  }

  // --------------------------------------------------------------- invariant

  /** Every call but possibly `except` was definitely rejected. */
  ghost predicate AllRejected(s: State, o: OrderId, except: int) {
    forall i :: 0 <= i < |s.calls| && i != except && s.calls[i].order == o ==> s.calls[i].outcome.Rejected?
  }

  ghost predicate PhaseValid(s: State, p: Phase) {
    && p.order < |s.db.orders| && s.db.orders[p.order].uncertain
    && match p
       case Claimed(o) => AllRejected(s, o, -1)
       case Clearing(o) => AllRejected(s, o, -1)
       case Calling(o, i) => i < |s.calls| && s.calls[i] == ProviderCall(o, InFlight) && AllRejected(s, o, i)
       case Saving(o, i, _, _) => i < |s.calls| && s.calls[i] == ProviderCall(o, Accepted) && AllRejected(s, o, i)
  }

  /** An order with a call that was not rejected can no longer be claimed. */
  predicate Closed(o: Order) {
    o.uncertain || o.providerId.Some?
  }

  /** A local link deadline exists only beside a provider id, never beside the flag. */
  predicate DeadlineSaved(o: Order) {
    o.linkDeadline.Some? ==> o.providerId.Some? && !o.uncertain
  }

  ghost predicate Inv(s: State) {
    && (forall r :: r in s.requests ==> PhaseValid(s, s.requests[r]))
    && (forall r, q :: r in s.requests && q in s.requests && r != q ==> s.requests[r].order != s.requests[q].order)
    && (forall i :: 0 <= i < |s.calls| ==> s.calls[i].order < |s.db.orders|)
    && (forall i :: 0 <= i < |s.calls| && !s.calls[i].outcome.Rejected? ==> Closed(s.db.orders[s.calls[i].order]))
    && (forall i :: 0 <= i < |s.calls| && !s.calls[i].outcome.Rejected? ==> AllRejected(s, s.calls[i].order, i))
    && (forall o :: 0 <= o < |s.db.orders| ==> DeadlineSaved(s.db.orders[o]))
  }

  /** Claim fields are kept, and new orders have no deadline. */
  ghost predicate SameClaimFields(a: seq<Order>, b: seq<Order>) {
    && |a| <= |b|
    && (forall i :: 0 <= i < |a| ==>
          b[i].uncertain == a[i].uncertain && b[i].providerId == a[i].providerId && b[i].linkDeadline == a[i].linkDeadline)
    && (forall i :: |a| <= i < |b| ==> b[i].linkDeadline.None?)
  }

  lemma OrderOpsKeepClaimFields(db: Db, c: Catalog, op: OrderRuns.Op)
    requires Elsewhere(op)
    ensures SameClaimFields(db.orders, OrderRuns.Apply(db, c, op).orders)
  {
  }

  lemma SameFieldsKeepInv(s: State, orders: seq<Order>)
    requires Inv(s) && SameClaimFields(s.db.orders, orders)
    ensures Inv(s.(db := s.db.(orders := orders)))
  {
    var s' := s.(db := s.db.(orders := orders));
    forall r | r in s'.requests
      ensures PhaseValid(s', s'.requests[r])
    {
      assert PhaseValid(s, s.requests[r]);
    }
    forall i | 0 <= i < |s'.calls| && !s'.calls[i].outcome.Rejected?
      ensures AllRejected(s', s'.calls[i].order, i)
    {
      assert AllRejected(s, s.calls[i].order, i);
    }
  }

  /** Nothing in the invariant is about the database but its orders. */
  lemma OnlyOrdersMatter(s: State, db: Db)
    requires db.orders == s.db.orders && Inv(s)
    ensures Inv(s.(db := db))
  {
    var s' := s.(db := db);
    forall r | r in s'.requests
      ensures PhaseValid(s', s'.requests[r])
    {
      assert PhaseValid(s, s.requests[r]);
    }
    forall i | 0 <= i < |s'.calls| && !s'.calls[i].outcome.Rejected?
      ensures AllRejected(s', s'.calls[i].order, i)
    {
      assert AllRejected(s, s.calls[i].order, i);
    }
  }

  lemma OrderOpPreservesInv(s: State, c: Catalog, op: OrderRuns.Op)
    requires Inv(s) && Elsewhere(op)
    ensures Inv(Apply(s, c, OrderOp(op)))
  {
    var db := OrderRuns.Apply(s.db, c, op);
    OrderOpsKeepClaimFields(s.db, c, op);
    SameFieldsKeepInv(s, db.orders);
    OnlyOrdersMatter(s.(db := s.db.(orders := db.orders)), db);
  }

  lemma CrashPreservesInv(s: State, c: Catalog, r: Request)
    requires Inv(s)
    ensures Inv(Apply(s, c, Crash(r)))
  {
    var s' := Apply(s, c, Crash(r));
    forall q | q in s'.requests
      ensures PhaseValid(s', s'.requests[q])
    {
      assert PhaseValid(s, s.requests[q]);
    }
    forall i | 0 <= i < |s.calls| && !s.calls[i].outcome.Rejected?
      ensures AllRejected(s', s.calls[i].order, i)
    {
      assert AllRejected(s, s.calls[i].order, i);
    }
  }

  lemma AttachPreservesInv(s: State, c: Catalog, o: OrderId, id: nat)
    requires Inv(s)
    ensures Inv(Apply(s, c, AttachId(o, id)))
  {
    var s' := Apply(s, c, AttachId(o, id));
    forall q | q in s'.requests
      ensures PhaseValid(s', s'.requests[q])
    {
      assert PhaseValid(s, s.requests[q]);
    }
    forall i | 0 <= i < |s.calls| && !s.calls[i].outcome.Rejected?
      ensures AllRejected(s', s.calls[i].order, i)
    {
      assert AllRejected(s, s.calls[i].order, i);
    }
  }

  lemma EnvironmentPreservesInv(s: State, c: Catalog, step: Step)
    requires Inv(s) && (step.AttachId? || step.Crash?)
    ensures Inv(Apply(s, c, step))
  {
    match step
    case Crash(r) => CrashPreservesInv(s, c, r);
    case AttachId(o, id) => AttachPreservesInv(s, c, o, id);
  }

  lemma ClaimKeepsPhases(s: State, c: Catalog, r: Request, o: OrderId)
    requires Inv(s) && Enabled(s, Claim(r, o))
    ensures var s' := Apply(s, c, Claim(r, o));
            forall q :: q in s'.requests ==> PhaseValid(s', s'.requests[q])
  {
    var s' := Apply(s, c, Claim(r, o));
    if s' != s {
      assert AllRejected(s', o, -1) by {
        assert !Closed(s.db.orders[o]);
      }
      forall q | q in s.requests
        ensures PhaseValid(s', s.requests[q])
      {
        assert PhaseValid(s, s.requests[q]);
      }
    }
  }

  lemma ClaimPreservesInv(s: State, c: Catalog, r: Request, o: OrderId)
    requires Inv(s) && Enabled(s, Claim(r, o))
    ensures Inv(Apply(s, c, Claim(r, o)))
  {
    var s' := Apply(s, c, Claim(r, o));
    ClaimKeepsPhases(s, c, r, o);
    forall i | 0 <= i < |s.calls| && !s.calls[i].outcome.Rejected?
      ensures AllRejected(s', s.calls[i].order, i)
    {
      assert AllRejected(s, s.calls[i].order, i);
    }
    forall q | q in s.requests
      ensures s' != s ==> s.requests[q].order != o
    {
      assert PhaseValid(s, s.requests[q]);
    }
  }

  lemma CallPreservesInv(s: State, c: Catalog, r: Request)
    requires Inv(s) && Enabled(s, IssueCall(r))
    ensures Inv(Apply(s, c, IssueCall(r)))
  {
    var s' := Apply(s, c, IssueCall(r));
    var o := s.requests[r].order;
    assert PhaseValid(s, s.requests[r]);
    assert AllRejected(s', o, |s.calls|);
    forall q | q in s'.requests && q != r
      ensures PhaseValid(s', s'.requests[q])
    {
      assert PhaseValid(s, s.requests[q]);
    }
    forall i | 0 <= i < |s.calls| && !s.calls[i].outcome.Rejected?
      ensures AllRejected(s', s.calls[i].order, i)
    {
      assert AllRejected(s, s.calls[i].order, i);
      assert s.calls[i].order != o;
    }
  }

  /** The answer settles the call in flight and leaves every other request where it was. */
  lemma AnswerKeepsPhases(s: State, c: Catalog, r: Request, answer: Answer)
    requires Inv(s) && Enabled(s, Receive(r, answer))
    ensures var s' := Apply(s, c, Receive(r, answer));
            forall q :: q in s'.requests ==> PhaseValid(s', s'.requests[q])
  {
    var s' := Apply(s, c, Receive(r, answer));
    var Calling(o, k) := s.requests[r];
    assert PhaseValid(s, s.requests[r]);
    assert AllRejected(s', o, k);
    assert answer.Reject? ==> AllRejected(s', o, -1);
    forall q | q in s'.requests && q != r
      ensures PhaseValid(s', s'.requests[q])
    {
      assert PhaseValid(s, s.requests[q]);
    }
  }

  lemma AnswerPreservesInv(s: State, c: Catalog, r: Request, answer: Answer)
    requires Inv(s) && Enabled(s, Receive(r, answer))
    ensures Inv(Apply(s, c, Receive(r, answer)))
  {
    var s' := Apply(s, c, Receive(r, answer));
    var Calling(o, k) := s.requests[r];
    AnswerKeepsPhases(s, c, r, answer);
    assert PhaseValid(s, s.requests[r]);
    forall i | 0 <= i < |s'.calls| && !s'.calls[i].outcome.Rejected?
      ensures AllRejected(s', s'.calls[i].order, i)
    {
      assert i != k ==> AllRejected(s, s.calls[i].order, i);
    }
  }

  lemma EndPreservesInv(s: State, c: Catalog, step: Step)
    requires Inv(s) && Enabled(s, step) && (step.ClearFlag? || step.Save?)
    ensures Inv(Apply(s, c, step))
  {
    var s' := Apply(s, c, step);
    var r := step.r;
    assert PhaseValid(s, s.requests[r]);
    forall q | q in s'.requests
      ensures PhaseValid(s', s'.requests[q])
    {
      assert PhaseValid(s, s.requests[q]);
    }
    forall i | 0 <= i < |s'.calls| && !s'.calls[i].outcome.Rejected?
      ensures Closed(s'.db.orders[s'.calls[i].order]) && AllRejected(s', s'.calls[i].order, i)
    {
      assert AllRejected(s, s.calls[i].order, i);
    }
  }

  lemma InvPreserved(s: State, c: Catalog, step: Step)
    requires Inv(s) && Enabled(s, step)
    ensures Inv(Apply(s, c, step))
  {
    match step
    case Claim(r, o) => ClaimPreservesInv(s, c, r, o);
    case IssueCall(r) => CallPreservesInv(s, c, r);
    case Receive(r, answer) => AnswerPreservesInv(s, c, r, answer);
    case ClearFlag(_) => EndPreservesInv(s, c, step);
    case Save(_) => EndPreservesInv(s, c, step);
    case OrderOp(op) => OrderOpPreservesInv(s, c, op);
    case _ => EnvironmentPreservesInv(s, c, step);
  }

  // ---------------------------------------------------------------- all runs

  ghost predicate Reaches(s: State, c: Catalog, steps: seq<Step>, s': State)
    decreases |steps|
  {
    if steps == [] then s' == s
    else Enabled(s, steps[0]) && Reaches(Apply(s, c, steps[0]), c, steps[1..], s')
  }

  lemma {:induction false} InvOverRuns(s: State, c: Catalog, steps: seq<Step>, s': State)
    requires Inv(s) && Reaches(s, c, steps, s')
    ensures Inv(s')
    decreases |steps|
  {
    if steps != [] {
      InvPreserved(s, c, steps[0]);
      InvOverRuns(Apply(s, c, steps[0]), c, steps[1..], s');
    }
  }

  /**
    In every run each order has at most one provider call whose outcome is not a
    definite rejection, and while there is one the order cannot be claimed again.
   */
  lemma OneUnrejectedCall(db: Db, c: Catalog, steps: seq<Step>, s: State, i: nat, j: nat)
    requires db.orders == [] && Reaches(State(db, map[], []), c, steps, s)
    requires i < |s.calls| && j < |s.calls| && s.calls[i].order == s.calls[j].order
    requires !s.calls[i].outcome.Rejected? && !s.calls[j].outcome.Rejected?
    ensures i == j
    ensures !MarkUncertain(s.db.orders, s.calls[i].order, true).1
  {
    InvOverRuns(State(db, map[], []), c, steps, s);
  }

  /** An order whose creation is uncertain has no local deadline, so no lookup or sweep expires it by time. */
  lemma UncertainNeverTimesOut(db: Db, c: Catalog, steps: seq<Step>, s: State, o: OrderId, now: Time)
    requires db.orders == [] && Reaches(State(db, map[], []), c, steps, s)
    requires o < |s.db.orders| && s.db.orders[o].uncertain
    ensures !LinkExpired(s.db.orders[o], now)
  {
    InvOverRuns(State(db, map[], []), c, steps, s);
  }

  // ---------------------------------------------------------------- the code

  datatype LinkResult =
    | Link(order: OrderId)             // a saved link that is still valid
    | InProgress(order: OrderId)
    | NeedsReconciliation(order: OrderId)
    | NotForSale
    | ProviderRefused(order: OrderId)
    | ProviderUncertain(order: OrderId)

  predicate HasLiveLink(o: Order, now: Time) {
    o.providerId.Some? && o.linkDeadline.Some? && now < o.linkDeadline.value
  }

  /** The pending intent of this purchase, unless its link ran out. */
  function Standing(orders: seq<Order>, sub: SubId, product: ProductId, now: Time): (r: Option<OrderId>)
    ensures r.Some? ==> r.value < |orders| && IsIntent(orders[r.value], sub, product)
  {
    var found := FirstIntent(orders, sub, product);
    if found.Some? && orders[found.value].linkDeadline.Some? && orders[found.value].linkDeadline.value <= now then None else found
  }

  /** Nothing keeps the provider from being called: no standing intent, or one with neither flag nor id. */
  predicate Free(orders: seq<Order>, sub: SubId, product: ProductId, now: Time) {
    var standing := Standing(orders, sub, product, now);
    standing.Some? ==> !orders[standing.value].uncertain && orders[standing.value].providerId.None?
  }

  /** The answer to a request, told from the orders before it, and whether the provider was called. */
  predicate AnswersExactly(orders: seq<Order>, sub: SubId, product: ProductId, forSale: bool, now: Time,
                           result: LinkResult, called: bool)
  {
    var (standing, free) := (Standing(orders, sub, product, now), Free(orders, sub, product, now));
    && (called <==> forSale && free)
    && (result.NotForSale? <==> !forSale && free)
    && (result.NeedsReconciliation? <==> standing.Some? && orders[standing.value].uncertain)
    && (result.InProgress? <==>
          standing.Some? && !orders[standing.value].uncertain && orders[standing.value].providerId.Some?
          && orders[standing.value].linkDeadline.None?)
    && (result.Link? && !called <==>
          standing.Some? && !orders[standing.value].uncertain && orders[standing.value].providerId.Some?
          && orders[standing.value].linkDeadline.Some?)
    && (standing.Some? && !result.NotForSale? ==> result.order == standing.value)
    && (standing.None? && !result.NotForSale? ==> result.order == |orders|)
  }

  class OrderService {
    const store: OrderStore
    var calls: seq<OrderId>  // provider create calls issued

    constructor (store: OrderStore)
      ensures this.store == store && calls == []
    {
      this.store, calls := store, [];
    }

    /** The intent requestPayment works on: looked up, or created for a product on sale. */
    method ResolveIntent(sub: SubId, product: ProductId, price: nat, forSale: bool, now: Time) returns (r: Option<OrderId>)
      modifies store`orders
      ensures r.Some? ==> r.value < |store.orders| && IsIntent(store.orders[r.value], sub, product)
      ensures r.Some? && store.orders[r.value].linkDeadline.Some? ==>
                store.orders[r.value].uncertain || now < store.orders[r.value].linkDeadline.value
      ensures r.None? ==> !forSale
      ensures OrderRuns.UniqueIntents(old(store.orders)) ==>
                var standing := Standing(old(store.orders), sub, product, now);
                && (standing.Some? ==> r == standing && store.orders == old(store.orders))
                && (standing.None? ==>
                      if forSale then r == Some(|old(store.orders)|) && |store.orders| == |old(store.orders)| + 1
                      else r.None?)
      ensures SameClaimFields(old(store.orders), store.orders)
      ensures forall i :: |old(store.orders)| <= i < |store.orders| ==> store.orders[i] == NewOrder(sub, product, price)
    {
      var found := store.FindPendingPaymentOrder(sub, product, now);
      if found.Some? && store.orders[found.value].status.Pending? {
        return found;
      }
      if !forSale {
        return None;
      }
      var created := store.FindOrCreatePendingPaymentOrder(sub, product, price, now);
      return Some(created);
    }

    /**
      requestPayment run without interference.  The provider is called at most
      once, only for an order with neither flag nor id, and the order is then
      reusable exactly if the provider definitely refused.
     */
    method RequestPayment(sub: SubId, product: ProductId, price: nat, forSale: bool, now: Time, answer: Answer)
      returns (result: LinkResult)
      modifies this, store`orders
      ensures OrderRuns.UniqueIntents(old(store.orders)) ==>
                AnswersExactly(old(store.orders), sub, product, forSale, now, result, calls != old(calls))
      ensures calls == old(calls) || (|calls| == |old(calls)| + 1 && calls[..|old(calls)|] == old(calls))
      ensures calls == old(calls) ==> SameClaimFields(old(store.orders), store.orders)
      ensures calls != old(calls) ==>
                var o := calls[|old(calls)|];
                && o < |store.orders| && IsIntent(store.orders[o], sub, product)
                && (o < |old(store.orders)| ==> !Closed(old(store.orders)[o]))
                && (Closed(store.orders[o]) <==> !answer.Reject?)
                && (store.orders[o].uncertain <==> answer.Lose?)
                && (answer.Create? ==> store.orders[o].providerId == Some(answer.providerId)
                                       && store.orders[o].linkDeadline == Some(answer.deadline))
                && result == (match answer
                              case Reject => ProviderRefused(o)
                              case Lose => ProviderUncertain(o)
                              case Create(_, _) => Link(o))
      ensures result.Link? && calls == old(calls) ==> result.order < |store.orders| && HasLiveLink(store.orders[result.order], now)
    {
      var intent := ResolveIntent(sub, product, price, forSale, now);
      if intent.None? {
        return NotForSale;
      }
      var id := intent.value;
      if store.orders[id].uncertain {
        return NeedsReconciliation(id);
      }
      if HasLiveLink(store.orders[id], now) {
        return Link(id);
      }
      if store.orders[id].providerId.Some? {
        return InProgress(id);
      }
      if !forSale {
        return NotForSale;
      }
      var claimed := store.MarkPaymentCreationUncertain(id, true);
      if !claimed {
        return InProgress(id);
      }
      calls := calls + [id];
      match answer {
        case Reject =>
          var _ := store.MarkPaymentCreationUncertain(id, false);
          return ProviderRefused(id);
        case Lose =>
          return ProviderUncertain(id);
        case Create(providerId, deadline) =>
          var _ := store.SavePaymentDetails(id, providerId, deadline);
          return Link(id);
      }
    }
  }
}
