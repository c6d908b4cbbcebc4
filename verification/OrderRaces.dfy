/**
  What an operation may do with a row it loaded earlier: confirmations that check
  an old order, and revocations and reanimations that write back an old or a
  blank subscription.  Any operations run between the load and the write.
 */
module OrderRaces {
  import opened Options
  import opened Bindings
  import opened PlanReconcile
  import opened Orders
  import opened OrderRuns

  // ------------------------------------------------------------- late grants

  /** A row loaded earlier is still a row of its order, whatever ran since. */
  lemma {:induction false} LoadedRowMatches(db: Db, c: Catalog, ops: seq<Op>, id: OrderId)
    requires id < |db.orders|
    ensures id < |Run(db, c, ops).orders| && SameOrder(db.orders[id], Run(db, c, ops).orders[id])
    decreases |ops|
  {
    if ops != [] {
      OpFollowsEdges(db, c, ops[0]);
      LoadedRowMatches(Apply(db, c, ops[0]), c, ops[1..], id);
    }
  }

  /** Some lookup, request or sweep in the run takes the pending order to expired. */
  predicate ExpiresDuring(db: Db, c: Catalog, ops: seq<Op>, id: OrderId)
    requires id < |db.orders|
    decreases |ops|
  {
    ops != [] &&
    (OpFollowsEdges(db, c, ops[0]);
     var db' := Apply(db, c, ops[0]);
     || (db.orders[id].status.Pending? && db'.orders[id].status.Expired?
         && (ops[0].LookupIntent? || ops[0].RequestIntent? || ops[0].SweepExpire?))
     || ExpiresDuring(db', c, ops[1..], id))
  }

  /** Nothing but a lookup, a request or a sweep expires an order, and nothing but a grant ends that. */
  lemma {:induction false} ExpiredExactly(db: Db, c: Catalog, ops: seq<Op>, id: OrderId)
    requires id < |db.orders|
    ensures id < |Run(db, c, ops).orders|
    ensures db.orders[id].status in {Paid, Canceled} ==> !ExpiresDuring(db, c, ops, id)
    ensures db.orders[id].status.Expired? ==> (Run(db, c, ops).orders[id].status.Expired? <==> GrantCount(db, c, ops, id) == 0)
    ensures db.orders[id].status.Pending? ==>
              (Run(db, c, ops).orders[id].status.Expired? <==> ExpiresDuring(db, c, ops, id) && GrantCount(db, c, ops, id) == 0)
    decreases |ops|
  {
    if ops != [] {
      OpFollowsEdges(db, c, ops[0]);
      PaidOnlyByGrant(db, c, ops[0], id);
      var next := Apply(db, c, ops[0]);
      ExpiredExactly(next, c, ops[1..], id);
      AtMostOneGrant(next, c, ops[1..], id);
      RunFollowsPaths(next, c, ops[1..]);
    }
  }

  lemma DeadlineKept(db: Db, c: Catalog, op: Op, id: OrderId)
    requires id < |db.orders| && !db.orders[id].status.Pending?
    ensures id < |Apply(db, c, op).orders| && Apply(db, c, op).orders[id].linkDeadline == db.orders[id].linkDeadline
    ensures !Apply(db, c, op).orders[id].status.Pending?
  {
    OpFollowsEdges(db, c, op);
  }

  /** Once an order has left pending, its deadline is final. */
  lemma {:induction false} DeadlineIsFinal(db: Db, c: Catalog, ops: seq<Op>, id: OrderId)
    requires id < |db.orders| && !db.orders[id].status.Pending?
    ensures id < |Run(db, c, ops).orders| && Run(db, c, ops).orders[id].linkDeadline == db.orders[id].linkDeadline
    decreases |ops|
  {
    if ops != [] {
      DeadlineKept(db, c, ops[0], id);
      DeadlineIsFinal(Apply(db, c, ops[0]), c, ops[1..], id);
    }
  }

  /**
    The transaction does not look at the time again.  Between the load and the
    transaction `ops` run; the order is granted although its row would no longer
    pass the checks exactly when it was loaded pending, a lookup, request or sweep
    then expired it, nothing else paid it, and its grace is over.
   */
  lemma GrantedPastGraceExactly(db: Db, c: Catalog, ops: seq<Op>, id: OrderId, charged: int, now: Time, broken: set<NodeId>)
    requires id < |db.orders|
    ensures id < |Run(db, c, ops).orders|
    ensures var (o, at) := (db.orders[id], Run(db, c, ops));
            Grants(at, c, ConfirmCallback(id, o, charged, now, broken), id) && !Accepts(at.orders[id], charged, now) <==>
              && charged >= o.amount && Activatable(at, c, o, broken)
              && o.status.Pending? && ExpiresDuring(db, c, ops, id) && GrantCount(db, c, ops, id) == 0
              && PastGrace(at.orders[id], now)
  {
    LoadedRowMatches(db, c, ops, id);
    ExpiredExactly(db, c, ops, id);
    RunFollowsPaths(db, c, ops);
    if !db.orders[id].status.Pending? {
      DeadlineIsFinal(db, c, ops, id);
    }
    ConfirmIsAtomic(Run(db, c, ops), c, id, db.orders[id], charged, now, broken);
  }

  /** It does happen: the user asks for a link between the load and the transaction. */
  lemma LateGrantHappens(db: Db, c: Catalog, id: OrderId, charged: int, now: Time)
    requires id < |db.orders| && db.orders[id].status.Pending? && UniqueIntents(db.orders)
    requires db.orders[id].linkDeadline.Some? && PastGrace(db.orders[id], now)
    requires charged >= db.orders[id].amount && Activatable(db, c, db.orders[id], {})
    ensures var o := db.orders[id];
            var at := Run(db, c, [LookupIntent(o.sub, o.product, now)]);
            && id < |at.orders|
            && Grants(at, c, ConfirmCallback(id, o, charged, now, {}), id) && !Accepts(at.orders[id], charged, now)
  {
    var o := db.orders[id];
    var ops := [LookupIntent(o.sub, o.product, now)];
    assert ops[1..] == [];
    assert Run(db, c, ops) == Apply(db, c, ops[0]);
    assert IsIntent(db.orders[id], o.sub, o.product);
    assert FirstIntent(db.orders, o.sub, o.product) == Some(id);
  }

  // ------------------------------------------------------------ stale writes

  /** The operation takes effect on the subscription's row. */
  predicate Touches(db: Db, c: Catalog, op: Op, sub: SubId) {
    match op
    case ConfirmCallback(id, _, _, _, _) => Grants(db, c, op, id) && id < |db.orders| && db.orders[id].sub == sub
    case ChargebackCallback(id, charged, now, broken) =>
      && FullAmount(db, id, charged) && db.orders[id].sub == sub
      && Chargeback(db, c, id, now, broken).1 == Done(true, true, true)
    case ExpireSubscription(s, now, broken) => s == sub && ExpireSub(db, c, s, now, broken).1.Downgraded?
    case Revoke(s, _) => s == sub && sub in db.subs
    case Reanimate(s) => s == sub && sub in db.subs
    case _ => false
  }

  predicate TouchedDuring(db: Db, c: Catalog, ops: seq<Op>, sub: SubId)
    decreases |ops|
  {
    ops != [] && (Touches(db, c, ops[0], sub) || TouchedDuring(Apply(db, c, ops[0]), c, ops[1..], sub))
  }

  lemma UntouchedStays(db: Db, c: Catalog, op: Op, sub: SubId)
    ensures sub in Apply(db, c, op).subs <==> sub in db.subs
    ensures sub in db.subs && !Touches(db, c, op, sub) ==> Apply(db, c, op).subs[sub] == db.subs[sub]
  {
  }

  lemma {:induction false} UntouchedOverRun(db: Db, c: Catalog, ops: seq<Op>, sub: SubId)
    ensures sub in Run(db, c, ops).subs <==> sub in db.subs
    ensures sub in db.subs && !TouchedDuring(db, c, ops, sub) ==> Run(db, c, ops).subs[sub] == db.subs[sub]
    decreases |ops|
  {
    if ops != [] {
      UntouchedStays(db, c, ops[0], sub);
      UntouchedOverRun(Apply(db, c, ops[0]), c, ops[1..], sub);
    }
  }

  /** The row the operation writes. */
  function WrittenRow(db: Db, c: Catalog, op: Op, sub: SubId): Subscription
    requires Touches(db, c, op, sub)
  {
    match op
    case ConfirmCallback(id, loaded, _, now, _) => Renewed(now, db.subs[sub], loaded.product, c.products[loaded.product])
    case Revoke(_, row) => row.(status := SubRevoked)
    case _ => OnFreePlan(c)
  }

  lemma TouchWrites(db: Db, c: Catalog, op: Op, sub: SubId)
    requires Touches(db, c, op, sub)
    ensures sub in Apply(db, c, op).subs && Apply(db, c, op).subs[sub] == WrittenRow(db, c, op, sub)
  {
  }

  /** What the last operation that took effect on the subscription wrote. */
  function LastWritten(db: Db, c: Catalog, ops: seq<Op>, sub: SubId): Option<Subscription>
    decreases |ops|
  {
    if ops == [] then None
    else
      var later := LastWritten(Apply(db, c, ops[0]), c, ops[1..], sub);
      if later.Some? then later
      else if Touches(db, c, ops[0], sub) then Some(WrittenRow(db, c, ops[0], sub))
      else None
  }

  lemma {:induction false} LastWriteStands(db: Db, c: Catalog, ops: seq<Op>, sub: SubId)
    requires sub in db.subs
    ensures sub in Run(db, c, ops).subs
    ensures LastWritten(db, c, ops, sub).Some? <==> TouchedDuring(db, c, ops, sub)
    ensures Run(db, c, ops).subs[sub] ==
              if LastWritten(db, c, ops, sub).Some? then LastWritten(db, c, ops, sub).value else db.subs[sub]
    decreases |ops|
  {
    if ops != [] {
      UntouchedStays(db, c, ops[0], sub);
      if Touches(db, c, ops[0], sub) {
        TouchWrites(db, c, ops[0], sub);
      }
      LastWriteStands(Apply(db, c, ops[0]), c, ops[1..], sub);
    }
  }

  predicate SameButStatus(a: Subscription, b: Subscription) {
    a.(status := b.status) == b
  }

  /**
    A revocation writes back the row it loaded, after `ops` ran.  It changes the
    status alone exactly when no operation took effect on the subscription, or the
    last one that did wrote the loaded row but for the status: the bought row, the
    free one, or another revocation's.
   */
  lemma RevocationIsCleanExactly(db: Db, c: Catalog, ops: seq<Op>, sub: SubId)
    requires sub in db.subs
    ensures sub in Run(db, c, ops).subs
    ensures var (loaded, at) := (db.subs[sub], Run(db, c, ops));
            var (end, last) := (Apply(at, c, Revoke(sub, loaded)), LastWritten(db, c, ops, sub));
            && end == at.(subs := at.subs[sub := loaded.(status := SubRevoked)])
            && (end.subs[sub] == at.subs[sub].(status := SubRevoked) <==> last.None? || SameButStatus(last.value, loaded))
  {
    LastWriteStands(db, c, ops, sub);
    WrittenBack(Run(db, c, ops), c, sub, db.subs[sub]);
  }

  lemma WrittenBack(at: Db, c: Catalog, sub: SubId, loaded: Subscription)
    requires sub in at.subs
    ensures var end := Apply(at, c, Revoke(sub, loaded));
            && end == at.(subs := at.subs[sub := loaded.(status := SubRevoked)])
            && (end.subs[sub] == at.subs[sub].(status := SubRevoked) <==> SameButStatus(at.subs[sub], loaded))
  {
  }

  lemma {:induction false} RunInTwo(db: Db, c: Catalog, a: seq<Op>, b: seq<Op>)
    ensures Run(db, c, a + b) == Run(Run(db, c, a), c, b)
    decreases |a|
  {
    if a == [] {
      assert a + b == b;
    } else {
      assert (a + b)[1..] == a[1..] + b;
      RunInTwo(Apply(db, c, a[0]), c, a[1..], b);
    }
  }

  /** A row of a paying subscription, as the confirmation of this order at `now` leaves it. */
  predicate PaidBy(row: Subscription, o: Order, now: Time) {
    row.status.SubActive? && row.product == Some(o.product) && row.startedAt == Some(now)
  }

  /**
    An order of the subscription is confirmed between the load and the write-back,
    with any operations before and after it.  The order never returns to an unpaid
    state, but the revoked row is the loaded one: what was bought survives exactly
    if the loaded row already said it all.  A reanimation keeps none of it.
   */
  lemma StaleWriteErasesPayment(db: Db, c: Catalog, before: seq<Op>, op: Op, after: seq<Op>, id: OrderId)
    requires var mid := Run(db, c, before);
             Grants(mid, c, op, id) && id < |mid.orders| && mid.orders[id].sub in db.subs
    ensures var mid := Run(db, c, before);
            var (o, bought) := (mid.orders[id], Apply(mid, c, op));
            var at := Run(db, c, before + [op] + after);
            && o.sub in bought.subs && PaidBy(bought.subs[o.sub], o, op.now)
            && id < |at.orders| && at.orders[id].status in {Paid, Canceled}
            && var revoked := Apply(at, c, Revoke(o.sub, db.subs[o.sub]));
            && revoked.orders == at.orders && o.sub in revoked.subs
            && (revoked.subs[o.sub] == bought.subs[o.sub].(status := SubRevoked) <==>
                  db.subs[o.sub].(status := SubActive) == bought.subs[o.sub])
            && var reanimated := Apply(at, c, Reanimate(o.sub));
            && reanimated.orders == at.orders && o.sub in reanimated.subs
            && reanimated.subs[o.sub].product.None? && reanimated.subs[o.sub].expiresAt.None?
  {
    var mid := Run(db, c, before);
    var (o, bought) := (mid.orders[id], Apply(mid, c, op));
    RunInTwo(db, c, before + [op], after);
    RunInTwo(db, c, before, [op]);
    assert [op][1..] == [];
    assert Run(mid, c, [op]) == bought;
    PaidOnlyByGrant(mid, c, op, id);
    OpFollowsEdges(mid, c, op);
    RunFollowsPaths(bought, c, after);
    UntouchedOverRun(db, c, before, o.sub);
    UntouchedOverRun(bought, c, after, o.sub);
  }
}
