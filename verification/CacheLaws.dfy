/**
  What the cache promises its callers, told from the operations alone: a hit is the
  last value set and not invalidated, and an entry stays until it expires unless it
  is dropped or the room is used by enough others.
 */
module CacheLaws {
  import opened Options
  import opened SubscriptionCache
  import opened CacheRuns

  // ---------------------------------------------------------------- histories

  /** The operation leaves this entry of u in place, eviction aside. */
  predicate Leaves(op: Op, u: User, sub: Subscription, expiresAt: Time) {
    match op
    case Set(v, _, _) => v != u
    case Touch(_) => true
    case DropStale(v, now) => v != u || now <= expiresAt
    case Invalidate(v) => v != u
    case InvalidateBySubID(id) => id != sub.id
    case Cleanup(now) => now <= expiresAt
  }

  /** The k-th operation set u's entry to this value, and nothing after it dropped or replaced it. */
  predicate LastSet(ops: seq<Op>, k: nat, c: Config, u: User, sub: Subscription, expiresAt: Time) {
    && k < |ops| && ops[k].Set? && ops[k].user == u && ops[k].sub == sub && expiresAt == ops[k].now + c.ttl
    && forall j :: k < j < |ops| ==> Leaves(ops[j], u, sub, expiresAt)
  }

  lemma {:induction false} RunLonger(t: Table, c: Config, ops: seq<Op>, op: Op)
    ensures TableRun(t, c, ops + [op]) == TableStep(TableRun(t, c, ops), c, op)
    decreases |ops|
  {
    if ops == [] {
      assert (ops + [op])[1..] == [];
      assert TableRun(TableStep(t, c, op), c, []) == TableStep(t, c, op);
    } else {
      assert (ops + [op])[1..] == ops[1..] + [op] && (ops + [op])[0] == ops[0];
      RunLonger(TableStep(t, c, ops[0]), c, ops[1..], op);
    }
  }

  /** An entry of the reference after a step is the one set, or the one before, left in place. */
  lemma EntryComesFrom(t: Table, c: Config, op: Op, u: User)
    requires u in TableStep(t, c, op).held
    ensures var e := TableStep(t, c, op).held[u];
            || (op.Set? && op.user == u && e.sub == op.sub && e.expiresAt == op.now + c.ttl)
            || (u in t.held && t.held[u].sub == e.sub && t.held[u].expiresAt == e.expiresAt && Leaves(op, u, e.sub, e.expiresAt))
  {
  }

  lemma {:induction false} EntryIsLastSet(t: Table, c: Config, ops: seq<Op>, u: User)
    requires NewTable(t) && u in TableRun(t, c, ops).held
    ensures var e := TableRun(t, c, ops).held[u];
            exists k: nat :: LastSet(ops, k, c, u, e.sub, e.expiresAt)
    decreases |ops|
  {
    assert ops != [];
    var (front, op) := (ops[..|ops| - 1], ops[|ops| - 1]);
    assert ops == front + [op];
    RunLonger(t, c, front, op);
    var (before, e) := (TableRun(t, c, front), TableRun(t, c, ops).held[u]);
    EntryComesFrom(before, c, op, u);
    if op.Set? && op.user == u {
      assert LastSet(ops, |front|, c, u, e.sub, e.expiresAt);
    } else {
      EntryIsLastSet(t, c, front, u);
      var k: nat :| LastSet(front, k, c, u, e.sub, e.expiresAt);
      assert LastSet(ops, k, c, u, e.sub, e.expiresAt);
    }
  }

  /**
    After any run of a new cache on unshared ids, a hit is the value last set for
    the user, not expired, and not invalidated, dropped or replaced since.
   */
  lemma HitIsLastSet(s: State, t: Table, c: Config, ops: seq<Op>, u: User, now: Time, sub: Subscription)
    requires New(s) && NewTable(t) && Unshared(ops)
    requires Lookup(Run(s, c, ops), u, now) == Some(sub)
    ensures exists k: nat :: k < |ops| && ops[k].Set? && now <= ops[k].now + c.ttl && LastSet(ops, k, c, u, sub, ops[k].now + c.ttl)
  {
    CacheIsTheTable(s, t, c, ops, u, now);
    EntryIsLastSet(t, c, ops, u);
    var e := TableRun(t, c, ops).held[u];
    var k: nat :| LastSet(ops, k, c, u, e.sub, e.expiresAt);
    assert LastSet(ops, k, c, u, sub, ops[k].now + c.ttl);
  }

  // ---------------------------------------------------------------- evictions

  /** The other users whose entries the operations set or touch. */
  function Others(ops: seq<Op>, u: User): set<User> {
    if ops == [] then {}
    else
      var last := ops[|ops| - 1];
      Others(ops[..|ops| - 1], u) + if (last.Set? || last.Touch?) && last.user != u then {last.user} else {}
  }

  /** No two entries were used at once, and none later than now. */
  predicate Timed(t: Table) {
    && (forall v :: v in t.held ==> t.held[v].used < t.clock)
    && (forall v, w :: v in t.held && w in t.held && v != w ==> t.held[v].used != t.held[w].used)
  }

  lemma StaysTimed(t: Table, c: Config, op: Op)
    requires Timed(t)
    ensures Timed(TableStep(t, c, op))
  {
  }

  lemma {:induction false} RunStaysTimed(t: Table, c: Config, ops: seq<Op>)
    requires Timed(t)
    ensures Timed(TableRun(t, c, ops))
    decreases |ops|
  {
    if ops != [] {
      StaysTimed(t, c, ops[0]);
      RunStaysTimed(TableStep(t, c, ops[0]), c, ops[1..]);
    }
  }

  /** u's entry is in place, and only the given users have been used after it. */
  predicate InPlace(t: Table, u: User, sub: Subscription, expiresAt: Time, later: set<User>) {
    && Timed(t) && u in t.held && t.held[u].sub == sub && t.held[u].expiresAt == expiresAt
    && forall v :: v in t.held && t.held[v].used > t.held[u].used ==> v in later
  }

  /** If u was used longest ago, all the others have been used since. */
  lemma OthersUsedSince(t: Table, u: User, sub: Subscription, expiresAt: Time, later: set<User>, v: User)
    requires InPlace(t, u, sub, expiresAt, later) && v !in t.held && UsedLongestAgo(t.held, u)
    ensures |t.held| <= |later + {v}|
  {
    var others := t.held.Keys - {u};
    forall w | w in others
      ensures w in later
    {
      assert t.held[u].used != t.held[w].used;
    }
    SetsGrow(others + {v}, later + {v});
    assert |t.held.Keys| == |others| + 1 == |others + {v}|;
  }

  /** As long as fewer others than the limit have been used since, making room for a new one evicts somebody else. */
  lemma NotEvicted(t: Table, c: Config, u: User, sub: Subscription, expiresAt: Time, later: set<User>, v: User)
    requires InPlace(t, u, sub, expiresAt, later) && v !in t.held && |later + {v}| < c.maxSize
    ensures u in Kept(t.held, c)
  {
    if UsedLongestAgo(t.held, u) {
      OthersUsedSince(t, u, sub, expiresAt, later, v);
    }
  }

  lemma SetsGrow(a: set<User>, b: set<User>)
    requires a <= b
    ensures |a| <= |b|
  {
    assert b == a + (b - a);
  }

  lemma StaysInPlace(t: Table, c: Config, op: Op, u: User, sub: Subscription, expiresAt: Time, later: set<User>)
    requires InPlace(t, u, sub, expiresAt, later) && Leaves(op, u, sub, expiresAt)
    requires |later + Others([op], u)| < c.maxSize
    ensures InPlace(TableStep(t, c, op), u, sub, expiresAt, later + Others([op], u))
  {
    StaysTimed(t, c, op);
    assert [op][..0] == [] && [op][0] == op;
    if op.Set? && op.user !in t.held {
      NotEvicted(t, c, u, sub, expiresAt, later, op.user);
    }
  }

  lemma OthersLonger(ops: seq<Op>, op: Op, u: User)
    ensures Others(ops + [op], u) == Others(ops, u) + Others([op], u)
  {
    assert (ops + [op])[..|ops|] == ops && [op][..0] == [] && [op][0] == op;
  }

  lemma {:induction false} StaysOverRun(t: Table, c: Config, ops: seq<Op>, u: User, sub: Subscription, expiresAt: Time)
    requires InPlace(t, u, sub, expiresAt, {}) && forall j :: 0 <= j < |ops| ==> Leaves(ops[j], u, sub, expiresAt)
    requires |Others(ops, u)| < c.maxSize
    ensures InPlace(TableRun(t, c, ops), u, sub, expiresAt, Others(ops, u))
    decreases |ops|
  {
    if ops != [] {
      var (front, op) := (ops[..|ops| - 1], ops[|ops| - 1]);
      assert ops == front + [op];
      OthersLonger(front, op, u);
      SetsGrow(Others(front, u), Others(ops, u));
      StaysOverRun(t, c, front, u, sub, expiresAt);
      RunLonger(t, c, front, op);
      StaysInPlace(TableRun(t, c, front), c, op, u, sub, expiresAt, Others(front, u));
    }
  }

  lemma {:induction false} TableRunInTwo(t: Table, c: Config, a: seq<Op>, b: seq<Op>)
    ensures TableRun(t, c, a + b) == TableRun(TableRun(t, c, a), c, b)
    decreases |a|
  {
    if a == [] {
      assert a + b == b;
    } else {
      assert (a + b)[1..] == a[1..] + b && (a + b)[0] == a[0];
      TableRunInTwo(TableStep(t, c, a[0]), c, a[1..], b);
    }
  }

  lemma SetIsInPlace(t: Table, c: Config, u: User, sub: Subscription, at: Time)
    requires Timed(t)
    ensures InPlace(TableStep(t, c, Set(u, sub, at)), u, sub, at + c.ttl, {})
  {
    StaysTimed(t, c, Set(u, sub, at));
  }

  lemma SetIsKept(t: Table, c: Config, before: seq<Op>, u: User, sub: Subscription, at: Time, after: seq<Op>)
    requires NewTable(t) && forall j :: 0 <= j < |after| ==> Leaves(after[j], u, sub, at + c.ttl)
    requires |Others(after, u)| < c.maxSize
    ensures var held := TableRun(t, c, before + [Set(u, sub, at)] + after).held;
            u in held && held[u].sub == sub && held[u].expiresAt == at + c.ttl
  {
    var m := TableRun(t, c, before);
    RunStaysTimed(t, c, before);
    SetIsInPlace(m, c, u, sub, at);
    RunLonger(t, c, before, Set(u, sub, at));
    TableRunInTwo(t, c, before + [Set(u, sub, at)], after);
    StaysOverRun(TableStep(m, c, Set(u, sub, at)), c, after, u, sub, at + c.ttl);
  }

  /**
    An entry that was set is found until it expires, as long as nothing drops or
    replaces it and fewer other users than the limit are set or touched since: only
    the entry used longest ago is ever evicted.
   */
  lemma SetIsFound(s: State, t: Table, c: Config, before: seq<Op>, u: User, sub: Subscription, at: Time, after: seq<Op>, now: Time,
                   ops: seq<Op>)
    requires New(s) && NewTable(t) && ops == before + [Set(u, sub, at)] + after && Unshared(ops)
    requires forall j :: 0 <= j < |after| ==> Leaves(after[j], u, sub, at + c.ttl)
    requires |Others(after, u)| < c.maxSize && now <= at + c.ttl
    ensures Lookup(Run(s, c, ops), u, now) == Some(sub)
  {
    SetIsKept(t, c, before, u, sub, at, after);
    CacheIsTheTable(s, t, c, ops, u, now);
  }
}
