/**
  Token buckets, one per user, with idle buckets swept away.  Times are seconds on
  a clock that never goes back.
 */
module RateLimiter {
  type Time = real
  type User = int

  datatype Limits = Limits(max: real, rate: real)

  datatype Bucket = Bucket(tokens: real, last: Time)

  type Table = map<User, Bucket>

  // ----------------------------------------------------------- specification

  function Min(a: real, b: real): real {
    if a < b then a else b
  }

  function Refill(l: Limits, b: Bucket, now: Time): Bucket {
    if now > b.last then Bucket(Min(b.tokens + (now - b.last) * l.rate, l.max), now) else b
  }

  /** AllowN: all n tokens or none. */
  function Take(l: Limits, b: Bucket, n: real, now: Time): (Bucket, bool) {
    var r := Refill(l, b, now);
    if r.tokens >= n then (r.(tokens := r.tokens - n), true) else (r, false)
  }

  function Found(l: Limits, s: Table, u: User, now: Time): Bucket {
    if u in s then s[u] else Bucket(l.max, now)
  }

  /** PerUserRateLimiter.Allow. */
  function Ask(l: Limits, s: Table, u: User, now: Time): (Table, bool) {
    var (b, ok) := Take(l, Found(l, s, u, now), 1.0, now);
    (s[u := b], ok)
  }

  /** PerUserRateLimiter.Cleanup. */
  function Sweep(s: Table, maxIdle: Time, now: Time): Table {
    map u | u in s && now - s[u].last <= maxIdle :: s[u]
  }

  // ---------------------------------------------------------------- the code

  class TokenBucket {
    var tokens: real
    var lastRefill: Time
    const limits: Limits

    constructor (limits: Limits, now: Time)
      ensures this.limits == limits && Now() == Bucket(limits.max, now)
    {
      this.limits := limits;
      tokens, lastRefill := limits.max, now;
    }

    ghost function Now(): Bucket
      reads this
    {
      Bucket(tokens, lastRefill)
    }

    method RefillBucket(now: Time)
      modifies this
      ensures Now() == Refill(limits, old(Now()), now)
    {
      var elapsed := now - lastRefill;
      if elapsed > 0.0 {
        tokens := tokens + elapsed * limits.rate;
        if tokens > limits.max {
          tokens := limits.max;
        }
        lastRefill := now;
      }
    }

    method AllowN(n: real, now: Time) returns (ok: bool)
      modifies this
      ensures (Now(), ok) == Take(limits, old(Now()), n, now)
    {
      RefillBucket(now);
      if tokens >= n {
        tokens := tokens - n;
        return true;
      }
      return false;
    }

    method Reset(now: Time)
      modifies this
      ensures Now() == Bucket(limits.max, now)
    {
      tokens := limits.max;
      lastRefill := now;
    }
  }

  class PerUserRateLimiter {
    var buckets: map<User, TokenBucket>
    const limits: Limits

    constructor (limits: Limits)
      ensures this.limits == limits && Valid() && View() == map[]
    {
      this.limits := limits;
      buckets := map[];
    }

    /** No two users share a bucket. */
    ghost predicate Valid()
      reads this, buckets.Values
    {
      && (forall u :: u in buckets ==> buckets[u].limits == limits)
      && (forall u, v :: u in buckets && v in buckets && u != v ==> buckets[u] != buckets[v])
    }

    ghost function View(): Table
      reads this, buckets.Values
    {
      map u | u in buckets :: buckets[u].Now()
    }

    method GetOrCreateBucket(u: User, now: Time) returns (bucket: TokenBucket)
      requires Valid()
      modifies `buckets
      ensures Valid() && u in buckets && bucket == buckets[u]
      ensures View() == old(View())[u := Found(limits, old(View()), u, now)]
      ensures u in old(buckets) ==> buckets == old(buckets)
      ensures u !in old(buckets) ==> fresh(bucket) && buckets == old(buckets)[u := bucket]
    {
      if u in buckets {
        return buckets[u];
      }
      bucket := new TokenBucket(limits, now);
      buckets := buckets[u := bucket];
    }

    method Allow(u: User, now: Time) returns (ok: bool)
      requires Valid()
      modifies this, buckets.Values
      ensures Valid() && (View(), ok) == Ask(limits, old(View()), u, now)
    {
      var bucket := GetOrCreateBucket(u, now);
      ghost var between := View();
      ok := bucket.AllowN(1.0, now);
      assert forall v :: v in buckets && v != u ==> buckets[v].Now() == between[v];
      assert between[u] == Found(limits, old(View()), u, now);
      assert View() == old(View())[u := bucket.Now()];
    }

    /** The users whose buckets have been idle for longer than maxIdle, each once. */
    method IdleUsers(maxIdle: Time, now: Time) returns (toDelete: seq<User>)
      ensures forall u :: u in toDelete <==> u in buckets && now - buckets[u].lastRefill > maxIdle
      ensures forall i, j :: 0 <= i < j < |toDelete| ==> toDelete[i] != toDelete[j]
    {
      toDelete := [];
      var users := buckets.Keys;
      while users != {}
        invariant users <= buckets.Keys
        invariant forall u :: u in toDelete <==> u in buckets && u !in users && now - buckets[u].lastRefill > maxIdle
        invariant forall i, j :: 0 <= i < j < |toDelete| ==> toDelete[i] != toDelete[j]
        decreases |users|
      {
        HasElement(users);
        var u :| u in users;
        users := users - {u};
        if now - buckets[u].lastRefill > maxIdle {
          toDelete := toDelete + [u];
        }
      }
    }

    method DeleteAll(toDelete: seq<User>)
      requires forall u :: u in toDelete ==> u in buckets
      requires forall i, j :: 0 <= i < j < |toDelete| ==> toDelete[i] != toDelete[j]
      modifies `buckets
      ensures forall u :: u in buckets <==> u in old(buckets) && u !in toDelete
      ensures forall u :: u in buckets ==> buckets[u] == old(buckets)[u]
      ensures |buckets| == |old(buckets)| - |toDelete|
    {
      for i := 0 to |toDelete|
        invariant forall u :: u in buckets <==> u in old(buckets) && u !in toDelete[..i]
        invariant forall u :: u in buckets ==> buckets[u] == old(buckets)[u]
        invariant |buckets| == |old(buckets)| - i
      {
        assert toDelete[..i + 1] == toDelete[..i] + [toDelete[i]];
        assert toDelete[i] in toDelete;
        RemovalShrinks(buckets, toDelete[i]);
        buckets := buckets - {toDelete[i]};
      }
      assert toDelete[..|toDelete|] == toDelete;
    }

    method Cleanup(maxIdle: Time, now: Time) returns (removed: nat)
      requires Valid()
      modifies `buckets
      ensures Valid() && View() == Sweep(old(View()), maxIdle, now)
      ensures |buckets| == |old(buckets)| - removed
    {
      var toDelete := IdleUsers(maxIdle, now);
      DeleteAll(toDelete);
      ghost var expected := Sweep(old(View()), maxIdle, now);
      forall u
        ensures u in buckets <==> u in expected
        ensures u in buckets ==> buckets[u].Now() == expected[u]
      {
        assert u in old(buckets) ==> old(View())[u] == old(buckets[u].Now());
      }
      removed := |toDelete|;
    }
  }

  lemma HasElement(users: set<User>)
    ensures users == {} || exists u :: u in users
  {
    if forall u :: u !in users {
      assert users == {};
    }
  }

  lemma RemovalShrinks<A, B>(m: map<A, B>, a: A)
    requires a in m
    ensures |m - {a}| == |m| - 1
  {
    assert m.Keys == (m - {a}).Keys + {a};
    assert |(m - {a}).Keys| == |m - {a}|;
  }

  // ------------------------------------------------------------ runs of a table

  datatype Op = Request(user: User, at: Time) | Cleanup(at: Time)

  /** The clock never goes back. */
  predicate Ordered(ops: seq<Op>, from: Time)
    decreases |ops|
  {
    ops == [] || (from <= ops[0].at && Ordered(ops[1..], ops[0].at))
  }

  /** The answers to the requests of a run, in order. */
  function Answers(l: Limits, maxIdle: Time, s: Table, ops: seq<Op>): seq<bool>
    decreases |ops|
  {
    if ops == [] then []
    else match ops[0]
      case Request(u, now) => [Ask(l, s, u, now).1] + Answers(l, maxIdle, Ask(l, s, u, now).0, ops[1..])
      case Cleanup(now) => Answers(l, maxIdle, Sweep(s, maxIdle, now), ops[1..])
  }

  function RequestsOnly(ops: seq<Op>): seq<Op>
    decreases |ops|
  {
    if ops == [] then [] else (if ops[0].Request? then [ops[0]] else []) + RequestsOnly(ops[1..])
  }

  /** Requests of one user that were granted. */
  function Granted(l: Limits, maxIdle: Time, s: Table, ops: seq<Op>, u: User): nat
    decreases |ops|
  {
    if ops == [] then 0
    else match ops[0]
      case Request(v, now) =>
        (if v == u && Ask(l, s, v, now).1 then 1 else 0) + Granted(l, maxIdle, Ask(l, s, v, now).0, ops[1..], u)
      case Cleanup(now) => Granted(l, maxIdle, Sweep(s, maxIdle, now), ops[1..], u)
  }

  predicate Sensible(l: Limits) {
    l.max >= 0.0 && l.rate >= 0.0
  }

  predicate WellFormed(l: Limits, s: Table, now: Time) {
    forall u :: u in s ==> 0.0 <= s[u].tokens <= l.max && s[u].last <= now
  }

  /** What a user could take now. */
  function Level(l: Limits, s: Table, u: User, now: Time): real {
    Refill(l, Found(l, s, u, now), now).tokens
  }

  lemma Products(rate: real, a: Time, b: Time)
    requires rate >= 0.0 && a >= 0.0 && b >= 0.0
    ensures (a + b) * rate == a * rate + b * rate && a * rate >= 0.0 && b * rate >= 0.0
  {
  }

  /** Two refills up to the capacity come to one. */
  lemma FilledTwice(tokens: real, first: real, second: real, max: real)
    requires tokens <= max && first >= 0.0 && second >= 0.0
    ensures Min(Min(tokens + first, max) + second, max) == Min(tokens + (first + second), max)
  {
  }

  lemma RefilledTokens(l: Limits, b: Bucket, now: Time)
    requires Sensible(l) && 0.0 <= b.tokens <= l.max && b.last <= now
    ensures Refill(l, b, now).tokens == Min(b.tokens + (now - b.last) * l.rate, l.max)
    ensures 0.0 <= Refill(l, b, now).tokens <= l.max
  {
    var elapsed := now - b.last;
    Products(l.rate, elapsed, 0.0);
    if elapsed > 0.0 {
      assert Refill(l, b, now).tokens == Min(b.tokens + elapsed * l.rate, l.max);
    } else {
      assert elapsed == 0.0 && Refill(l, b, now) == b;
    }
  }

  lemma RefilledLater(l: Limits, b: Bucket, now: Time, later: Time)
    requires Sensible(l) && 0.0 <= b.tokens <= l.max && b.last <= now <= later
    ensures Refill(l, b, later).tokens == Min(Refill(l, b, now).tokens + (later - now) * l.rate, l.max)
  {
    var (first, second) := (now - b.last, later - now);
    RefilledTokens(l, b, now);
    RefilledTokens(l, b, later);
    Products(l.rate, first, second);
    FilledTwice(b.tokens, first * l.rate, second * l.rate, l.max);
    assert later - b.last == first + second;
  }

  /** Waiting refills at the rate up to the capacity, whether in one stretch or two. */
  lemma LevelLater(l: Limits, s: Table, u: User, now: Time, later: Time)
    requires Sensible(l) && WellFormed(l, s, now) && now <= later
    ensures Level(l, s, u, later) == Min(Level(l, s, u, now) + (later - now) * l.rate, l.max)
    ensures 0.0 <= Level(l, s, u, now) <= l.max
  {
    if u in s {
      RefilledLater(l, s[u], now, later);
      RefilledTokens(l, s[u], now);
    } else {
      Products(l.rate, later - now, 0.0);
    }
  }

  lemma LevelBounds(l: Limits, s: Table, u: User, now: Time)
    requires Sensible(l) && WellFormed(l, s, now)
    ensures 0.0 <= Level(l, s, u, now) <= l.max
  {
    if u in s {
      RefilledTokens(l, s[u], now);
    }
  }

  /** A request is granted when a whole token is there, and takes it. */
  lemma AskLevels(l: Limits, s: Table, u: User, v: User, now: Time)
    requires Sensible(l) && WellFormed(l, s, now)
    ensures var (s', ok) := Ask(l, s, u, now);
            && WellFormed(l, s', now)
            && (ok <==> Level(l, s, u, now) >= 1.0)
            && Level(l, s', v, now) == Level(l, s, v, now) - if v == u && ok then 1.0 else 0.0
  {
    LevelBounds(l, s, u, now);
    LevelBounds(l, s, v, now);
  }

  predicate GenerousIdle(l: Limits, maxIdle: Time) {
    maxIdle * l.rate >= l.max
  }

  /** A bucket idle long enough is full, so sweeping it changes no level. */
  lemma SweepLevels(l: Limits, s: Table, maxIdle: Time, v: User, now: Time)
    requires Sensible(l) && WellFormed(l, s, now) && GenerousIdle(l, maxIdle)
    ensures WellFormed(l, Sweep(s, maxIdle, now), now)
    ensures Level(l, Sweep(s, maxIdle, now), v, now) == Level(l, s, v, now)
  {
    if v in s && now - s[v].last > maxIdle {
      var over := now - s[v].last - maxIdle;
      assert (maxIdle + over) * l.rate == maxIdle * l.rate + over * l.rate;
      assert over * l.rate >= 0.0;
      assert now - s[v].last == maxIdle + over;
    }
  }

  predicate NoSweeps(ops: seq<Op>) {
    forall i :: 0 <= i < |ops| ==> ops[i].Request?
  }

  /** What there may be by the end of a window. */
  function Reach(l: Limits, s: Table, u: User, from: Time, to: Time): real {
    Level(l, s, u, from) + (to - from) * l.rate
  }

  lemma EarlierReach(l: Limits, s: Table, u: User, from: Time, now: Time, to: Time)
    requires Sensible(l) && WellFormed(l, s, from) && from <= now <= to
    ensures Reach(l, s, u, now, to) <= Reach(l, s, u, from, to)
  {
    LevelLater(l, s, u, from, now);
    Products(l.rate, now - from, to - now);
    assert to - from == (now - from) + (to - now);
  }

  lemma AskReach(l: Limits, s: Table, v: User, u: User, now: Time, to: Time)
    requires Sensible(l) && WellFormed(l, s, now)
    ensures Reach(l, Ask(l, s, v, now).0, u, now, to) ==
              Reach(l, s, u, now, to) - if v == u && Ask(l, s, v, now).1 then 1.0 else 0.0
  {
    var (s', ok) := Ask(l, s, v, now);
    AskLevels(l, s, v, u, now);
    LessBoth(Level(l, s', u, now), Level(l, s, u, now), if v == u && ok then 1.0 else 0.0, (to - now) * l.rate);
  }

  lemma LessBoth(a: real, b: real, less: real, more: real)
    requires a == b - less
    ensures a + more == b + more - less
  {
  }

  lemma RequestReach(l: Limits, s: Table, v: User, u: User, from: Time, now: Time, to: Time, rest: nat)
    requires Sensible(l) && WellFormed(l, s, from) && from <= now <= to
    requires rest as real <= Reach(l, Ask(l, s, v, now).0, u, now, to)
    ensures rest as real + (if v == u && Ask(l, s, v, now).1 then 1.0 else 0.0) <= Reach(l, s, u, from, to)
  {
    AskReach(l, s, v, u, now, to);
    EarlierReach(l, s, u, from, now, to);
  }

  lemma SweepReach(l: Limits, s: Table, maxIdle: Time, u: User, from: Time, now: Time, to: Time)
    requires Sensible(l) && WellFormed(l, s, from) && from <= now <= to && GenerousIdle(l, maxIdle)
    ensures Reach(l, Sweep(s, maxIdle, now), u, now, to) <= Reach(l, s, u, from, to)
  {
    SweepLevels(l, s, maxIdle, u, now);
    EarlierReach(l, s, u, from, now, to);
  }

  lemma {:induction false} GrantedWithinReach(l: Limits, maxIdle: Time, s: Table, ops: seq<Op>, u: User, from: Time, to: Time)
    requires Sensible(l) && WellFormed(l, s, from) && (GenerousIdle(l, maxIdle) || NoSweeps(ops))
    requires Ordered(ops, from) && from <= to && forall i :: 0 <= i < |ops| ==> ops[i].at <= to
    ensures Granted(l, maxIdle, s, ops, u) as real <= Reach(l, s, u, from, to)
    decreases |ops|
  {
    if ops == [] {
      LevelBounds(l, s, u, from);
      Products(l.rate, to - from, 0.0);
    } else {
      var now := ops[0].at;
      assert ops[0].at <= to;
      match ops[0]
      case Request(v, _) =>
        AskLevels(l, s, v, u, now);
        GrantedWithinReach(l, maxIdle, Ask(l, s, v, now).0, ops[1..], u, now, to);
        RequestReach(l, s, v, u, from, now, to, Granted(l, maxIdle, Ask(l, s, v, now).0, ops[1..], u));
      case Cleanup(_) =>
        SweepLevels(l, s, maxIdle, u, now);
        GrantedWithinReach(l, maxIdle, Sweep(s, maxIdle, now), ops[1..], u, now, to);
        SweepReach(l, s, maxIdle, u, from, now, to);
    }
  }

  /** In any window a user gets at most the capacity plus what the rate adds. */
  lemma WindowBound(l: Limits, maxIdle: Time, s: Table, ops: seq<Op>, u: User, from: Time, to: Time)
    requires Sensible(l) && WellFormed(l, s, from) && (GenerousIdle(l, maxIdle) || NoSweeps(ops))
    requires Ordered(ops, from) && from <= to && forall i :: 0 <= i < |ops| ==> ops[i].at <= to
    ensures Granted(l, maxIdle, s, ops, u) as real <= l.max + (to - from) * l.rate
  {
    GrantedWithinReach(l, maxIdle, s, ops, u, from, to);
    ReachBound(l, s, u, from, to);
  }

  lemma ReachBound(l: Limits, s: Table, u: User, from: Time, to: Time)
    requires Sensible(l) && WellFormed(l, s, from)
    ensures Reach(l, s, u, from, to) <= l.max + (to - from) * l.rate
  {
    LevelBounds(l, s, u, from);
    var more := (to - from) * l.rate;
    assert Reach(l, s, u, from, to) == Level(l, s, u, from) + more;
    AddBoth(Level(l, s, u, from), l.max, more);
  }

  lemma AddBoth(a: real, b: real, more: real)
    requires a <= b
    ensures a + more <= b + more
  {
  }

  /** Whole tokens are never withheld: n of them are there after n / rate seconds. */
  lemma EventuallyAllowed(l: Limits, s: Table, u: User, now: Time, n: real)
    requires Sensible(l) && l.rate > 0.0 && WellFormed(l, s, now) && 1.0 <= n <= l.max
    ensures Level(l, s, u, now + n / l.rate) >= n
    ensures Ask(l, s, u, now + n / l.rate).1
  {
    var later := now + n / l.rate;
    assert (later - now) * l.rate == n;
    LevelLater(l, s, u, now, later);
  }

  // -------------------------------------------- when sweeping can be observed

  /** No run, from an empty table, is answered otherwise than it would be without sweeps. */
  ghost predicate Unobservable(l: Limits, maxIdle: Time) {
    forall from: Time, ops: seq<Op> :: Ordered(ops, from) ==>
      Answers(l, maxIdle, map[], ops) == Answers(l, maxIdle, map[], RequestsOnly(ops))
  }

  /** Two tables with the same levels answer alike, swept or not. */
  lemma {:induction false} SameAnswers(l: Limits, maxIdle: Time, s: Table, f: Table, ops: seq<Op>, now: Time)
    requires Sensible(l) && WellFormed(l, s, now) && WellFormed(l, f, now) && GenerousIdle(l, maxIdle)
    requires Ordered(ops, now) && forall u :: Level(l, s, u, now) == Level(l, f, u, now)
    ensures Answers(l, maxIdle, s, ops) == Answers(l, maxIdle, f, RequestsOnly(ops))
    decreases |ops|
  {
    if ops != [] {
      var at := ops[0].at;
      forall u
        ensures Level(l, s, u, at) == Level(l, f, u, at)
      {
        LevelLater(l, s, u, now, at);
        LevelLater(l, f, u, now, at);
      }
      match ops[0]
      case Request(v, _) =>
        AskLevels(l, s, v, v, at);
        AskLevels(l, f, v, v, at);
        var (s', f') := (Ask(l, s, v, at).0, Ask(l, f, v, at).0);
        forall u
          ensures Level(l, s', u, at) == Level(l, f', u, at)
        {
          AskLevels(l, s, v, u, at);
          AskLevels(l, f, v, u, at);
        }
        SameAnswers(l, maxIdle, s', f', ops[1..], at);
        assert ([ops[0]] + RequestsOnly(ops[1..]))[1..] == RequestsOnly(ops[1..]);
      case Cleanup(_) =>
        forall u
          ensures Level(l, Sweep(s, maxIdle, at), u, at) == Level(l, f, u, at)
        {
          SweepLevels(l, s, maxIdle, u, at);
        }
        SweepLevels(l, s, maxIdle, 0, at);
        SameAnswers(l, maxIdle, Sweep(s, maxIdle, at), f, ops[1..], at);
        assert RequestsOnly(ops) == RequestsOnly(ops[1..]);
    }
  }

  /** With room for no whole token every request is refused. */
  lemma {:induction false} AllRefused(l: Limits, maxIdle: Time, s: Table, f: Table, ops: seq<Op>, now: Time)
    requires Sensible(l) && WellFormed(l, s, now) && WellFormed(l, f, now) && l.max < 1.0 && Ordered(ops, now)
    ensures Answers(l, maxIdle, s, ops) == Answers(l, maxIdle, f, RequestsOnly(ops))
    decreases |ops|
  {
    if ops != [] {
      var at := ops[0].at;
      match ops[0]
      case Request(v, _) =>
        AskLevels(l, s, v, v, at);
        AskLevels(l, f, v, v, at);
        LevelLater(l, s, v, at, at);
        LevelLater(l, f, v, at, at);
        AllRefused(l, maxIdle, Ask(l, s, v, at).0, Ask(l, f, v, at).0, ops[1..], at);
        assert ([ops[0]] + RequestsOnly(ops[1..]))[1..] == RequestsOnly(ops[1..]);
      case Cleanup(_) =>
        AllRefused(l, maxIdle, Sweep(s, maxIdle, at), f, ops[1..], at);
        assert RequestsOnly(ops) == RequestsOnly(ops[1..]);
    }
  }

  // The other direction: a user drains the bucket, idles, and asks again.

  function Burst(n: nat, at: Time): seq<Op> {
    seq(n, i => Request(0, at))
  }

  function Yes(n: nat): seq<bool> {
    seq(n, i => true)
  }

  function After(l: Limits, maxIdle: Time, s: Table, ops: seq<Op>): Table
    decreases |ops|
  {
    if ops == [] then s
    else match ops[0]
      case Request(u, now) => After(l, maxIdle, Ask(l, s, u, now).0, ops[1..])
      case Cleanup(now) => After(l, maxIdle, Sweep(s, maxIdle, now), ops[1..])
  }

  lemma {:induction false} RunsInTwo(l: Limits, maxIdle: Time, s: Table, a: seq<Op>, b: seq<Op>)
    ensures Answers(l, maxIdle, s, a + b) == Answers(l, maxIdle, s, a) + Answers(l, maxIdle, After(l, maxIdle, s, a), b)
    decreases |a|
  {
    if a == [] {
      assert a + b == b;
    } else {
      assert (a + b)[1..] == a[1..] + b && (a + b)[0] == a[0];
      match a[0]
      case Request(u, now) => RunsInTwo(l, maxIdle, Ask(l, s, u, now).0, a[1..], b);
      case Cleanup(now) => RunsInTwo(l, maxIdle, Sweep(s, maxIdle, now), a[1..], b);
    }
  }

  lemma {:induction false} RequestsInTwo(a: seq<Op>, b: seq<Op>)
    requires NoSweeps(a)
    ensures RequestsOnly(a + b) == a + RequestsOnly(b)
    decreases |a|
  {
    if a == [] {
      assert a + b == b;
    } else {
      assert (a + b)[1..] == a[1..] + b && (a + b)[0] == a[0];
      RequestsInTwo(a[1..], b);
    }
  }

  lemma {:induction false} OrderedInTwo(a: seq<Op>, b: seq<Op>, from: Time, mid: Time)
    requires Ordered(a, from) && Ordered(b, mid) && from <= mid && forall i :: 0 <= i < |a| ==> a[i].at <= mid
    ensures Ordered(a + b, from)
    decreases |a|
  {
    if a == [] {
      assert a + b == b;
    } else {
      assert (a + b)[1..] == a[1..] + b && (a + b)[0] == a[0];
      assert forall i :: 0 <= i < |a[1..]| ==> a[1..][i] == a[i + 1];
      OrderedInTwo(a[1..], b, a[0].at, mid);
    }
  }

  /** A burst within the level is granted whole. */
  lemma {:induction false} BurstGranted(l: Limits, maxIdle: Time, s: Table, n: nat, at: Time)
    requires Sensible(l) && WellFormed(l, s, at) && Level(l, s, 0, at) >= n as real
    ensures Ordered(Burst(n, at), at) && NoSweeps(Burst(n, at))
    ensures Answers(l, maxIdle, s, Burst(n, at)) == Yes(n)
    ensures var s' := After(l, maxIdle, s, Burst(n, at));
            && WellFormed(l, s', at) && s'.Keys <= s.Keys + {0}
            && (n > 0 ==> 0 in s' && s'[0].last == at)
            && Level(l, s', 0, at) == Level(l, s, 0, at) - n as real
    decreases n
  {
    if n > 0 {
      AskLevels(l, s, 0, 0, at);
      assert Burst(n, at)[1..] == Burst(n - 1, at);
      BurstGranted(l, maxIdle, Ask(l, s, 0, at).0, n - 1, at);
      assert [true] + Yes(n - 1) == Yes(n);
    }
  }

  lemma {:induction false} AllYes(l: Limits, maxIdle: Time, s: Table, ops: seq<Op>)
    requires forall i :: 0 <= i < |ops| ==> ops[i].Request? && ops[i].user == 0
    requires Answers(l, maxIdle, s, ops) == Yes(|ops|)
    ensures Granted(l, maxIdle, s, ops, 0) == |ops|
    decreases |ops|
  {
    if ops != [] {
      var rest := Answers(l, maxIdle, Ask(l, s, 0, ops[0].at).0, ops[1..]);
      assert Answers(l, maxIdle, s, ops) == [Ask(l, s, 0, ops[0].at).1] + rest;
      assert Yes(|ops|)[0] && Yes(|ops|)[1..] == Yes(|ops| - 1);
      assert rest == Yes(|ops|)[1..];
      AllYes(l, maxIdle, Ask(l, s, 0, ops[0].at).0, ops[1..]);
    }
  }

  /** How long the rate takes to make up for the part of a token a burst leaves behind. */
  function Top(l: Limits): (t: Time)
    requires l.max >= 1.0 && l.rate > 0.0
    ensures t > 0.0 && t * l.rate == 1.0 - (l.max - l.max.Floor as real)
  {
    (1.0 - (l.max - l.max.Floor as real)) / l.rate
  }

  /** After the full burst, exactly one token is there when it has come in. */
  lemma Topped(l: Limits, s: Table, at: Time)
    requires l.max >= 1.0 && l.rate > 0.0 && WellFormed(l, s, at)
    requires Level(l, s, 0, at) == l.max - l.max.Floor as real
    ensures Level(l, s, 0, at + Top(l)) == 1.0
  {
    var t := Top(l);
    LevelLater(l, s, 0, at, at + t);
    assert at + t - at == t;
  }

  /** One more token than the burst took is there later, and then none. */
  lemma LastOfAll(l: Limits, s: Table, at: Time)
    requires l.max >= 1.0 && l.rate > 0.0 && WellFormed(l, s, at)
    requires Level(l, s, 0, at) == l.max - l.max.Floor as real
    ensures var (s', ok) := Ask(l, s, 0, at + Top(l));
            ok && WellFormed(l, s', at + Top(l)) && Level(l, s', 0, at + Top(l)) == 0.0
  {
    Topped(l, s, at);
    AskLevels(l, s, 0, 0, at + Top(l));
  }

  /** A full bucket grants the probe and is then empty. */
  lemma FullBucket(l: Limits, maxIdle: Time, s: Table, at: Time)
    requires l.max >= 1.0 && l.rate > 0.0 && WellFormed(l, s, at) && Level(l, s, 0, at) == l.max
    ensures Answers(l, maxIdle, s, Probe(l, at)) == Yes(|Probe(l, at)|)
    ensures var s' := After(l, maxIdle, s, Probe(l, at));
            && s'.Keys <= s.Keys + {0} && 0 in s' && WellFormed(l, s', at + Top(l))
            && s'[0].last == at + Top(l) && Level(l, s', 0, at + Top(l)) == 0.0
  {
    var m: nat := l.max.Floor;
    BurstGranted(l, maxIdle, s, m, at);
    var s1 := After(l, maxIdle, s, Burst(m, at));
    LastOfAll(l, s1, at);
    Lengthened(l, maxIdle, s, Burst(m, at), at + Top(l));
    assert Yes(m) + [true] == Yes(m + 1);
  }

  lemma Lengthened(l: Limits, maxIdle: Time, s: Table, ops: seq<Op>, now: Time)
    ensures var (s1, all) := (After(l, maxIdle, s, ops), ops + [Request(0, now)]);
            && Answers(l, maxIdle, s, all) == Answers(l, maxIdle, s, ops) + [Ask(l, s1, 0, now).1]
            && After(l, maxIdle, s, all) == Ask(l, s1, 0, now).0
            && Ask(l, s1, 0, now).0.Keys == s1.Keys + {0}
            && ((0 in s1 ==> s1[0].last <= now) ==> Ask(l, s1, 0, now).0[0].last == now)
  {
    var (s1, last) := (After(l, maxIdle, s, ops), [Request(0, now)]);
    RunsInTwo(l, maxIdle, s, ops, last);
    AfterInTwo(l, maxIdle, s, ops, last);
    assert last[1..] == [];
  }

  lemma {:induction false} AfterInTwo(l: Limits, maxIdle: Time, s: Table, a: seq<Op>, b: seq<Op>)
    ensures After(l, maxIdle, s, a + b) == After(l, maxIdle, After(l, maxIdle, s, a), b)
    decreases |a|
  {
    if a == [] {
      assert a + b == b;
    } else {
      assert (a + b)[1..] == a[1..] + b && (a + b)[0] == a[0];
      match a[0]
      case Request(u, now) => AfterInTwo(l, maxIdle, Ask(l, s, u, now).0, a[1..], b);
      case Cleanup(now) => AfterInTwo(l, maxIdle, Sweep(s, maxIdle, now), a[1..], b);
    }
  }

  /** The whole capacity at one moment, and one more token when it has come in. */
  function Probe(l: Limits, at: Time): seq<Op>
    requires l.max >= 1.0 && l.rate > 0.0
  {
    Burst(l.max.Floor, at) + [Request(0, at + Top(l))]
  }

  lemma ProbeInOrder(l: Limits, at: Time)
    requires l.max >= 1.0 && l.rate > 0.0
    ensures NoSweeps(Probe(l, at)) && Ordered(Probe(l, at), at)
    ensures forall i :: 0 <= i < |Probe(l, at)| ==> Probe(l, at)[i].user == 0 && Probe(l, at)[i].at <= at + Top(l)
  {
    var last := [Request(0, at + Top(l))];
    assert Ordered(last, at + Top(l));
    BurstOrdered(l.max.Floor, at);
    OrderedInTwo(Burst(l.max.Floor, at), last, at, at + Top(l));
  }

  /** A probe granted whole started with a full bucket. */
  lemma GrantedWhole(l: Limits, maxIdle: Time, s: Table, at: Time)
    requires l.max >= 1.0 && l.rate > 0.0 && WellFormed(l, s, at)
    requires Answers(l, maxIdle, s, Probe(l, at)) == Yes(|Probe(l, at)|)
    ensures Level(l, s, 0, at) == l.max
  {
    var ops := Probe(l, at);
    ProbeInOrder(l, at);
    AllYes(l, maxIdle, s, ops);
    GrantedWithinReach(l, maxIdle, s, ops, 0, at, at + Top(l));
    LevelLater(l, s, 0, at, at);
    assert at + Top(l) - at == Top(l);
  }

  /** A probe is granted whole exactly when it starts with a full bucket. */
  lemma ProbeTells(l: Limits, maxIdle: Time, s: Table, at: Time)
    requires l.max >= 1.0 && l.rate > 0.0 && WellFormed(l, s, at)
    ensures Answers(l, maxIdle, s, Probe(l, at)) == Yes(|Probe(l, at)|) <==> Level(l, s, 0, at) == l.max
  {
    if Level(l, s, 0, at) == l.max {
      FullBucket(l, maxIdle, s, at);
    } else if Answers(l, maxIdle, s, Probe(l, at)) == Yes(|Probe(l, at)|) {
      GrantedWhole(l, maxIdle, s, at);
    }
  }

  lemma {:induction false} BurstOrdered(n: nat, at: Time)
    ensures Ordered(Burst(n, at), at)
    decreases n
  {
    if n > 0 {
      assert Burst(n, at)[1..] == Burst(n - 1, at);
      BurstOrdered(n - 1, at);
    }
  }

  /** A sweep between some requests that changes the later answers is noticed. */
  lemma SweepNoticed(l: Limits, maxIdle: Time, before: seq<Op>, mid: Time, at: Time, probe: seq<Op>)
    requires NoSweeps(before) && Ordered(before, 0.0) && forall i :: 0 <= i < |before| ==> before[i].at <= mid
    requires NoSweeps(probe) && Ordered(probe, at) && 0.0 <= mid <= at
    requires var s := After(l, maxIdle, map[], before);
             Answers(l, maxIdle, Sweep(s, maxIdle, at), probe) != Answers(l, maxIdle, s, probe)
    ensures !Unobservable(l, maxIdle)
  {
    var rest := [Cleanup(at)] + probe;
    ProbeOnly(at, probe);
    OrderedInTwo(before, rest, 0.0, mid);
    RunsInTwo(l, maxIdle, map[], before, rest);
    RunsInTwo(l, maxIdle, map[], before, probe);
    RequestsInTwo(before, rest);
    var (s, kept) := (After(l, maxIdle, map[], before), Answers(l, maxIdle, map[], before));
    SweepFirst(l, maxIdle, s, at, probe);
    SameTail(kept, Answers(l, maxIdle, s, rest), Answers(l, maxIdle, s, probe));
    Witness(l, maxIdle, before + rest, before + probe);
  }

  lemma SweepFirst(l: Limits, maxIdle: Time, s: Table, at: Time, probe: seq<Op>)
    ensures Answers(l, maxIdle, s, [Cleanup(at)] + probe) == Answers(l, maxIdle, Sweep(s, maxIdle, at), probe)
  {
    assert ([Cleanup(at)] + probe)[1..] == probe;
  }

  lemma Witness(l: Limits, maxIdle: Time, ops: seq<Op>, requests: seq<Op>)
    requires Ordered(ops, 0.0) && requests == RequestsOnly(ops)
    requires Answers(l, maxIdle, map[], ops) != Answers(l, maxIdle, map[], requests)
    ensures !Unobservable(l, maxIdle)
  {
  }

  lemma SameTail(a: seq<bool>, b: seq<bool>, c: seq<bool>)
    ensures a + b == a + c ==> b == c
  {
    assert (a + b)[|a|..] == b && (a + c)[|a|..] == c;
  }

  lemma ProbeOnly(at: Time, probe: seq<Op>)
    requires NoSweeps(probe)
    ensures ([Cleanup(at)] + probe)[1..] == probe
    ensures RequestsOnly([Cleanup(at)] + probe) == probe
  {
    RequestsInTwo(probe, []);
    assert probe + [] == probe;
  }

  /** An empty bucket idle for just too short to refill but long enough to be swept. */
  lemma SweptTooSoon(l: Limits, maxIdle: Time, s: Table, t: Time, at: Time)
    requires l.max >= 1.0 && l.rate > 0.0 && maxIdle < at - t && 0.0 <= (at - t) * l.rate < l.max
    requires s.Keys == {0} && WellFormed(l, s, t) && s[0].last == t <= at && Level(l, s, 0, t) == 0.0
    ensures Answers(l, maxIdle, Sweep(s, maxIdle, at), Probe(l, at)) != Answers(l, maxIdle, s, Probe(l, at))
  {
    LevelLater(l, s, 0, t, at);
    assert Sweep(s, maxIdle, at) == map[];
    ProbeTells(l, maxIdle, map[], at);
    ProbeTells(l, maxIdle, s, at);
  }

  /** With refills: drain, idle, probe. */
  lemma SweepShows(l: Limits, maxIdle: Time)
    requires l.max >= 1.0 && l.rate > 0.0 && maxIdle >= 0.0 && !GenerousIdle(l, maxIdle)
    ensures !Unobservable(l, maxIdle)
  {
    var (drain, t) := (Probe(l, 0.0), Top(l));
    ProbeInOrder(l, 0.0);
    FullBucket(l, maxIdle, map[], 0.0);
    var s := After(l, maxIdle, map[], drain);
    var idle := ShortIdle(l, maxIdle);
    var at := t + idle;
    SweptTooSoon(l, maxIdle, s, t, at);
    ProbeInOrder(l, at);
    SweepNoticed(l, maxIdle, drain, t, at, Probe(l, at));
  }

  lemma ShortIdle(l: Limits, maxIdle: Time) returns (d: Time)
    requires l.max >= 1.0 && l.rate > 0.0 && maxIdle >= 0.0 && !GenerousIdle(l, maxIdle)
    ensures maxIdle < d && 0.0 <= d * l.rate < l.max
  {
    var full := l.max / l.rate;
    assert full * l.rate == l.max;
    if maxIdle >= full {
      Products(l.rate, full, maxIdle - full);
    }
    d := (maxIdle + full) / 2.0;
    assert d * l.rate == (maxIdle * l.rate + full * l.rate) / 2.0;
  }

  /** Without refills: drain what whole tokens there are, be swept, ask. */
  lemma SweepShowsWithoutRefill(l: Limits, maxIdle: Time)
    requires l.max >= 1.0 && l.rate == 0.0 && maxIdle >= 0.0
    ensures !Unobservable(l, maxIdle)
  {
    var m: nat := l.max.Floor;
    var drain, at := Burst(m, 0.0), maxIdle + 1.0;
    BurstGranted(l, maxIdle, map[], m, 0.0);
    var s := After(l, maxIdle, map[], drain);
    LevelLater(l, s, 0, 0.0, at);
    assert Sweep(s, maxIdle, at) == map[];
    AskLevels(l, s, 0, 0, at);
    AskLevels(l, map[], 0, 0, at);
    var probe := [Request(0, at)];
    assert Answers(l, maxIdle, map[], probe) == [true];
    assert Answers(l, maxIdle, s, probe) == [false];
    SweepNoticed(l, maxIdle, drain, 0.0, at, probe);
  }

  /**
    Exactly when idle cleanup cannot be noticed: an idle bucket has had time to
    refill, or there is no room for a whole token anyway.
   */
  lemma CleanupIsUnobservable(l: Limits, maxIdle: Time)
    requires Sensible(l) && maxIdle >= 0.0
    ensures Unobservable(l, maxIdle) <==> GenerousIdle(l, maxIdle) || l.max < 1.0
  {
    if GenerousIdle(l, maxIdle) || l.max < 1.0 {
      forall from: Time, ops: seq<Op> | Ordered(ops, from)
        ensures Answers(l, maxIdle, map[], ops) == Answers(l, maxIdle, map[], RequestsOnly(ops))
      {
        if l.max < 1.0 {
          AllRefused(l, maxIdle, map[], map[], ops, from);
        } else {
          SameAnswers(l, maxIdle, map[], map[], ops, from);
        }
      }
    } else if l.rate > 0.0 {
      SweepShows(l, maxIdle);
    } else {
      SweepShowsWithoutRefill(l, maxIdle);
    }
  }

  // ------------------------------------------------ when the bound is broken

  /** No user gets more than capacity and rate allow, in any run from an empty table. */
  ghost predicate WindowBounded(l: Limits, maxIdle: Time) {
    forall from: Time, to: Time, ops: seq<Op>, u: User :: InWindow(ops, from, to) ==>
      Granted(l, maxIdle, map[], ops, u) as real <= l.max + (to - from) * l.rate
  }

  ghost predicate InWindow(ops: seq<Op>, from: Time, to: Time) {
    Ordered(ops, from) && from <= to && forall i :: 0 <= i < |ops| ==> ops[i].at <= to
  }

  lemma {:induction false} NothingGranted(l: Limits, maxIdle: Time, s: Table, ops: seq<Op>, u: User, now: Time)
    requires Sensible(l) && l.max < 1.0 && WellFormed(l, s, now) && Ordered(ops, now)
    ensures Granted(l, maxIdle, s, ops, u) == 0
    decreases |ops|
  {
    if ops != [] {
      var at := ops[0].at;
      match ops[0]
      case Request(v, _) =>
        AskLevels(l, s, v, v, at);
        LevelBounds(l, s, v, at);
        NothingGranted(l, maxIdle, Ask(l, s, v, at).0, ops[1..], u, at);
      case Cleanup(_) =>
        NothingGranted(l, maxIdle, Sweep(s, maxIdle, at), ops[1..], u, at);
    }
  }

  lemma {:induction false} GrantedInTwo(l: Limits, maxIdle: Time, s: Table, a: seq<Op>, b: seq<Op>, u: User)
    ensures Granted(l, maxIdle, s, a + b, u) == Granted(l, maxIdle, s, a, u) + Granted(l, maxIdle, After(l, maxIdle, s, a), b, u)
    decreases |a|
  {
    if a == [] {
      assert a + b == b;
    } else {
      assert (a + b)[1..] == a[1..] + b && (a + b)[0] == a[0];
      match a[0]
      case Request(v, now) => GrantedInTwo(l, maxIdle, Ask(l, s, v, now).0, a[1..], b, u);
      case Cleanup(now) => GrantedInTwo(l, maxIdle, Sweep(s, maxIdle, now), a[1..], b, u);
    }
  }

  /** A first round, a sweep that forgets it, and a second round. */
  lemma TwoRounds(l: Limits, maxIdle: Time, a: seq<Op>, at: Time, b: seq<Op>)
    requires Sweep(After(l, maxIdle, map[], a), maxIdle, at) == map[]
    ensures Granted(l, maxIdle, map[], a + ([Cleanup(at)] + b), 0) ==
              Granted(l, maxIdle, map[], a, 0) + Granted(l, maxIdle, map[], b, 0)
  {
    GrantedInTwo(l, maxIdle, map[], a, [Cleanup(at)] + b, 0);
    assert ([Cleanup(at)] + b)[1..] == b;
  }

  lemma RoundsInWindow(a: seq<Op>, mid: Time, at: Time, b: seq<Op>, to: Time)
    requires InWindow(a, 0.0, mid) && mid <= at && InWindow(b, at, to)
    ensures InWindow(a + ([Cleanup(at)] + b), 0.0, to)
  {
    var rest := [Cleanup(at)] + b;
    assert rest[1..] == b;
    OrderedInTwo(a, rest, 0.0, mid);
  }

  lemma ProbeGranted(l: Limits, maxIdle: Time, at: Time)
    requires l.max >= 1.0 && l.rate > 0.0
    ensures Granted(l, maxIdle, map[], Probe(l, at), 0) == l.max.Floor + 1
    ensures InWindow(Probe(l, at), at, at + Top(l))
  {
    ProbeInOrder(l, at);
    FullBucket(l, maxIdle, map[], at);
    AllYes(l, maxIdle, map[], Probe(l, at));
  }

  lemma TwiceTooMuch(l: Limits, idle: Time)
    requires l.max >= 1.0 && l.rate > 0.0 && idle * l.rate < l.max
    ensures (2 * (l.max.Floor + 1)) as real > l.max + (Top(l) + idle + Top(l)) * l.rate
  {
    assert (Top(l) + idle + Top(l)) * l.rate == Top(l) * l.rate + idle * l.rate + Top(l) * l.rate;
  }

  /** Two full rounds with an idle time between them that is too short to refill. */
  function TwoProbes(l: Limits, at: Time): seq<Op>
    requires l.max >= 1.0 && l.rate > 0.0
  {
    Probe(l, 0.0) + ([Cleanup(at)] + Probe(l, at))
  }

  lemma ProbesGranted(l: Limits, maxIdle: Time, at: Time)
    requires l.max >= 1.0 && l.rate > 0.0 && maxIdle >= 0.0 && maxIdle < at - Top(l)
    ensures Granted(l, maxIdle, map[], TwoProbes(l, at), 0) == 2 * (l.max.Floor + 1)
    ensures InWindow(TwoProbes(l, at), 0.0, at + Top(l))
  {
    ProbeGranted(l, maxIdle, 0.0);
    ProbeGranted(l, maxIdle, at);
    FullBucket(l, maxIdle, map[], 0.0);
    assert Sweep(After(l, maxIdle, map[], Probe(l, 0.0)), maxIdle, at) == map[];
    TwoRounds(l, maxIdle, Probe(l, 0.0), at, Probe(l, at));
    RoundsInWindow(Probe(l, 0.0), Top(l), at, Probe(l, at), at + Top(l));
  }

  lemma BoundBroken(l: Limits, maxIdle: Time)
    requires l.max >= 1.0 && l.rate > 0.0 && maxIdle >= 0.0 && !GenerousIdle(l, maxIdle)
    ensures !WindowBounded(l, maxIdle)
  {
    var idle := ShortIdle(l, maxIdle);
    var at := Top(l) + idle;
    ProbesGranted(l, maxIdle, at);
    TwiceTooMuch(l, idle);
    BrokenBy(l, maxIdle, TwoProbes(l, at), at + Top(l));
  }

  lemma BoundBrokenWithoutRefill(l: Limits, maxIdle: Time)
    requires l.max >= 1.0 && l.rate == 0.0 && maxIdle >= 0.0
    ensures !WindowBounded(l, maxIdle)
  {
    var m: nat := l.max.Floor;
    var at := maxIdle + 1.0;
    var (a, b) := (Burst(m, 0.0), Burst(m, at));
    BurstGranted(l, maxIdle, map[], m, 0.0);
    BurstGranted(l, maxIdle, map[], m, at);
    AllYes(l, maxIdle, map[], a);
    AllYes(l, maxIdle, map[], b);
    TwoRounds(l, maxIdle, a, at, b);
    RoundsInWindow(a, 0.0, at, b, at);
    BrokenBy(l, maxIdle, a + ([Cleanup(at)] + b), at);
  }

  lemma BrokenBy(l: Limits, maxIdle: Time, ops: seq<Op>, to: Time)
    requires InWindow(ops, 0.0, to) && Granted(l, maxIdle, map[], ops, 0) as real > l.max + to * l.rate
    ensures !WindowBounded(l, maxIdle)
  {
    assert to - 0.0 == to;
  }

  /** The window bound survives cleanups exactly when they cannot be noticed. */
  lemma WindowBoundExactly(l: Limits, maxIdle: Time)
    requires Sensible(l) && maxIdle >= 0.0
    ensures WindowBounded(l, maxIdle) <==> GenerousIdle(l, maxIdle) || l.max < 1.0
  {
    if GenerousIdle(l, maxIdle) || l.max < 1.0 {
      forall from: Time, to: Time, ops: seq<Op>, u: User | InWindow(ops, from, to)
        ensures Granted(l, maxIdle, map[], ops, u) as real <= l.max + (to - from) * l.rate
      {
        if l.max < 1.0 {
          NothingGranted(l, maxIdle, map[], ops, u, from);
          Products(l.rate, to - from, 0.0);
        } else {
          WindowBound(l, maxIdle, map[], ops, u, from, to);
        }
      }
    } else if l.rate > 0.0 {
      BoundBroken(l, maxIdle);
    } else {
      BoundBrokenWithoutRefill(l, maxIdle);
    }
  }

  // ------------------------------------------ what Allow's two steps can lose

  /** Allow looks the bucket up and only then takes from it; a cleanup can come between. */
  datatype Shared = Shared(table: map<User, nat>, objects: seq<Bucket>)

  function Fetch(l: Limits, s: Shared, u: User, now: Time): (Shared, nat) {
    if u in s.table then (s, s.table[u])
    else (Shared(s.table[u := |s.objects|], s.objects + [Bucket(l.max, now)]), |s.objects|)
  }

  function Use(l: Limits, s: Shared, id: nat, now: Time): (Shared, bool)
    requires id < |s.objects|
  {
    var (b, ok) := Take(l, s.objects[id], 1.0, now);
    (s.(objects := s.objects[id := b]), ok)
  }

  predicate Linked(s: Shared) {
    && (forall u :: u in s.table ==> s.table[u] < |s.objects|)
    && (forall u, v :: u in s.table && v in s.table && u != v ==> s.table[u] != s.table[v])
  }

  function TableOf(s: Shared): Table
    requires Linked(s)
  {
    map u | u in s.table :: s.objects[s.table[u]]
  }

  function SweepShared(s: Shared, maxIdle: Time, now: Time): Shared
    requires Linked(s)
  {
    s.(table := map u | u in s.table && now - s.objects[s.table[u]].last <= maxIdle :: s.table[u])
  }

  lemma FetchLinks(l: Limits, s: Shared, u: User, now: Time)
    requires Linked(s)
    ensures var (s', id) := Fetch(l, s, u, now);
            && Linked(s') && u in s'.table && s'.table[u] == id
            && s'.table.Keys == s.table.Keys + {u}
            && (forall v :: v in s.table ==> s'.table[v] == s.table[v] && s'.objects[s.table[v]] == s.objects[s.table[v]])
            && (u !in s.table ==> s'.objects[id] == Bucket(l.max, now))
  {
  }

  lemma Fetched(l: Limits, s: Shared, u: User, now: Time)
    requires Linked(s)
    ensures Linked(Fetch(l, s, u, now).0)
    ensures TableOf(Fetch(l, s, u, now).0) == TableOf(s)[u := Found(l, TableOf(s), u, now)]
  {
    var before := TableOf(s);
    if u in s.table {
      assert before[u := before[u]] == before;
    } else {
      NewBucketFetched(l, s, u, now);
    }
  }

  lemma NewBucketFetched(l: Limits, s: Shared, u: User, now: Time)
    requires Linked(s) && u !in s.table
    ensures Linked(Fetch(l, s, u, now).0)
    ensures TableOf(Fetch(l, s, u, now).0) == TableOf(s)[u := Bucket(l.max, now)]
  {
    FetchLinks(l, s, u, now);
    var (before, after) := (TableOf(s), TableOf(Fetch(l, s, u, now).0));
    assert after.Keys == before.Keys + {u};
    assert forall v :: v in before ==> after[v] == before[v];
    assert after == before[u := after[u]];
  }

  lemma Used(l: Limits, s: Shared, u: User, now: Time)
    requires Linked(s) && u in s.table
    ensures var used := Use(l, s, s.table[u], now).0;
            && Linked(used)
            && TableOf(used) == TableOf(s)[u := Take(l, TableOf(s)[u], 1.0, now).0]
  {
    var used := Use(l, s, s.table[u], now).0;
    assert TableOf(used)[u] == Take(l, TableOf(s)[u], 1.0, now).0;
    forall v | v in s.table && v != u
      ensures TableOf(used)[v] == TableOf(s)[v]
    {
      assert used.table[v] == s.table[v] && used.objects[used.table[v]] == s.objects[s.table[v]];
    }
    assert TableOf(used).Keys == TableOf(s).Keys + {u};
    assert TableOf(used) == TableOf(s)[u := TableOf(used)[u]];
  }

  /** With nothing between them, the two steps are one request. */
  lemma FetchThenUseIsAsk(l: Limits, s: Shared, u: User, now: Time)
    requires Linked(s)
    ensures var (s', id) := Fetch(l, s, u, now);
            && Linked(s') && id < |s'.objects| && Linked(Use(l, s', id, now).0)
            && (TableOf(Use(l, s', id, now).0), Use(l, s', id, now).1) == Ask(l, TableOf(s), u, now)
  {
    var (s', id) := Fetch(l, s, u, now);
    FetchLinks(l, s, u, now);
    Fetched(l, s, u, now);
    Used(l, s', u, now);
    var b := Found(l, TableOf(s), u, now);
    assert TableOf(s)[u := b][u := Take(l, b, 1.0, now).0] == TableOf(s)[u := Take(l, b, 1.0, now).0];
  }

  lemma SweepSharedIsSweep(s: Shared, maxIdle: Time, now: Time)
    requires Linked(s)
    ensures Linked(SweepShared(s, maxIdle, now))
    ensures TableOf(SweepShared(s, maxIdle, now)) == Sweep(TableOf(s), maxIdle, now)
  {
  }

  /**
    A cleanup between the two steps: the request still is one request exactly if the
    cleanup keeps the bucket it looked up; otherwise it is on a bucket nobody sees.
   */
  lemma OrphanedExactly(l: Limits, s: Shared, u: User, looked: Time, swept: Time, now: Time, maxIdle: Time)
    requires Linked(s)
    ensures var (s1, id) := Fetch(l, s, u, looked);
            && Linked(s1) && id < |s1.objects|
            && var s2 := SweepShared(s1, maxIdle, swept);
            && Linked(s2) && Linked(Use(l, s2, id, now).0)
            && (TableOf(Use(l, s2, id, now).0) == Ask(l, TableOf(s2), u, now).0 <==> swept - s1.objects[id].last <= maxIdle)
  {
    FetchLinks(l, s, u, looked);
    var (s1, id) := Fetch(l, s, u, looked);
    SweepSharedIsSweep(s1, maxIdle, swept);
    var s2 := SweepShared(s1, maxIdle, swept);
    if u in s2.table {
      Used(l, s2, u, now);
    } else {
      assert u !in TableOf(Use(l, s2, id, now).0) && u in Ask(l, TableOf(s2), u, now).0;
    }
  }
}
