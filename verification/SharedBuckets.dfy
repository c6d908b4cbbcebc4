/**
  The per-user rate limiter as its callers run it: a request looks its bucket up and
  takes from it later, under another lock, and any number of requests and cleanups
  interleave.  A cleanup can drop a bucket that a request still holds.
 */
module SharedBuckets {
  import opened RateLimiter

  /** One outstanding request of a user. */
  type Ticket = (User, nat)

  /** `waiting` maps the requests that looked up but did not take yet to their bucket. */
  datatype Live = Live(shared: Shared, waiting: map<Ticket, nat>)

  datatype Step =
    | Look(user: User, tag: nat, at: Time)
    | TakeOne(user: User, tag: nat, at: Time)
    | Prune(at: Time)

  // ------------------------------------------------------------------- steps

  predicate Valid(s: Live) {
    Linked(s.shared) && forall k :: k in s.waiting ==> s.waiting[k] < |s.shared.objects|
  }

  predicate New(s: Live) {
    s.shared.table == map[] && s.shared.objects == [] && s.waiting == map[]
  }

  predicate Enabled(s: Live, step: Step) {
    match step
    case Look(u, tag, _) => (u, tag) !in s.waiting
    case TakeOne(u, tag, _) => (u, tag) in s.waiting
    case Prune(_) => true
  }

  function Apply(l: Limits, maxIdle: Time, s: Live, step: Step): (s': Live)
    requires Valid(s) && Enabled(s, step)
    ensures Valid(s')
  {
    match step
    case Look(u, tag, now) =>
      FetchLinks(l, s.shared, u, now);
      var (shared, id) := Fetch(l, s.shared, u, now);
      Live(shared, s.waiting[(u, tag) := id])
    case TakeOne(u, tag, now) => Live(Use(l, s.shared, s.waiting[(u, tag)], now).0, s.waiting - {(u, tag)})
    case Prune(now) => Live(SweepShared(s.shared, maxIdle, now), s.waiting)
  }

  /** The step is a request that is granted. */
  predicate Grants(l: Limits, s: Live, step: Step)
    requires Valid(s) && Enabled(s, step)
  {
    step.TakeOne? && Use(l, s.shared, s.waiting[(step.user, step.tag)], step.at).1
  }

  /** Every step enabled in its turn, on a clock that never goes back. */
  predicate Proper(l: Limits, maxIdle: Time, s: Live, steps: seq<Step>, from: Time)
    requires Valid(s)
    decreases |steps|
  {
    steps == [] ||
    (from <= steps[0].at && Enabled(s, steps[0]) && Proper(l, maxIdle, Apply(l, maxIdle, s, steps[0]), steps[1..], steps[0].at))
  }

  /** No cleanup of the run drops a bucket that a request has looked up and not used yet. */
  predicate Safe(l: Limits, maxIdle: Time, s: Live, steps: seq<Step>)
    requires Valid(s)
    decreases |steps|
  {
    steps == [] ||
    (&& (steps[0].Prune? ==> NobodyWaits(s, maxIdle, steps[0].at))
     && (Enabled(s, steps[0]) ==> Safe(l, maxIdle, Apply(l, maxIdle, s, steps[0]), steps[1..])))
  }

  predicate NobodyWaits(s: Live, maxIdle: Time, now: Time)
    requires Valid(s)
  {
    forall k :: k in s.waiting && k.0 in s.shared.table && s.shared.table[k.0] == s.waiting[k] ==>
      now - s.shared.objects[s.waiting[k]].last <= maxIdle
  }

  function Run(l: Limits, maxIdle: Time, s: Live, steps: seq<Step>): (s': Live)
    requires Valid(s)
    ensures Valid(s')
    decreases |steps|
  {
    if steps == [] || !Enabled(s, steps[0]) then s else Run(l, maxIdle, Apply(l, maxIdle, s, steps[0]), steps[1..])
  }

  /** The answers to the requests, in the order they take. */
  function LiveAnswers(l: Limits, maxIdle: Time, s: Live, steps: seq<Step>): seq<bool>
    requires Valid(s)
    decreases |steps|
  {
    if steps == [] || !Enabled(s, steps[0]) then []
    else (if steps[0].TakeOne? then [Grants(l, s, steps[0])] else []) + LiveAnswers(l, maxIdle, Apply(l, maxIdle, s, steps[0]), steps[1..])
  }

  function LiveGranted(l: Limits, maxIdle: Time, s: Live, steps: seq<Step>, u: User): nat
    requires Valid(s)
    decreases |steps|
  {
    if steps == [] || !Enabled(s, steps[0]) then 0
    else (if Grants(l, s, steps[0]) && steps[0].user == u then 1 else 0) + LiveGranted(l, maxIdle, Apply(l, maxIdle, s, steps[0]), steps[1..], u)
  }

  /** The takes as requests of one step each. */
  function Requests(steps: seq<Step>): seq<Op>
    decreases |steps|
  {
    if steps == [] then []
    else (if steps[0].TakeOne? then [Request(steps[0].user, steps[0].at)] else []) + Requests(steps[1..])
  }

  // -------------------------------------- safe runs are runs of whole requests

  /** Every waiting request holds the bucket its user has in the table. */
  predicate Attached(s: Live) {
    forall k :: k in s.waiting ==> k.0 in s.shared.table && s.shared.table[k.0] == s.waiting[k]
  }

  lemma LookStep(l: Limits, maxIdle: Time, s: Live, step: Step)
    requires Valid(s) && Attached(s) && Enabled(s, step) && step.Look?
    ensures var s' := Apply(l, maxIdle, s, step);
            && Attached(s')
            && TableOf(s'.shared) == TableOf(s.shared)[step.user := Found(l, TableOf(s.shared), step.user, step.at)]
  {
    FetchLinks(l, s.shared, step.user, step.at);
    Fetched(l, s.shared, step.user, step.at);
  }

  /** Looking up changes nobody's level. */
  lemma LookLevels(l: Limits, t: Table, u: User, v: User, now: Time)
    requires Sensible(l) && WellFormed(l, t, now)
    ensures var t' := t[u := Found(l, t, u, now)];
            WellFormed(l, t', now) && Level(l, t', v, now) == Level(l, t, v, now)
  {
  }

  /** A request on an attached bucket is one whole request. */
  lemma TakeStep(l: Limits, maxIdle: Time, s: Live, step: Step)
    requires Valid(s) && Attached(s) && Enabled(s, step) && step.TakeOne?
    ensures var s' := Apply(l, maxIdle, s, step);
            && Attached(s')
            && (TableOf(s'.shared), Grants(l, s, step)) == Ask(l, TableOf(s.shared), step.user, step.at)
  {
    assert s.shared.table[step.user] == s.waiting[(step.user, step.tag)];
    Used(l, s.shared, step.user, step.at);
  }

  lemma PruneStep(l: Limits, maxIdle: Time, s: Live, step: Step)
    requires Valid(s) && Attached(s) && step.Prune? && NobodyWaits(s, maxIdle, step.at)
    ensures var s' := Apply(l, maxIdle, s, step);
            Attached(s') && TableOf(s'.shared) == Sweep(TableOf(s.shared), maxIdle, step.at)
  {
    SweepSharedIsSweep(s.shared, maxIdle, step.at);
  }

  ghost predicate SameLevels(l: Limits, t: Table, f: Table, now: Time) {
    WellFormed(l, t, now) && WellFormed(l, f, now) && forall u :: Level(l, t, u, now) == Level(l, f, u, now)
  }

  lemma SameLater(l: Limits, t: Table, f: Table, now: Time, later: Time)
    requires Sensible(l) && SameLevels(l, t, f, now) && now <= later
    ensures SameLevels(l, t, f, later)
  {
    forall u
      ensures Level(l, t, u, later) == Level(l, f, u, later)
    {
      LevelLater(l, t, u, now, later);
      LevelLater(l, f, u, now, later);
    }
  }

  lemma SameAfterRequest(l: Limits, t: Table, f: Table, v: User, now: Time)
    requires Sensible(l) && SameLevels(l, t, f, now)
    ensures Ask(l, t, v, now).1 == Ask(l, f, v, now).1
    ensures SameLevels(l, Ask(l, t, v, now).0, Ask(l, f, v, now).0, now)
  {
    forall u
      ensures Ask(l, t, v, now).1 == Ask(l, f, v, now).1
      ensures Level(l, Ask(l, t, v, now).0, u, now) == Level(l, Ask(l, f, v, now).0, u, now)
    {
      AskLevels(l, t, v, u, now);
      AskLevels(l, f, v, u, now);
    }
    AskLevels(l, t, v, v, now);
    AskLevels(l, f, v, v, now);
  }

  /** What every step of a safe run does to the table's levels, against a table that is never swept. */
  lemma StepSimulates(l: Limits, maxIdle: Time, s: Live, f: Table, step: Step)
    requires Sensible(l) && GenerousIdle(l, maxIdle) && Valid(s) && Attached(s) && Enabled(s, step)
    requires SameLevels(l, TableOf(s.shared), f, step.at) && (step.Prune? ==> NobodyWaits(s, maxIdle, step.at))
    ensures var s' := Apply(l, maxIdle, s, step);
            && Attached(s')
            && (step.TakeOne? ==> Grants(l, s, step) == Ask(l, f, step.user, step.at).1)
            && SameLevels(l, TableOf(s'.shared), if step.TakeOne? then Ask(l, f, step.user, step.at).0 else f, step.at)
  {
    var t := TableOf(s.shared);
    match step
    case Look(u, _, now) =>
      LookStep(l, maxIdle, s, step);
      forall v
        ensures WellFormed(l, t[u := Found(l, t, u, now)], now)
        ensures Level(l, t[u := Found(l, t, u, now)], v, now) == Level(l, t, v, now)
      {
        LookLevels(l, t, u, v, now);
      }
      LookLevels(l, t, u, u, now);
    case TakeOne(u, _, now) =>
      TakeStep(l, maxIdle, s, step);
      SameAfterRequest(l, t, f, u, now);
    case Prune(now) =>
      PruneStep(l, maxIdle, s, step);
      forall v
        ensures WellFormed(l, Sweep(t, maxIdle, now), now)
        ensures Level(l, Sweep(t, maxIdle, now), v, now) == Level(l, t, v, now)
      {
        SweepLevels(l, t, maxIdle, v, now);
      }
      SweepLevels(l, t, maxIdle, 0, now);
  }

  lemma RequestFirst(l: Limits, maxIdle: Time, f: Table, v: User, now: Time, ops: seq<Op>, u: User)
    ensures var (f', ok) := Ask(l, f, v, now);
            && Answers(l, maxIdle, f, [Request(v, now)] + ops) == [ok] + Answers(l, maxIdle, f', ops)
            && Granted(l, maxIdle, f, [Request(v, now)] + ops, u) == (if v == u && ok then 1 else 0) + Granted(l, maxIdle, f', ops, u)
  {
    assert ([Request(v, now)] + ops)[1..] == ops;
  }

  /** A run goes on as its first step and the rest. */
  lemma StepFirst(l: Limits, maxIdle: Time, s: Live, step: Step, rest: seq<Step>, u: User)
    requires Valid(s) && Enabled(s, step)
    ensures var s' := Apply(l, maxIdle, s, step);
            && LiveAnswers(l, maxIdle, s, [step] + rest) ==
                 (if step.TakeOne? then [Grants(l, s, step)] else []) + LiveAnswers(l, maxIdle, s', rest)
            && LiveGranted(l, maxIdle, s, [step] + rest, u) ==
                 (if Grants(l, s, step) && step.user == u then 1 else 0) + LiveGranted(l, maxIdle, s', rest, u)
            && Requests([step] + rest) == (if step.TakeOne? then [Request(step.user, step.at)] else []) + Requests(rest)
  {
    assert ([step] + rest)[1..] == rest;
  }

  lemma TakeThenRest(l: Limits, maxIdle: Time, s: Live, f: Table, step: Step, rest: seq<Step>, u: User)
    requires Valid(s) && Enabled(s, step) && step.TakeOne?
    requires var (s', f') := (Apply(l, maxIdle, s, step), Ask(l, f, step.user, step.at).0);
             && Grants(l, s, step) == Ask(l, f, step.user, step.at).1
             && LiveAnswers(l, maxIdle, s', rest) == Answers(l, maxIdle, f', Requests(rest))
             && LiveGranted(l, maxIdle, s', rest, u) == Granted(l, maxIdle, f', Requests(rest), u)
    ensures LiveAnswers(l, maxIdle, s, [step] + rest) == Answers(l, maxIdle, f, Requests([step] + rest))
    ensures LiveGranted(l, maxIdle, s, [step] + rest, u) == Granted(l, maxIdle, f, Requests([step] + rest), u)
  {
    StepFirst(l, maxIdle, s, step, rest, u);
    RequestFirst(l, maxIdle, f, step.user, step.at, Requests(rest), u);
  }

  lemma OtherThenRest(l: Limits, maxIdle: Time, s: Live, f: Table, step: Step, rest: seq<Step>, u: User)
    requires Valid(s) && Enabled(s, step) && !step.TakeOne?
    requires var s' := Apply(l, maxIdle, s, step);
             && LiveAnswers(l, maxIdle, s', rest) == Answers(l, maxIdle, f, Requests(rest))
             && LiveGranted(l, maxIdle, s', rest, u) == Granted(l, maxIdle, f, Requests(rest), u)
    ensures LiveAnswers(l, maxIdle, s, [step] + rest) == Answers(l, maxIdle, f, Requests([step] + rest))
    ensures LiveGranted(l, maxIdle, s, [step] + rest, u) == Granted(l, maxIdle, f, Requests([step] + rest), u)
  {
    StepFirst(l, maxIdle, s, step, rest, u);
    assert Requests([step] + rest) == Requests(rest);
  }

  /**
    With generous idle times a safe run answers as one in which each request is a
    single step at the moment it takes, and nothing is ever swept.
   */
  lemma {:induction false} SafeRunSimulates(l: Limits, maxIdle: Time, s: Live, f: Table, steps: seq<Step>, now: Time, u: User)
    requires Sensible(l) && GenerousIdle(l, maxIdle) && Valid(s) && Attached(s)
    requires SameLevels(l, TableOf(s.shared), f, now)
    requires Proper(l, maxIdle, s, steps, now) && Safe(l, maxIdle, s, steps)
    ensures LiveAnswers(l, maxIdle, s, steps) == Answers(l, maxIdle, f, Requests(steps))
    ensures LiveGranted(l, maxIdle, s, steps, u) == Granted(l, maxIdle, f, Requests(steps), u)
    decreases |steps|
  {
    if steps != [] {
      var (step, rest) := (steps[0], steps[1..]);
      assert steps == [step] + rest;
      SameLater(l, TableOf(s.shared), f, now, step.at);
      StepSimulates(l, maxIdle, s, f, step);
      var s' := Apply(l, maxIdle, s, step);
      if step.TakeOne? {
        SafeRunSimulates(l, maxIdle, s', Ask(l, f, step.user, step.at).0, rest, step.at, u);
        TakeThenRest(l, maxIdle, s, f, step, rest, u);
      } else {
        SafeRunSimulates(l, maxIdle, s', f, rest, step.at, u);
        OtherThenRest(l, maxIdle, s, f, step, rest, u);
      }
    }
  }

  lemma {:induction false} RequestsInTime(steps: seq<Step>, from: Time, to: Time)
    requires forall i :: 0 <= i < |steps| ==> from <= steps[i].at <= to
    ensures NoSweeps(Requests(steps))
    ensures forall i :: 0 <= i < |Requests(steps)| ==> from <= Requests(steps)[i].at <= to
    decreases |steps|
  {
    if steps != [] {
      RequestsInTime(steps[1..], from, to);
    }
  }

  lemma {:induction false} ProperIsLater(l: Limits, maxIdle: Time, s: Live, steps: seq<Step>, from: Time)
    requires Valid(s) && Proper(l, maxIdle, s, steps, from)
    ensures forall i :: 0 <= i < |steps| ==> from <= steps[i].at
    decreases |steps|
  {
    if steps != [] {
      ProperIsLater(l, maxIdle, Apply(l, maxIdle, s, steps[0]), steps[1..], steps[0].at);
      forall i | 0 < i < |steps|
        ensures from <= steps[i].at
      {
        assert steps[i] == steps[1..][i - 1];
      }
    }
  }

  lemma {:induction false} RequestsInOrder(l: Limits, maxIdle: Time, s: Live, steps: seq<Step>, from: Time)
    requires Valid(s) && Proper(l, maxIdle, s, steps, from)
    ensures Ordered(Requests(steps), from)
    decreases |steps|
  {
    if steps != [] {
      RequestsInOrder(l, maxIdle, Apply(l, maxIdle, s, steps[0]), steps[1..], steps[0].at);
      var rest := Requests(steps[1..]);
      if steps[0].TakeOne? {
        assert Requests(steps)[1..] == rest;
      } else {
        assert Requests(steps) == rest;
        OrderedEarlier(rest, steps[0].at, from);
      }
    }
  }

  lemma OrderedEarlier(ops: seq<Op>, now: Time, from: Time)
    requires Ordered(ops, now) && from <= now
    ensures Ordered(ops, from)
  {
  }

  // ----------------------------------------------------------- in any window

  /** A run of a new limiter, and a window of it. */
  ghost predicate InLiveWindow(l: Limits, maxIdle: Time, s: Live, start: Time, before: seq<Step>, window: seq<Step>, from: Time, to: Time) {
    && New(s) && Valid(s) && Proper(l, maxIdle, s, before, start) && start <= from && (forall i :: 0 <= i < |before| ==> before[i].at <= from)
    && from <= to && Proper(l, maxIdle, Run(l, maxIdle, s, before), window, from)
    && forall i :: 0 <= i < |window| ==> window[i].at <= to
  }

  /** No user gets more in the window than capacity and rate allow. */
  ghost predicate Bounded(l: Limits, maxIdle: Time, s: Live, window: seq<Step>, from: Time, to: Time)
    requires Valid(s)
  {
    forall u: User :: LiveGranted(l, maxIdle, s, window, u) as real <= l.max + (to - from) * l.rate
  }

  ghost predicate AllBounded(l: Limits, maxIdle: Time) {
    forall s: Live, start: Time, before: seq<Step>, window: seq<Step>, from: Time, to: Time ::
      InLiveWindow(l, maxIdle, s, start, before, window, from, to) ==> Bounded(l, maxIdle, Run(l, maxIdle, s, before), window, from, to)
  }

  /** If neither the run nor the window has an unsafe cleanup, the window is within bounds. */
  ghost predicate SafeWindowHolds(l: Limits, maxIdle: Time, s: Live, start: Time, before: seq<Step>, window: seq<Step>, from: Time, to: Time) {
    InLiveWindow(l, maxIdle, s, start, before, window, from, to)
    && Safe(l, maxIdle, s, before) && Safe(l, maxIdle, Run(l, maxIdle, s, before), window) ==>
      Bounded(l, maxIdle, Run(l, maxIdle, s, before), window, from, to)
  }

  ghost predicate SafeBounded(l: Limits, maxIdle: Time) {
    forall s: Live, start: Time, before: seq<Step>, window: seq<Step>, from: Time, to: Time ::
      SafeWindowHolds(l, maxIdle, s, start, before, window, from, to)
  }

  /** A safe run keeps every waiting request attached. */
  lemma {:induction false} SafeStaysAttached(l: Limits, maxIdle: Time, s: Live, steps: seq<Step>, now: Time, later: Time)
    requires Sensible(l) && GenerousIdle(l, maxIdle) && Valid(s) && Attached(s) && WellFormed(l, TableOf(s.shared), now)
    requires Proper(l, maxIdle, s, steps, now) && Safe(l, maxIdle, s, steps)
    requires now <= later && forall i :: 0 <= i < |steps| ==> steps[i].at <= later
    ensures Attached(Run(l, maxIdle, s, steps)) && WellFormed(l, TableOf(Run(l, maxIdle, s, steps).shared), later)
    decreases |steps|
  {
    if steps != [] {
      var (step, t) := (steps[0], TableOf(s.shared));
      assert steps[0].at <= later;
      StepSimulates(l, maxIdle, s, t, step);
      SafeStaysAttached(l, maxIdle, Apply(l, maxIdle, s, step), steps[1..], step.at, later);
    }
  }

  lemma SafeWindowBound(l: Limits, maxIdle: Time, s: Live, start: Time, before: seq<Step>, window: seq<Step>, from: Time, to: Time)
    requires Sensible(l) && GenerousIdle(l, maxIdle) && InLiveWindow(l, maxIdle, s, start, before, window, from, to)
    requires Safe(l, maxIdle, s, before) && Safe(l, maxIdle, Run(l, maxIdle, s, before), window)
    ensures Bounded(l, maxIdle, Run(l, maxIdle, s, before), window, from, to)
  {
    var m := Run(l, maxIdle, s, before);
    SafeStaysAttached(l, maxIdle, s, before, start, from);
    var t := TableOf(m.shared);
    RequestsInOrder(l, maxIdle, m, window, from);
    ProperIsLater(l, maxIdle, m, window, from);
    RequestsInTime(window, from, to);
    forall u: User
      ensures LiveGranted(l, maxIdle, m, window, u) as real <= l.max + (to - from) * l.rate
    {
      SafeRunSimulates(l, maxIdle, m, t, window, from, u);
      WindowBound(l, maxIdle, t, Requests(window), u, from, to);
    }
  }

  // ------------------------------------------------------ too small for a token

  predicate Capped(l: Limits, s: Live) {
    forall i :: 0 <= i < |s.shared.objects| ==> s.shared.objects[i].tokens <= l.max
  }

  function Refusals(n: nat): seq<bool> {
    seq(n, i => false)
  }

  lemma CappedStays(l: Limits, maxIdle: Time, s: Live, step: Step)
    requires Sensible(l) && Valid(s) && Capped(l, s) && Enabled(s, step)
    ensures Capped(l, Apply(l, maxIdle, s, step))
    ensures l.max < 1.0 ==> !Grants(l, s, step)
  {
  }

  lemma {:induction false} NothingLiveGranted(l: Limits, maxIdle: Time, s: Live, steps: seq<Step>, from: Time, u: User)
    requires Sensible(l) && l.max < 1.0 && Valid(s) && Capped(l, s) && Proper(l, maxIdle, s, steps, from)
    ensures LiveGranted(l, maxIdle, s, steps, u) == 0
    ensures LiveAnswers(l, maxIdle, s, steps) == Refusals(|Requests(steps)|)
    decreases |steps|
  {
    if steps != [] {
      CappedStays(l, maxIdle, s, steps[0]);
      NothingLiveGranted(l, maxIdle, Apply(l, maxIdle, s, steps[0]), steps[1..], steps[0].at, u);
    }
  }

  lemma {:induction false} CappedOverRun(l: Limits, maxIdle: Time, s: Live, steps: seq<Step>)
    requires Sensible(l) && Valid(s) && Capped(l, s)
    ensures Capped(l, Run(l, maxIdle, s, steps))
    decreases |steps|
  {
    if steps != [] && Enabled(s, steps[0]) {
      CappedStays(l, maxIdle, s, steps[0]);
      CappedOverRun(l, maxIdle, Apply(l, maxIdle, s, steps[0]), steps[1..]);
    }
  }

  // ----------------------------------------------- whole requests are safe runs

  /** Each request looks up and takes at once. */
  function AtOnce(ops: seq<Op>): seq<Step>
    decreases |ops|
  {
    if ops == [] then [] else StepsOf(ops[0]) + AtOnce(ops[1..])
  }

  /** Nobody waits, and the table is t. */
  predicate Idle(s: Live, t: Table) {
    Valid(s) && s.waiting == map[] && TableOf(s.shared) == t
  }

  lemma RequestAtOnce(l: Limits, maxIdle: Time, s: Live, t: Table, u: User, now: Time)
    requires Idle(s, t)
    ensures Enabled(s, Look(u, 0, now))
    ensures var s1 := Apply(l, maxIdle, s, Look(u, 0, now));
            && Enabled(s1, TakeOne(u, 0, now))
            && Idle(Apply(l, maxIdle, s1, TakeOne(u, 0, now)), Ask(l, t, u, now).0)
            && Grants(l, s1, TakeOne(u, 0, now)) == Ask(l, t, u, now).1
  {
    FetchThenUseIsAsk(l, s.shared, u, now);
    FetchLinks(l, s.shared, u, now);
    var s1 := Apply(l, maxIdle, s, Look(u, 0, now));
    assert s1.waiting == map[(u, 0) := Fetch(l, s.shared, u, now).1];
    assert s1.waiting - {(u, 0)} == map[];
  }

  lemma {:induction false} AtOnceIsSafe(l: Limits, maxIdle: Time, s: Live, t: Table, ops: seq<Op>, from: Time, u: User)
    requires Idle(s, t) && Ordered(ops, from)
    ensures Proper(l, maxIdle, s, AtOnce(ops), from) && Safe(l, maxIdle, s, AtOnce(ops))
    ensures LiveAnswers(l, maxIdle, s, AtOnce(ops)) == Answers(l, maxIdle, t, ops)
    ensures LiveGranted(l, maxIdle, s, AtOnce(ops), u) == Granted(l, maxIdle, t, ops, u)
    decreases |ops|
  {
    if ops != [] {
      var rest := AtOnce(ops[1..]);
      match ops[0]
      case Request(v, now) => RequestThenRest(l, maxIdle, s, t, v, ops, rest, from, u);
      case Cleanup(now) =>
        SweepSharedIsSweep(s.shared, maxIdle, now);
        var s' := Apply(l, maxIdle, s, Prune(now));
        AtOnceIsSafe(l, maxIdle, s', Sweep(t, maxIdle, now), ops[1..], now, u);
        assert AtOnce(ops)[1..] == rest;
    }
  }

  lemma FirstIsProper(l: Limits, maxIdle: Time, s: Live, step: Step, rest: seq<Step>, from: Time)
    requires Valid(s) && Enabled(s, step) && !step.Prune? && from <= step.at
    requires Proper(l, maxIdle, Apply(l, maxIdle, s, step), rest, step.at) && Safe(l, maxIdle, Apply(l, maxIdle, s, step), rest)
    ensures Proper(l, maxIdle, s, [step] + rest, from) && Safe(l, maxIdle, s, [step] + rest)
  {
    assert ([step] + rest)[1..] == rest;
  }

  lemma {:induction false} RequestThenRest(l: Limits, maxIdle: Time, s: Live, t: Table, v: User, ops: seq<Op>, rest: seq<Step>, from: Time, u: User)
    requires Idle(s, t) && Ordered(ops, from) && ops != [] && ops[0] == Request(v, ops[0].at) && rest == AtOnce(ops[1..])
    ensures Proper(l, maxIdle, s, AtOnce(ops), from) && Safe(l, maxIdle, s, AtOnce(ops))
    ensures LiveAnswers(l, maxIdle, s, AtOnce(ops)) == Answers(l, maxIdle, t, ops)
    ensures LiveGranted(l, maxIdle, s, AtOnce(ops), u) == Granted(l, maxIdle, t, ops, u)
    decreases |ops|, 0
  {
    var now := ops[0].at;
    var (look, take) := (Look(v, 0, now), TakeOne(v, 0, now));
    RequestAtOnce(l, maxIdle, s, t, v, now);
    var s1 := Apply(l, maxIdle, s, look);
    var s2 := Apply(l, maxIdle, s1, take);
    AtOnceIsSafe(l, maxIdle, s2, Ask(l, t, v, now).0, ops[1..], now, u);
    FirstIsProper(l, maxIdle, s1, take, rest, now);
    FirstIsProper(l, maxIdle, s, look, [take] + rest, from);
    StepFirst(l, maxIdle, s1, take, rest, u);
    StepFirst(l, maxIdle, s, look, [take] + rest, u);
    assert AtOnce(ops) == [look] + ([take] + rest);
  }

  // ---------------------------------------------------------------- exactly when

  lemma TimesAtOnce(ops: seq<Op>, to: Time)
    requires forall i :: 0 <= i < |ops| ==> ops[i].at <= to
    ensures forall i :: 0 <= i < |AtOnce(ops)| ==> AtOnce(ops)[i].at <= to
  {
    if ops != [] {
      TimesAtOnce(ops[1..], to);
    }
  }

  /** A limiter nobody has asked yet. */
  function NewLive(): (s: Live)
    ensures New(s) && Idle(s, map[])
  {
    var s := Live(Shared(map[], []), map[]);
    assert TableOf(s.shared) == map[];
    s
  }

  lemma WholeRunIsAWindow(l: Limits, maxIdle: Time, s: Live, window: seq<Step>, from: Time, to: Time)
    requires New(s) && Valid(s) && Proper(l, maxIdle, s, window, from)
    requires from <= to && forall i :: 0 <= i < |window| ==> window[i].at <= to
    ensures Run(l, maxIdle, s, []) == s && Safe(l, maxIdle, s, [])
    ensures InLiveWindow(l, maxIdle, s, from, [], window, from, to)
  {
  }

  lemma BrokenByWindow(l: Limits, maxIdle: Time, s: Live, window: seq<Step>, from: Time, to: Time, u: User)
    requires New(s) && Valid(s) && Proper(l, maxIdle, s, window, from) && Safe(l, maxIdle, s, window)
    requires from <= to && forall i :: 0 <= i < |window| ==> window[i].at <= to
    requires !(LiveGranted(l, maxIdle, s, window, u) as real <= l.max + (to - from) * l.rate)
    ensures !SafeBounded(l, maxIdle)
  {
    WholeRunIsAWindow(l, maxIdle, s, window, from, to);
    NotBounded(l, maxIdle, s, window, from, to, u);
    NotHeld(l, maxIdle, s, s, from, [], window, from, to);
  }

  lemma NotBounded(l: Limits, maxIdle: Time, s: Live, window: seq<Step>, from: Time, to: Time, u: User)
    requires Valid(s) && !(LiveGranted(l, maxIdle, s, window, u) as real <= l.max + (to - from) * l.rate)
    ensures !Bounded(l, maxIdle, s, window, from, to)
  {
  }

  lemma NotHeld(l: Limits, maxIdle: Time, s: Live, m: Live, start: Time, before: seq<Step>, window: seq<Step>, from: Time, to: Time)
    requires InLiveWindow(l, maxIdle, s, start, before, window, from, to) && m == Run(l, maxIdle, s, before)
    requires Safe(l, maxIdle, s, before) && Safe(l, maxIdle, m, window) && !Bounded(l, maxIdle, m, window, from, to)
    ensures !SafeBounded(l, maxIdle)
  {
    assert !SafeWindowHolds(l, maxIdle, s, start, before, window, from, to);
  }

  /** Whole requests are safe runs, so what breaks the bound for them breaks it here. */
  lemma BrokenBySafeRun(l: Limits, maxIdle: Time, ops: seq<Op>, from: Time, to: Time, u: User)
    requires InWindow(ops, from, to) && Granted(l, maxIdle, map[], ops, u) as real > l.max + (to - from) * l.rate
    ensures !SafeBounded(l, maxIdle)
  {
    AtOnceIsSafe(l, maxIdle, NewLive(), map[], ops, from, u);
    TimesAtOnce(ops, to);
    BrokenByWindow(l, maxIdle, NewLive(), AtOnce(ops), from, to, u);
  }

  lemma SafeBoundBroken(l: Limits, maxIdle: Time)
    requires Sensible(l) && maxIdle >= 0.0 && !GenerousIdle(l, maxIdle) && l.max >= 1.0
    ensures !SafeBounded(l, maxIdle)
  {
    WindowBoundExactly(l, maxIdle);
    var from: Time, to: Time, ops: seq<Op>, u: User :|
      InWindow(ops, from, to) && !(Granted(l, maxIdle, map[], ops, u) as real <= l.max + (to - from) * l.rate);
    BrokenBySafeRun(l, maxIdle, ops, from, to, u);
  }

  /**
    As long as no cleanup drops a bucket that a request still holds, the bound holds
    in every window of every run exactly when idle buckets have had time to refill,
    or hold no whole token anyway.
   */
  lemma SafeBoundExactly(l: Limits, maxIdle: Time)
    requires Sensible(l) && maxIdle >= 0.0
    ensures SafeBounded(l, maxIdle) <==> GenerousIdle(l, maxIdle) || l.max < 1.0
  {
    if l.max < 1.0 {
      TooSmallToBreak(l, maxIdle);
    } else if GenerousIdle(l, maxIdle) {
      forall s: Live, start: Time, before: seq<Step>, window: seq<Step>, from: Time, to: Time
        ensures SafeWindowHolds(l, maxIdle, s, start, before, window, from, to)
      {
        if InLiveWindow(l, maxIdle, s, start, before, window, from, to)
           && Safe(l, maxIdle, s, before) && Safe(l, maxIdle, Run(l, maxIdle, s, before), window) {
          SafeWindowBound(l, maxIdle, s, start, before, window, from, to);
        }
      }
    } else {
      SafeBoundBroken(l, maxIdle);
    }
  }

  lemma TooSmallToBreak(l: Limits, maxIdle: Time)
    requires Sensible(l) && l.max < 1.0
    ensures AllBounded(l, maxIdle) && SafeBounded(l, maxIdle)
  {
    forall s: Live, start: Time, before: seq<Step>, window: seq<Step>, from: Time, to: Time
      | InLiveWindow(l, maxIdle, s, start, before, window, from, to)
      ensures Bounded(l, maxIdle, Run(l, maxIdle, s, before), window, from, to)
    {
      var m := Run(l, maxIdle, s, before);
      CappedOverRun(l, maxIdle, s, before);
      NoneIsWithin(l, to - from);
      forall u: User
        ensures LiveGranted(l, maxIdle, m, window, u) == 0
      {
        NothingLiveGranted(l, maxIdle, m, window, from, u);
      }
    }
  }

  lemma NoneIsWithin(l: Limits, length: Time)
    requires Sensible(l) && length >= 0.0
    ensures 0.0 <= l.max + length * l.rate
  {
    Products(l.rate, length, 0.0);
    AddBoth(0.0, l.max, length * l.rate);
  }

  // ---------------------------------------------------------- one held bucket

  /** A request looks its bucket up and is overtaken by a cleanup. */
  function HeldBack(now: Time): seq<Step> {
    [Look(0, 0, 0.0), Prune(now)]
  }

  /** The bucket is out of the table, and still full in the request's hands. */
  predicate Orphaned(l: Limits, s: Live) {
    s == Live(Shared(map[], [Bucket(l.max, 0.0)]), map[(0, 0) := 0])
  }

  lemma HeldBackOrphans(l: Limits, maxIdle: Time, s: Live, now: Time)
    requires New(s) && 0.0 <= maxIdle < now
    ensures Valid(s) && Proper(l, maxIdle, s, HeldBack(now), 0.0) && Orphaned(l, Run(l, maxIdle, s, HeldBack(now)))
  {
    var a := Apply(l, maxIdle, s, Look(0, 0, 0.0));
    assert a == Live(Shared(map[0 := 0], [Bucket(l.max, 0.0)]), map[(0, 0) := 0]);
    var b := Apply(l, maxIdle, a, Prune(now));
    assert b.shared.table == map[];
    assert HeldBack(now)[1..] == [Prune(now)] && [Prune(now)][1..] == [];
    assert Run(l, maxIdle, b, []) == b;
    assert Run(l, maxIdle, a, [Prune(now)]) == b;
  }

  lemma OrphanGrants(l: Limits, maxIdle: Time, s: Live, now: Time)
    requires Sensible(l) && l.max >= 1.0 && Orphaned(l, s) && now >= 0.0
    ensures Valid(s) && Enabled(s, TakeOne(0, 0, now)) && Grants(l, s, TakeOne(0, 0, now))
    ensures Idle(Apply(l, maxIdle, s, TakeOne(0, 0, now)), map[])
  {
    var b := Bucket(l.max, 0.0);
    RefilledTokens(l, b, now);
    Products(l.rate, now, 0.0);
    var s' := Apply(l, maxIdle, s, TakeOne(0, 0, now));
    assert TableOf(s'.shared) == map[];
    assert s'.waiting == map[];
  }

  function HeldWindow(m: nat, now: Time): seq<Step> {
    [TakeOne(0, 0, now)] + AtOnce(Burst(m, now))
  }

  /** One token from the held bucket, and the whole capacity from a new one, all at one moment. */
  lemma HeldWindowGrants(l: Limits, maxIdle: Time, s: Live, now: Time)
    requires Sensible(l) && l.max >= 1.0 && Orphaned(l, s) && now >= 0.0
    ensures Valid(s) && Proper(l, maxIdle, s, HeldWindow(l.max.Floor, now), now)
    ensures LiveGranted(l, maxIdle, s, HeldWindow(l.max.Floor, now), 0) == 1 + l.max.Floor
    ensures forall i :: 0 <= i < |HeldWindow(l.max.Floor, now)| ==> HeldWindow(l.max.Floor, now)[i].at <= now
  {
    var m: nat := l.max.Floor;
    var burst := Burst(m, now);
    OrphanGrants(l, maxIdle, s, now);
    BurstGranted(l, maxIdle, map[], m, now);
    AllYes(l, maxIdle, map[], burst);
    AtOnceIsSafe(l, maxIdle, Apply(l, maxIdle, s, TakeOne(0, 0, now)), map[], burst, now, 0);
    TimesAtOnce(burst, now);
    assert HeldWindow(m, now)[1..] == AtOnce(burst);
  }

  lemma HeldBucketBreaksTheBound(l: Limits, maxIdle: Time)
    requires Sensible(l) && l.max >= 1.0 && maxIdle >= 0.0
    ensures !AllBounded(l, maxIdle)
  {
    var now := maxIdle + 1.0;
    var s := NewLive();
    HeldBackOrphans(l, maxIdle, s, now);
    var m := Run(l, maxIdle, s, HeldBack(now));
    HeldWindowGrants(l, maxIdle, m, now);
    var window := HeldWindow(l.max.Floor, now);
    assert InLiveWindow(l, maxIdle, s, 0.0, HeldBack(now), window, now, now);
    assert (now - now) * l.rate == 0.0;
    assert !Bounded(l, maxIdle, m, window, now, now);
  }

  /** With no condition on what cleanups drop, no limits and no idle time keep the bound, unless nothing is ever granted. */
  lemma AllBoundedExactly(l: Limits, maxIdle: Time)
    requires Sensible(l) && maxIdle >= 0.0
    ensures AllBounded(l, maxIdle) <==> l.max < 1.0
  {
    if l.max < 1.0 {
      TooSmallToBreak(l, maxIdle);
    } else {
      HeldBucketBreaksTheBound(l, maxIdle);
    }
  }

  // ------------------------------------------------ when cleaning is noticed

  function WithoutPrunes(steps: seq<Step>): seq<Step>
    decreases |steps|
  {
    if steps == [] then [] else (if steps[0].Prune? then [] else [steps[0]]) + WithoutPrunes(steps[1..])
  }

  /** No safe run is answered otherwise than the same run without its cleanups. */
  ghost predicate SafeUnobservable(l: Limits, maxIdle: Time) {
    forall s: Live, from: Time, steps: seq<Step> ::
      New(s) && Valid(s) && Proper(l, maxIdle, s, steps, from) && Safe(l, maxIdle, s, steps) ==>
        LiveAnswers(l, maxIdle, s, steps) == LiveAnswers(l, maxIdle, s, WithoutPrunes(steps))
  }

  lemma SameTickets(l: Limits, maxIdle: Time, s: Live, f: Live, step: Step)
    requires Valid(s) && Valid(f) && s.waiting.Keys == f.waiting.Keys && Enabled(s, step)
    ensures Enabled(f, step)
    ensures Apply(l, maxIdle, s, step).waiting.Keys == Apply(l, maxIdle, f, step).waiting.Keys
    ensures step.Prune? ==> Apply(l, maxIdle, s, step).waiting == s.waiting
  {
  }

  lemma WithoutFirst(step: Step, rest: seq<Step>)
    ensures WithoutPrunes([step] + rest) == (if step.Prune? then [] else [step]) + WithoutPrunes(rest)
    ensures Requests([step] + rest) == (if step.TakeOne? then [Request(step.user, step.at)] else []) + Requests(rest)
  {
    assert ([step] + rest)[1..] == rest;
  }

  /** Leaving the cleanups out leaves a run, a safe one. */
  lemma {:induction false} StillProper(l: Limits, maxIdle: Time, s: Live, f: Live, steps: seq<Step>, from: Time)
    requires Valid(s) && Valid(f) && s.waiting.Keys == f.waiting.Keys && Proper(l, maxIdle, s, steps, from)
    ensures Proper(l, maxIdle, f, WithoutPrunes(steps), from) && Safe(l, maxIdle, f, WithoutPrunes(steps))
    decreases |steps|
  {
    if steps != [] {
      var (step, rest) := (steps[0], steps[1..]);
      var s' := Apply(l, maxIdle, s, step);
      SameTickets(l, maxIdle, s, f, step);
      WithoutFirst(step, rest);
      assert steps == [step] + rest;
      if step.Prune? {
        StillProper(l, maxIdle, s', f, rest, step.at);
        ProperEarlier(l, maxIdle, f, WithoutPrunes(rest), step.at, from);
        assert WithoutPrunes(steps) == WithoutPrunes(rest);
      } else {
        StillProper(l, maxIdle, s', Apply(l, maxIdle, f, step), rest, step.at);
        FirstIsProper(l, maxIdle, f, step, WithoutPrunes(rest), from);
      }
    }
  }

  /** The requests are the same. */
  lemma {:induction false} SameRequests(steps: seq<Step>)
    ensures Requests(WithoutPrunes(steps)) == Requests(steps)
    decreases |steps|
  {
    if steps != [] {
      var (step, rest) := (steps[0], steps[1..]);
      SameRequests(rest);
      WithoutFirst(step, rest);
      assert steps == [step] + rest;
      if step.Prune? {
        assert WithoutPrunes(steps) == WithoutPrunes(rest) && Requests(steps) == Requests(rest);
      } else {
        WithoutFirst(step, WithoutPrunes(rest));
      }
    }
  }

  lemma ProperEarlier(l: Limits, maxIdle: Time, s: Live, steps: seq<Step>, now: Time, from: Time)
    requires Valid(s) && Proper(l, maxIdle, s, steps, now) && from <= now
    ensures Proper(l, maxIdle, s, steps, from)
  {
  }

  lemma {:induction false} PrunesInTwo(a: seq<Step>, b: seq<Step>)
    ensures WithoutPrunes(a + b) == WithoutPrunes(a) + WithoutPrunes(b)
    decreases |a|
  {
    if a == [] {
      assert a + b == b;
    } else {
      assert (a + b)[0] == a[0] && (a + b)[1..] == a[1..] + b;
      PrunesInTwo(a[1..], b);
    }
  }

  /** One operation, as steps. */
  function StepsOf(op: Op): seq<Step> {
    match op
    case Request(u, now) => [Look(u, 0, now), TakeOne(u, 0, now)]
    case Cleanup(now) => [Prune(now)]
  }

  lemma OneWithoutPrunes(op: Op)
    ensures WithoutPrunes(StepsOf(op)) == if op.Request? then StepsOf(op) else []
  {
    if op.Request? {
      var (look, take) := (StepsOf(op)[0], StepsOf(op)[1]);
      assert StepsOf(op) == [look] + [take];
      PrunesInTwo([look], [take]);
      assert WithoutPrunes([look]) == [look] + WithoutPrunes([]);
      assert WithoutPrunes([take]) == [take] + WithoutPrunes([]);
    }
  }

  lemma {:induction false} AtOnceWithoutPrunes(ops: seq<Op>)
    ensures WithoutPrunes(AtOnce(ops)) == AtOnce(RequestsOnly(ops))
    decreases |ops|
  {
    if ops != [] {
      AtOnceWithoutPrunes(ops[1..]);
      OneWithoutPrunes(ops[0]);
      PrunesInTwo(StepsOf(ops[0]), AtOnce(ops[1..]));
      var rest := RequestsOnly(ops[1..]);
      if ops[0].Request? {
        assert RequestsOnly(ops) == [ops[0]] + rest && RequestsOnly(ops)[1..] == rest;
        assert AtOnce([ops[0]] + rest) == StepsOf(ops[0]) + AtOnce(rest);
      } else {
        assert RequestsOnly(ops) == rest;
      }
    }
  }

  lemma {:induction false} RequestsOnlyInOrder(ops: seq<Op>, from: Time)
    requires Ordered(ops, from)
    ensures Ordered(RequestsOnly(ops), from)
    decreases |ops|
  {
    if ops != [] {
      RequestsOnlyInOrder(ops[1..], ops[0].at);
      if ops[0].Request? {
        assert RequestsOnly(ops)[1..] == RequestsOnly(ops[1..]);
      } else {
        assert RequestsOnly(ops) == RequestsOnly(ops[1..]);
        OrderedEarlier(RequestsOnly(ops[1..]), ops[0].at, from);
      }
    }
  }

  lemma Noticed(l: Limits, maxIdle: Time)
    requires Sensible(l) && maxIdle >= 0.0 && !GenerousIdle(l, maxIdle) && l.max >= 1.0
    ensures !SafeUnobservable(l, maxIdle)
  {
    CleanupIsUnobservable(l, maxIdle);
    var from: Time, ops: seq<Op> :|
      Ordered(ops, from) && Answers(l, maxIdle, map[], ops) != Answers(l, maxIdle, map[], RequestsOnly(ops));
    var s := NewLive();
    RequestsOnlyInOrder(ops, from);
    AtOnceIsSafe(l, maxIdle, s, map[], ops, from, 0);
    AtOnceIsSafe(l, maxIdle, s, map[], RequestsOnly(ops), from, 0);
    AtOnceWithoutPrunes(ops);
    var steps := AtOnce(ops);
    assert LiveAnswers(l, maxIdle, s, steps) != LiveAnswers(l, maxIdle, s, WithoutPrunes(steps));
  }

  lemma Unnoticed(l: Limits, maxIdle: Time, s: Live, from: Time, steps: seq<Step>)
    requires Sensible(l) && (GenerousIdle(l, maxIdle) || l.max < 1.0)
    requires New(s) && Valid(s) && Proper(l, maxIdle, s, steps, from) && Safe(l, maxIdle, s, steps)
    ensures LiveAnswers(l, maxIdle, s, steps) == LiveAnswers(l, maxIdle, s, WithoutPrunes(steps))
  {
    StillProper(l, maxIdle, s, s, steps, from);
    SameRequests(steps);
    if l.max < 1.0 {
      NothingLiveGranted(l, maxIdle, s, steps, from, 0);
      NothingLiveGranted(l, maxIdle, s, WithoutPrunes(steps), from, 0);
    } else {
      assert TableOf(s.shared) == map[];
      SafeRunSimulates(l, maxIdle, s, map[], steps, from, 0);
      SafeRunSimulates(l, maxIdle, s, map[], WithoutPrunes(steps), from, 0);
    }
  }

  /**
    As long as no cleanup drops a bucket that a request still holds, cleaning is
    noticed by nobody exactly under the condition under which the bound holds.
   */
  lemma SafeCleaningExactly(l: Limits, maxIdle: Time)
    requires Sensible(l) && maxIdle >= 0.0
    ensures SafeUnobservable(l, maxIdle) <==> GenerousIdle(l, maxIdle) || l.max < 1.0
  {
    if GenerousIdle(l, maxIdle) || l.max < 1.0 {
      forall s: Live, from: Time, steps: seq<Step>
        | New(s) && Valid(s) && Proper(l, maxIdle, s, steps, from) && Safe(l, maxIdle, s, steps)
        ensures LiveAnswers(l, maxIdle, s, steps) == LiveAnswers(l, maxIdle, s, WithoutPrunes(steps))
      {
        Unnoticed(l, maxIdle, s, from, steps);
      }
    } else {
      Noticed(l, maxIdle);
    }
  }
}
