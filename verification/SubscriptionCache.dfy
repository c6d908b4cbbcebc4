/**
  The subscription cache: two indices over one recency list.  List elements are
  addresses into the memory they were allocated in, so an index can outlive the
  element it points to.
 */
module SubscriptionCache {
  import opened Options

  type User = int
  type SubId = string
  type Time = int
  type Address = nat

  datatype Subscription = Subscription(id: SubId, body: int)

  datatype Item = Item(user: User, subId: SubId, sub: Subscription, expiresAt: Time)

  datatype State = State(items: map<User, Address>, bySubID: map<SubId, Address>,
                         lru: seq<Address>,     // least recently used first
                         memory: seq<Item>)

  datatype Config = Config(maxSize: int, ttl: Time)

  /** The locked sections of the cache: a Get is a lookup, then Touch or DropStale. */
  datatype Op =
    | Set(user: User, sub: Subscription, now: Time)
    | Touch(user: User)
    | DropStale(user: User, now: Time)
    | Invalidate(user: User)
    | InvalidateBySubID(subId: SubId)
    | Cleanup(now: Time)

  const Empty := State(map[], map[], [], [])

  // ----------------------------------------------------- the locked sections

  /** Every address held points to an allocated element. */
  predicate Allocated(s: State) {
    && (forall u :: u in s.items ==> s.items[u] < |s.memory|)
    && (forall b :: b in s.bySubID ==> s.bySubID[b] < |s.memory|)
    && (forall i :: 0 <= i < |s.lru| ==> s.lru[i] < |s.memory|)
  }

  /** list.Remove; nothing happens to an element no longer in the list. */
  function Without(l: seq<Address>, e: Address): seq<Address> {
    if l == [] then [] else if l[0] == e then l[1..] else [l[0]] + Without(l[1..], e)
  }

  /** list.MoveToBack. */
  function Moved(l: seq<Address>, e: Address): seq<Address> {
    if e in l then Without(l, e) + [e] else l
  }

  /** removeElement. */
  function Removed(s: State, e: Address): State
    requires e < |s.memory|
  {
    var item := s.memory[e];
    State(s.items - {item.user}, if item.subId != "" then s.bySubID - {item.subId} else s.bySubID,
          Without(s.lru, e), s.memory)
  }

  function Evicted(s: State, c: Config): State
    requires Allocated(s)
  {
    if |s.items| >= c.maxSize && s.lru != [] then Removed(s, s.lru[0]) else s
  }

  /** One more element with a new user. */
  function Grown(s: State, item: Item): State {
    var e := |s.memory|;
    State(s.items[item.user := e], s.bySubID[item.subId := e], s.lru + [e], s.memory + [item])
  }

  /** The entry of a known user gets a new value and becomes the most recent. */
  function Renewed(s: State, e: Address, item: Item): State
    requires e < |s.memory|
  {
    State(s.items, (s.bySubID - {s.memory[e].subId})[item.subId := e], Moved(s.lru, e), s.memory[e := item])
  }

  function SetState(s: State, c: Config, u: User, sub: Subscription, now: Time): State
    requires Allocated(s)
  {
    var item := Item(u, sub.id, sub, now + c.ttl);
    if u in s.items then Renewed(s, s.items[u], item.(user := s.memory[s.items[u]].user)) else Grown(Evicted(s, c), item)
  }

  predicate Stale(item: Item, now: Time) {
    now > item.expiresAt
  }

  /** Cleanup's walk over the rest of the list. */
  function CleanedUp(s: State, rest: seq<Address>, now: Time): State
    requires forall i :: 0 <= i < |rest| ==> rest[i] < |s.memory|
    decreases |rest|
  {
    if rest == [] then s
    else CleanedUp(if Stale(s.memory[rest[0]], now) then Removed(s, rest[0]) else s, rest[1..], now)
  }

  function Apply(s: State, c: Config, op: Op): State
    requires Allocated(s)
  {
    match op
    case Set(u, sub, now) => SetState(s, c, u, sub, now)
    case Touch(u) => if u in s.items then s.(lru := Moved(s.lru, s.items[u])) else s
    case DropStale(u, now) =>
      if u in s.items && Stale(s.memory[s.items[u]], now) then Removed(s, s.items[u]) else s
    case Invalidate(u) => if u in s.items then Removed(s, s.items[u]) else s
    case InvalidateBySubID(b) => if b in s.bySubID then Removed(s, s.bySubID[b]) else s
    case Cleanup(now) => CleanedUp(s, s.lru, now)
  }

  /** Get's first section: what it will return. */
  function Lookup(s: State, u: User, now: Time): Option<Subscription>
    requires Allocated(s)
  {
    if u in s.items && !Stale(s.memory[s.items[u]], now) then Some(s.memory[s.items[u]].sub) else None
  }

  lemma WithoutIsPart(l: seq<Address>, e: Address)
    ensures forall x :: x in Without(l, e) ==> x in l
  {
  }

  lemma RemovedIsAllocated(s: State, e: Address)
    requires Allocated(s) && e < |s.memory|
    ensures Allocated(Removed(s, e)) && Removed(s, e).memory == s.memory
  {
    WithoutIsPart(s.lru, e);
    assert forall i :: 0 <= i < |Without(s.lru, e)| ==> Without(s.lru, e)[i] in s.lru;
  }

  lemma {:induction false} CleanedUpIsAllocated(s: State, rest: seq<Address>, now: Time)
    requires Allocated(s) && forall i :: 0 <= i < |rest| ==> rest[i] < |s.memory|
    ensures Allocated(CleanedUp(s, rest, now)) && CleanedUp(s, rest, now).memory == s.memory
    decreases |rest|
  {
    if rest != [] {
      RemovedIsAllocated(s, rest[0]);
      CleanedUpIsAllocated(if Stale(s.memory[rest[0]], now) then Removed(s, rest[0]) else s, rest[1..], now);
    }
  }

  lemma MovedIsPart(l: seq<Address>, e: Address)
    ensures forall i :: 0 <= i < |Moved(l, e)| ==> Moved(l, e)[i] in l
  {
    WithoutIsPart(l, e);
    assert forall i :: 0 <= i < |Without(l, e)| ==> Without(l, e)[i] in Without(l, e);
  }

  lemma SetIsAllocated(s: State, c: Config, u: User, sub: Subscription, now: Time)
    requires Allocated(s)
    ensures Allocated(SetState(s, c, u, sub, now))
  {
    if u in s.items {
      RenewedIsAllocated(s, s.items[u], Item(u, sub.id, sub, now + c.ttl).(user := s.memory[s.items[u]].user));
    } else {
      if s.lru != [] {
        RemovedIsAllocated(s, s.lru[0]);
      }
      GrownIsAllocated(Evicted(s, c), Item(u, sub.id, sub, now + c.ttl));
    }
  }

  lemma RenewedIsAllocated(s: State, e: Address, item: Item)
    requires Allocated(s) && e < |s.memory|
    ensures Allocated(Renewed(s, e, item))
  {
    MovedIsPart(s.lru, e);
  }

  lemma GrownIsAllocated(s: State, item: Item)
    requires Allocated(s)
    ensures Allocated(Grown(s, item))
  {
  }

  lemma StaysAllocated(s: State, c: Config, op: Op)
    requires Allocated(s)
    ensures Allocated(Apply(s, c, op))
  {
    match op
    case Set(u, sub, now) => SetIsAllocated(s, c, u, sub, now);
    case Touch(u) => if u in s.items { MovedIsPart(s.lru, s.items[u]); }
    case DropStale(u, _) => if u in s.items { RemovedIsAllocated(s, s.items[u]); }
    case Invalidate(u) => if u in s.items { RemovedIsAllocated(s, s.items[u]); }
    case InvalidateBySubID(b) => if b in s.bySubID { RemovedIsAllocated(s, s.bySubID[b]); }
    case Cleanup(now) => CleanedUpIsAllocated(s, s.lru, now);
  }

  // ---------------------------------------------------------------- the code

  class Cache {
    var items: map<User, Address>
    var bySubID: map<SubId, Address>
    var lru: seq<Address>
    var memory: seq<Item>
    const config: Config

    constructor (config: Config)
      ensures this.config == config && Now() == Empty && Valid()
    {
      this.config := config;
      items, bySubID, lru, memory := map[], map[], [], [];
    }

    ghost function Now(): State
      reads this
    {
      State(items, bySubID, lru, memory)
    }

    ghost predicate Valid()
      reads this
    {
      Allocated(Now())
    }

    method RemoveElement(e: Address)
      requires Valid() && e < |memory|
      modifies this
      ensures Now() == Removed(old(Now()), e) && Valid()
    {
      RemovedIsAllocated(Now(), e);
      var item := memory[e];
      lru := Without(lru, e);
      items := items - {item.user};
      if item.subId != "" {
        bySubID := bySubID - {item.subId};
      }
    }

    /** The two sections of Get may see different times. */
    method Get(u: User, now: Time, later: Time) returns (sub: Option<Subscription>)
      requires Valid()
      modifies this
      ensures Valid() && sub == Lookup(old(Now()), u, now)
      ensures Now() == if u !in old(items) then old(Now())
                       else Apply(old(Now()), config, if sub.None? then DropStale(u, later) else Touch(u))
    {
      StaysAllocated(Now(), config, Touch(u));
      if u !in items {
        return None;
      }
      var item := memory[items[u]];
      if now > item.expiresAt {
        if later > memory[items[u]].expiresAt {
          RemoveElement(items[u]);
        }
        return None;
      }
      lru := Moved(lru, items[u]);
      return Some(item.sub);
    }

    /** An absent subscription is not cached. */
    method Set(u: User, sub: Option<Subscription>, now: Time)
      requires Valid()
      modifies this
      ensures Valid()
      ensures Now() == if sub.None? then old(Now()) else SetState(old(Now()), config, u, sub.value, now)
    {
      if sub.None? {
        return;
      }
      StaysAllocated(Now(), config, Op.Set(u, sub.value, now));
      var subId := sub.value.id;
      if u in items {
        var e := items[u];
        var was := memory[e];
        bySubID := bySubID - {was.subId};
        memory := memory[e := Item(was.user, subId, sub.value, now + config.ttl)];
        lru := Moved(lru, e);
        bySubID := bySubID[subId := e];
        return;
      }
      if |items| >= config.maxSize && lru != [] {
        RemoveElement(lru[0]);
      }
      var e := |memory|;
      memory := memory + [Item(u, subId, sub.value, now + config.ttl)];
      lru := lru + [e];
      items := items[u := e];
      bySubID := bySubID[subId := e];
    }

    method Invalidate(u: User)
      requires Valid()
      modifies this
      ensures Valid() && Now() == Apply(old(Now()), config, Op.Invalidate(u))
    {
      if u in items {
        RemoveElement(items[u]);
      }
    }

    method InvalidateBySubID(subId: SubId)
      requires Valid()
      modifies this
      ensures Valid() && Now() == Apply(old(Now()), config, Op.InvalidateBySubID(subId))
    {
      if subId in bySubID {
        RemoveElement(bySubID[subId]);
      }
    }

    method Cleanup(now: Time)
      requires Valid()
      modifies this
      ensures Valid() && Now() == Apply(old(Now()), config, Op.Cleanup(now))
    {
      var next: seq<Address> := lru;
      while next != []
        invariant Valid() && forall i :: 0 <= i < |next| ==> next[i] < |memory|
        invariant CleanedUp(Now(), next, now) == CleanedUp(old(Now()), old(lru), now)
        decreases |next|
      {
        var e := next[0];
        next := next[1..];
        if now > memory[e].expiresAt {
          RemoveElement(e);
        }
      }
    }
  }
}
