/**
  What the subscription cache is: a table of timestamped entries that forgets the
  one used longest ago.  The list and the two indices refine it, over every run
  whose subscription ids are present and not shared between users.
 */
module CacheRuns {
  import opened Options
  import opened SubscriptionCache

  // --------------------------------------------------- one list, two indices

  predicate Distinct(l: seq<Address>) {
    forall i, j :: 0 <= i < j < |l| ==> l[i] != l[j]
  }

  function Held(l: seq<Address>): set<Address> {
    set e | e in l
  }

  /** The index leads from each key to the held element with that key, and nowhere else. */
  predicate Indexes<K>(index: map<K, Address>, held: set<Address>, key: seq<K>) {
    && (forall e :: e in held ==> e < |key| && key[e] in index && index[key[e]] == e)
    && (forall k :: k in index ==> index[k] in held && key[index[k]] == k)
  }

  function Users(memory: seq<Item>): seq<User> {
    seq(|memory|, i requires 0 <= i < |memory| => memory[i].user)
  }

  function SubIds(memory: seq<Item>): seq<SubId> {
    seq(|memory|, i requires 0 <= i < |memory| => memory[i].subId)
  }

  /** The list and both indices hold the same elements, one to one. */
  predicate OneToOne(s: State) {
    && Distinct(s.lru)
    && Indexes(s.items, Held(s.lru), Users(s.memory))
    && Indexes(s.bySubID, Held(s.lru), SubIds(s.memory))
  }

  predicate Good(s: State) {
    OneToOne(s) && "" !in s.bySubID
  }

  predicate Full(s: State, c: Config) {
    |s.items| >= c.maxSize && s.lru != []
  }

  /** The id is present, and no entry of another user that stays in the cache has it. */
  predicate Fair(s: State, c: Config, u: User, id: SubId)
    requires Allocated(s)
  {
    && id != ""
    && (id in s.bySubID ==>
          || s.memory[s.bySubID[id]].user == u
          || (u !in s.items && Full(s, c) && s.lru[0] == s.bySubID[id]))
  }

  // ---------------------------------------------------- one index, one change

  lemma IndexRemoved<K>(index: map<K, Address>, held: set<Address>, key: seq<K>, e: Address)
    requires Indexes(index, held, key) && e in held
    ensures Indexes(index - {key[e]}, held - {e}, key)
  {
  }

  lemma IndexGrown<K>(index: map<K, Address>, held: set<Address>, key: seq<K>, k: K)
    requires Indexes(index, held, key)
    ensures Indexes(index[k := |key|], held + {|key|}, key + [k]) <==> k !in index
  {
    var (e, key') := (|key|, key + [k]);
    if k in index {
      assert index[k] in held + {e} && key'[index[k]] == k;
    }
  }

  lemma IndexRenewed<K>(index: map<K, Address>, held: set<Address>, key: seq<K>, e: Address, k: K)
    requires Indexes(index, held, key) && e in held
    ensures Indexes((index - {key[e]})[k := e], held, key[e := k]) <==> (k in index ==> index[k] == e)
  {
    if k in index && index[k] != e {
      assert index[k] in held && key[e := k][index[k]] == k;
    }
  }

  // ----------------------------------------------------------- one list change

  /** Taking out an element that occurs once closes the gap. */
  lemma {:induction false} WithoutOnce(l: seq<Address>, e: Address, k: nat)
    requires k < |l| && l[k] == e && e !in l[..k]
    ensures Without(l, e) == l[..k] + l[k + 1..]
  {
    if k > 0 {
      assert l[0] in l[..k];
      assert l[1..][..k - 1] == l[..k][1..];
      WithoutOnce(l[1..], e, k - 1);
    }
  }

  predicate GapClosed(l: seq<Address>, k: nat, l': seq<Address>) {
    |l'| == |l| - 1 && forall i :: 0 <= i < |l'| ==> l'[i] == l[if i < k then i else i + 1]
  }

  lemma ClosedGapKeepsRest(l: seq<Address>, k: nat, l': seq<Address>)
    requires Distinct(l) && k < |l| && GapClosed(l, k, l')
    ensures Held(l') == Held(l) - {l[k]}
  {
    forall x | x in l && x != l[k]
      ensures x in l'
    {
      var i :| 0 <= i < |l| && l[i] == x;
      assert l'[if i < k then i else i - 1] == x;
    }
  }

  /** Order and everything else are kept. */
  lemma WithoutKeepsOrder(l: seq<Address>, k: nat)
    requires Distinct(l) && k < |l|
    ensures GapClosed(l, k, Without(l, l[k]))
    ensures Distinct(Without(l, l[k])) && Held(Without(l, l[k])) == Held(l) - {l[k]}
  {
    WithoutOnce(l, l[k], k);
    assert GapClosed(l, k, Without(l, l[k]));
    ClosedGapKeepsRest(l, k, Without(l, l[k]));
  }

  lemma MovedKeepsHeld(l: seq<Address>, e: Address)
    requires Distinct(l) && e in l
    ensures Distinct(Moved(l, e)) && Held(Moved(l, e)) == Held(l)
  {
    var k :| 0 <= k < |l| && l[k] == e;
    WithoutKeepsOrder(l, k);
    assert e !in Held(Without(l, e));
    HeldGrows(Without(l, e), e);
  }

  lemma HeldGrows(l: seq<Address>, e: Address)
    ensures Held(l + [e]) == Held(l) + {e}
    ensures Distinct(l) && e !in Held(l) ==> Distinct(l + [e])
  {
  }

  // --------------------------------------------------------- a change of state

  lemma GoodIsAllocated(s: State)
    requires OneToOne(s)
    ensures Allocated(s)
  {
    forall i | 0 <= i < |s.lru|
      ensures s.lru[i] < |s.memory|
    {
      assert s.lru[i] in Held(s.lru);
    }
  }

  lemma RemovedIsGood(s: State, e: Address)
    requires Good(s) && e in s.lru
    ensures e < |s.memory| && Good(Removed(s, e)) && Held(Removed(s, e).lru) == Held(s.lru) - {e}
  {
    var k :| 0 <= k < |s.lru| && s.lru[k] == e;
    assert e in Held(s.lru);
    WithoutKeepsOrder(s.lru, k);
    IndexRemoved(s.items, Held(s.lru), Users(s.memory), e);
    IndexRemoved(s.bySubID, Held(s.lru), SubIds(s.memory), e);
  }

  lemma GrownKeys(memory: seq<Item>, item: Item)
    ensures Users(memory + [item]) == Users(memory) + [item.user]
    ensures SubIds(memory + [item]) == SubIds(memory) + [item.subId]
  {
  }

  lemma GrownIsGood(s: State, item: Item)
    requires Good(s) && item.user !in s.items
    ensures Good(Grown(s, item)) <==> item.subId != "" && item.subId !in s.bySubID
  {
    GoodIsAllocated(s);
    var e := |s.memory|;
    assert e !in Held(s.lru);
    HeldGrows(s.lru, e);
    GrownKeys(s.memory, item);
    IndexGrown(s.items, Held(s.lru), Users(s.memory), item.user);
    IndexGrown(s.bySubID, Held(s.lru), SubIds(s.memory), item.subId);
    assert Good(Grown(s, item)) <==>
             Indexes(s.bySubID[item.subId := e], Held(s.lru) + {e}, SubIds(s.memory) + [item.subId]) && "" !in s.bySubID[item.subId := e];
  }

  lemma RenewedIsGood(s: State, e: Address, item: Item)
    requires Good(s) && e in s.lru && e < |s.memory| && item.user == s.memory[e].user
    ensures Good(Renewed(s, e, item)) <==>
              item.subId != "" && (item.subId in s.bySubID ==> s.bySubID[item.subId] == e)
  {
    MovedKeepsHeld(s.lru, e);
    IndexRenewed(s.bySubID, Held(s.lru), SubIds(s.memory), e, item.subId);
    assert Users(s.memory[e := item]) == Users(s.memory);
    assert SubIds(s.memory[e := item]) == SubIds(s.memory)[e := item.subId];
  }

  lemma HolderIsIndexed(s: State, id: SubId)
    requires Good(s) && id in s.bySubID
    ensures s.bySubID[id] < |s.memory|
    ensures var e := s.bySubID[id];
            e in s.lru && s.memory[e].subId == id && s.memory[e].user in s.items && s.items[s.memory[e].user] == e
  {
    assert s.bySubID[id] in Held(s.lru);
    assert Users(s.memory)[s.bySubID[id]] in s.items;
  }

  lemma FairForKnown(s: State, c: Config, u: User, id: SubId)
    requires Good(s) && Allocated(s) && u in s.items
    ensures Fair(s, c, u, id) <==> id != "" && (id in s.bySubID ==> s.bySubID[id] == s.items[u])
    ensures s.items[u] in s.lru && s.memory[s.items[u]].user == u
  {
    assert s.items[u] in Held(s.lru) && Users(s.memory)[s.items[u]] == u;
    if id in s.bySubID {
      HolderIsIndexed(s, id);
    }
  }

  lemma FairForNew(s: State, c: Config, u: User, id: SubId)
    requires Good(s) && Allocated(s) && u !in s.items
    ensures Fair(s, c, u, id) <==> id != "" && id !in Evicted(s, c).bySubID
  {
    EvictedIsGood(s, c);
    if id in s.bySubID {
      HolderIsIndexed(s, id);
    }
  }

  lemma EvictedIsGood(s: State, c: Config)
    requires Good(s) && Allocated(s)
    ensures Good(Evicted(s, c))
    ensures Held(Evicted(s, c).lru) == if Full(s, c) then Held(s.lru) - {s.lru[0]} else Held(s.lru)
    ensures forall id :: id in Evicted(s, c).bySubID <==> id in s.bySubID && !(Full(s, c) && s.bySubID[id] == s.lru[0])
  {
    if Full(s, c) {
      var e := s.lru[0];
      RemovedIsGood(s, e);
      assert e in Held(s.lru) && SubIds(s.memory)[e] in s.bySubID;
      forall id | id in s.bySubID
        ensures s.bySubID[id] == e <==> id == s.memory[e].subId
      {
        HolderIsIndexed(s, id);
      }
    }
  }

  /** A Set keeps list and indices together exactly when its subscription id is fair. */
  lemma SetKeepsGoodExactly(s: State, c: Config, u: User, sub: Subscription, now: Time)
    requires Good(s)
    ensures Allocated(s)
    ensures Good(SetState(s, c, u, sub, now)) <==> Fair(s, c, u, sub.id)
  {
    GoodIsAllocated(s);
    var item := Item(u, sub.id, sub, now + c.ttl);
    if u in s.items {
      FairForKnown(s, c, u, sub.id);
      RenewedIsGood(s, s.items[u], item);
      assert SetState(s, c, u, sub, now) == Renewed(s, s.items[u], item);
    } else {
      FairForNew(s, c, u, sub.id);
      EvictedIsGood(s, c);
      GrownIsGood(Evicted(s, c), item);
      assert SetState(s, c, u, sub, now) == Grown(Evicted(s, c), item);
    }
  }

  // ------------------------------------------- together, also with empty ids

  /** One element and its key give way to a new element with the same key. */
  lemma IndexReplaced<K>(index: map<K, Address>, held: set<Address>, key: seq<K>, e: Address, k: K)
    requires Indexes(index, held, key) && e in held
    ensures Indexes(index[k := |key|], held - {e} + {|key|}, key + [k]) <==> k == key[e]
  {
    var (e', key', index') := (|key|, key + [k], index[k := |key|]);
    if k != key[e] {
      assert index'[key[e]] == e && e !in held - {e} + {e'};
    }
  }

  lemma ListShrinks(s: State, e: Address)
    requires OneToOne(s) && e in s.lru
    ensures e < |s.memory| && Distinct(Without(s.lru, e)) && Held(Without(s.lru, e)) == Held(s.lru) - {e}
  {
    var k :| 0 <= k < |s.lru| && s.lru[k] == e;
    assert e in Held(s.lru);
    WithoutKeepsOrder(s.lru, k);
  }

  /** Removing an element keeps list and indices together exactly if its subscription id is not empty. */
  lemma RemovalKeepsTogetherExactly(s: State, e: Address)
    requires OneToOne(s) && e in s.lru
    ensures e < |s.memory|
    ensures OneToOne(Removed(s, e)) <==> s.memory[e].subId != ""
  {
    ListShrinks(s, e);
    assert e in Held(s.lru);
    IndexRemoved(s.items, Held(s.lru), Users(s.memory), e);
    if s.memory[e].subId != "" {
      IndexRemoved(s.bySubID, Held(s.lru), SubIds(s.memory), e);
    } else {
      assert SubIds(s.memory)[e] == "" && "" in s.bySubID && s.bySubID[""] == e;
      assert Removed(s, e).bySubID == s.bySubID && e !in Held(Removed(s, e).lru);
    }
  }

  /** No entry of another user that stays in the cache has the id. */
  predicate Unheld(s: State, c: Config, u: User, id: SubId)
    requires Allocated(s)
  {
    id in s.bySubID ==>
      || s.memory[s.bySubID[id]].user == u
      || (u !in s.items && Full(s, c) && s.lru[0] == s.bySubID[id])
  }

  /** The Set makes room by evicting an entry with an empty id, and does not set that id itself. */
  predicate EvictsEmptyId(s: State, c: Config, u: User, id: SubId)
    requires Allocated(s)
  {
    u !in s.items && Full(s, c) && s.memory[s.lru[0]].subId == "" && id != ""
  }

  lemma HeldById(s: State, id: SubId)
    requires OneToOne(s) && id in s.bySubID
    ensures var e := s.bySubID[id];
            && e < |s.memory| && e in s.lru && s.memory[e].subId == id
            && s.memory[e].user in s.items && s.items[s.memory[e].user] == e
  {
    assert s.bySubID[id] in Held(s.lru);
    assert SubIds(s.memory)[s.bySubID[id]] == id;
    assert Users(s.memory)[s.bySubID[id]] in s.items;
  }

  lemma RenewedKeepsTogetherExactly(s: State, e: Address, item: Item)
    requires OneToOne(s) && e in s.lru && e < |s.memory| && item.user == s.memory[e].user
    ensures OneToOne(Renewed(s, e, item)) <==> (item.subId in s.bySubID ==> s.bySubID[item.subId] == e)
  {
    MovedKeepsHeld(s.lru, e);
    IndexRenewed(s.bySubID, Held(s.lru), SubIds(s.memory), e, item.subId);
    assert Users(s.memory[e := item]) == Users(s.memory);
    assert SubIds(s.memory[e := item]) == SubIds(s.memory)[e := item.subId];
  }

  lemma GrownKeepsTogetherExactly(s: State, item: Item)
    requires OneToOne(s) && item.user !in s.items
    ensures OneToOne(Grown(s, item)) <==> item.subId !in s.bySubID
  {
    GoodIsAllocated(s);
    var e := |s.memory|;
    assert e !in Held(s.lru);
    HeldGrows(s.lru, e);
    GrownKeys(s.memory, item);
    IndexGrown(s.items, Held(s.lru), Users(s.memory), item.user);
    IndexGrown(s.bySubID, Held(s.lru), SubIds(s.memory), item.subId);
  }

  /** An evicted empty id stays in the index, until the very next element takes it over. */
  lemma GrownAfterEmptyId(s: State, e: Address, item: Item)
    requires OneToOne(s) && e in s.lru && e < |s.memory| && s.memory[e].subId == "" && item.user !in s.items
    ensures OneToOne(Grown(Removed(s, e), item)) <==> item.subId == ""
  {
    GoodIsAllocated(s);
    ListShrinks(s, e);
    var (m, e') := (Removed(s, e), |s.memory|);
    assert e in Held(s.lru) && e' !in Held(s.lru);
    IndexRemoved(s.items, Held(s.lru), Users(s.memory), e);
    HeldGrows(m.lru, e');
    GrownKeys(s.memory, item);
    IndexGrown(m.items, Held(m.lru), Users(s.memory), item.user);
    IndexReplaced(s.bySubID, Held(s.lru), SubIds(s.memory), e, item.subId);
    assert m.bySubID == s.bySubID && SubIds(s.memory)[e] == "";
  }

  lemma UnheldByKnown(s: State, c: Config, u: User, id: SubId)
    requires OneToOne(s) && Allocated(s) && u in s.items
    ensures s.items[u] in s.lru && s.memory[s.items[u]].user == u
    ensures Unheld(s, c, u, id) <==> (id in s.bySubID ==> s.bySubID[id] == s.items[u])
  {
    assert s.items[u] in Held(s.lru) && Users(s.memory)[s.items[u]] == u;
    if id in s.bySubID {
      HeldById(s, id);
    }
  }

  lemma UnheldByNew(s: State, c: Config, u: User, id: SubId)
    requires OneToOne(s) && Allocated(s) && u !in s.items
    ensures Unheld(s, c, u, id) <==> (id in s.bySubID ==> Full(s, c) && s.lru[0] == s.bySubID[id])
  {
    if id in s.bySubID {
      HeldById(s, id);
    }
  }

  lemma KnownTogether(s: State, c: Config, item: Item, s': State)
    requires OneToOne(s) && Allocated(s) && item.user in s.items && s' == Renewed(s, s.items[item.user], item)
    ensures OneToOne(s') <==> Unheld(s, c, item.user, item.subId)
  {
    UnheldByKnown(s, c, item.user, item.subId);
    RenewedKeepsTogetherExactly(s, s.items[item.user], item);
  }

  lemma RoomTogether(s: State, c: Config, item: Item, s': State)
    requires OneToOne(s) && Allocated(s) && item.user !in s.items && !Full(s, c) && s' == Grown(s, item)
    ensures OneToOne(s') <==> Unheld(s, c, item.user, item.subId)
  {
    UnheldByNew(s, c, item.user, item.subId);
    GrownKeepsTogetherExactly(s, item);
  }

  /** The front is in the index under its own id, and nothing else is. */
  lemma FrontIsIndexed(s: State, id: SubId)
    requires OneToOne(s) && s.lru != []
    ensures s.lru[0] < |s.memory| && s.memory[s.lru[0]].subId in s.bySubID
    ensures id in s.bySubID ==> (s.bySubID[id] == s.lru[0] <==> id == s.memory[s.lru[0]].subId)
  {
    assert s.lru[0] in Held(s.lru) && SubIds(s.memory)[s.lru[0]] == s.memory[s.lru[0]].subId;
    if id in s.bySubID {
      HeldById(s, id);
    }
  }

  lemma EvictionTogether(s: State, c: Config, item: Item, s': State)
    requires OneToOne(s) && Allocated(s) && item.user !in s.items && Full(s, c) && s' == Grown(Removed(s, s.lru[0]), item)
    ensures OneToOne(s') <==> Unheld(s, c, item.user, item.subId) && !EvictsEmptyId(s, c, item.user, item.subId)
  {
    var e := s.lru[0];
    UnheldByNew(s, c, item.user, item.subId);
    FrontIsIndexed(s, item.subId);
    if s.memory[e].subId == "" {
      GrownAfterEmptyId(s, e, item);
    } else {
      RemovalKeepsTogetherExactly(s, e);
      GrownKeepsTogetherExactly(Removed(s, e), item);
    }
  }

  lemma SetIs(s: State, c: Config, u: User, sub: Subscription, now: Time)
    requires OneToOne(s) && Allocated(s)
    ensures var (s', item) := (SetState(s, c, u, sub, now), Item(u, sub.id, sub, now + c.ttl));
            && (u in s.items ==> s' == Renewed(s, s.items[u], item))
            && (u !in s.items ==> s' == Grown(if Full(s, c) then Removed(s, s.lru[0]) else s, item))
  {
    if u in s.items {
      UnheldByKnown(s, c, u, sub.id);
    }
  }

  /**
    A Set keeps list and indices together exactly when no other user's entry that
    stays has the subscription id, empty or not, and the entry it evicts, if any,
    has an id, or leaves the empty one to the new entry.
   */
  lemma SetKeepsTogetherExactly(s: State, c: Config, u: User, sub: Subscription, now: Time)
    requires OneToOne(s)
    ensures Allocated(s)
    ensures OneToOne(SetState(s, c, u, sub, now)) <==> Unheld(s, c, u, sub.id) && !EvictsEmptyId(s, c, u, sub.id)
  {
    GoodIsAllocated(s);
    SetIs(s, c, u, sub, now);
    var (item, s') := (Item(u, sub.id, sub, now + c.ttl), SetState(s, c, u, sub, now));
    if u in s.items {
      KnownTogether(s, c, item, s');
    } else if Full(s, c) {
      EvictionTogether(s, c, item, s');
    } else {
      RoomTogether(s, c, item, s');
    }
  }

  // ------------------------------------------------------- the reference cache

  /** An entry and when it was last used. */
  datatype Entry = Entry(sub: Subscription, expiresAt: Time, used: nat)

  /** The reference: a table with a use counter. */
  datatype Table = Table(held: map<User, Entry>, clock: nat)

  predicate UsedLongestAgo(m: map<User, Entry>, u: User)
    requires u in m
  {
    forall v :: v in m ==> m[u].used <= m[v].used
  }

  function Kept(m: map<User, Entry>, c: Config): map<User, Entry> {
    if |m| >= c.maxSize then map u | u in m && !UsedLongestAgo(m, u) :: m[u] else m
  }

  function TableStep(t: Table, c: Config, op: Op): Table {
    var m := t.held;
    match op
    case Set(u, sub, now) =>
      Table((if u in m then m else Kept(m, c))[u := Entry(sub, now + c.ttl, t.clock)], t.clock + 1)
    case Touch(u) => if u in m then Table(m[u := m[u].(used := t.clock)], t.clock + 1) else t
    case DropStale(u, now) => if u in m && now > m[u].expiresAt then t.(held := m - {u}) else t
    case Invalidate(u) => t.(held := m - {u})
    case InvalidateBySubID(b) => t.(held := WithoutId(m, b))
    case Cleanup(now) => t.(held := FreshOnly(m, now))
  }

  function TableLookup(t: Table, u: User, now: Time): Option<Subscription> {
    if u in t.held && now <= t.held[u].expiresAt then Some(t.held[u].sub) else None
  }

  predicate Matches(item: Item, entry: Entry) {
    item.sub == entry.sub && item.subId == entry.sub.id && item.expiresAt == entry.expiresAt
  }

  predicate SameContents(s: State, t: Table) {
    && s.items.Keys == t.held.Keys
    && (forall u :: u in s.items ==>
          s.items[u] < |s.memory| && Matches(s.memory[s.items[u]], t.held[u]) && t.held[u].used < t.clock)
  }

  function Ranks(memory: seq<Item>, m: map<User, Entry>): seq<nat> {
    seq(|memory|, i requires 0 <= i < |memory| => if memory[i].user in m then m[memory[i].user].used else 0)
  }

  predicate Ascending(l: seq<Address>, rank: seq<nat>) {
    && (forall i :: 0 <= i < |l| ==> l[i] < |rank|)
    && (forall i, j :: 0 <= i < j < |l| ==> rank[l[i]] < rank[l[j]])
  }

  /** The list holds the table's entries in the order of their use. */
  predicate Refines(s: State, t: Table) {
    Good(s) && SameContents(s, t) && Ascending(s.lru, Ranks(s.memory, t.held))
  }

  lemma AscendingWithout(l: seq<Address>, k: nat, rank: seq<nat>, rank': seq<nat>)
    requires Distinct(l) && k < |l| && Ascending(l, rank) && |rank'| >= |rank|
    requires forall i :: 0 <= i < |l| && i != k ==> rank'[l[i]] == rank[l[i]]
    ensures Ascending(Without(l, l[k]), rank')
  {
    WithoutKeepsOrder(l, k);
    var l' := Without(l, l[k]);
    assert GapClosed(l, k, l');
  }

  lemma AscendingGrown(l: seq<Address>, e: Address, rank: seq<nat>)
    requires Ascending(l, rank) && e < |rank| && forall i :: 0 <= i < |l| ==> rank[l[i]] < rank[e]
    ensures Ascending(l + [e], rank)
  {
  }

  /** Each listed element belongs to its own user. */
  lemma ListedIsIndexed(s: State, t: Table, i: nat)
    requires Good(s) && SameContents(s, t) && i < |s.lru|
    ensures s.lru[i] < |s.memory|
    ensures var u := s.memory[s.lru[i]].user;
            && u in s.items && s.items[u] == s.lru[i] && u in t.held
            && Ranks(s.memory, t.held)[s.lru[i]] == t.held[u].used < t.clock
            && (forall j :: 0 <= j < |s.lru| && j != i ==> s.lru[j] < |s.memory| && s.memory[s.lru[j]].user != u)
  {
    assert s.lru[i] in Held(s.lru) && Users(s.memory)[s.lru[i]] in s.items;
    forall j | 0 <= j < |s.lru| && j != i
      ensures s.lru[j] < |s.memory| && s.memory[s.lru[j]].user != s.memory[s.lru[i]].user
    {
      assert s.lru[j] in Held(s.lru) && s.items[Users(s.memory)[s.lru[j]]] == s.lru[j];
    }
  }

  lemma RemoveRefines(s: State, t: Table, e: Address)
    requires Refines(s, t) && e in s.lru
    ensures e < |s.memory| && Refines(Removed(s, e), t.(held := t.held - {s.memory[e].user}))
  {
    var k :| 0 <= k < |s.lru| && s.lru[k] == e;
    RemovedIsGood(s, e);
    ListedIsIndexed(s, t, k);
    var held' := t.held - {s.memory[e].user};
    AscendingWithout(s.lru, k, Ranks(s.memory, t.held), Ranks(s.memory, held'));
  }

  lemma MovedAscends(l: seq<Address>, k: nat, rank: seq<nat>, rank': seq<nat>)
    requires Distinct(l) && k < |l| && Ascending(l, rank) && |rank'| >= |rank|
    requires forall i :: 0 <= i < |l| && i != k ==> rank'[l[i]] == rank[l[i]] < rank'[l[k]]
    ensures Ascending(Moved(l, l[k]), rank')
  {
    AscendingWithout(l, k, rank, rank');
    WithoutKeepsOrder(l, k);
    var l' := Without(l, l[k]);
    assert GapClosed(l, k, l');
    AscendingGrown(l', l[k], rank');
  }

  lemma ItemIsListed(s: State, u: User) returns (k: nat)
    requires Good(s) && u in s.items
    ensures k < |s.lru| && s.lru[k] == s.items[u] < |s.memory| && s.memory[s.items[u]].user == u
  {
    assert s.items[u] in Held(s.lru) && Users(s.memory)[s.items[u]] == u;
    k :| 0 <= k < |s.lru| && s.lru[k] == s.items[u];
  }

  /** The element of u moves to the end with a fresh use. */
  lemma RecentAscends(s: State, t: Table, u: User, memory': seq<Item>, entry: Entry)
    requires Refines(s, t) && u in s.items && |memory'| == |s.memory|
    requires forall i :: 0 <= i < |memory'| ==> memory'[i].user == s.memory[i].user
    requires entry.used == t.clock
    ensures Ascending(Moved(s.lru, s.items[u]), Ranks(memory', t.held[u := entry]))
  {
    var k := ItemIsListed(s, u);
    var (rank, rank') := (Ranks(s.memory, t.held), Ranks(memory', t.held[u := entry]));
    forall i | 0 <= i < |s.lru|
      ensures i != k ==> rank'[s.lru[i]] == rank[s.lru[i]] < rank'[s.lru[k]]
    {
      ListedIsIndexed(s, t, i);
    }
    MovedAscends(s.lru, k, rank, rank');
  }

  lemma MovedIsGood(s: State, u: User)
    requires Good(s) && u in s.items
    ensures Good(s.(lru := Moved(s.lru, s.items[u])))
  {
    var k := ItemIsListed(s, u);
    MovedKeepsHeld(s.lru, s.items[u]);
  }

  lemma TouchRefines(s: State, t: Table, u: User)
    requires Refines(s, t) && u in s.items
    ensures Refines(s.(lru := Moved(s.lru, s.items[u])), Table(t.held[u := t.held[u].(used := t.clock)], t.clock + 1))
  {
    RecentAscends(s, t, u, s.memory, t.held[u].(used := t.clock));
    MovedIsGood(s, u);
    TouchKeepsContents(s, t, u);
  }

  lemma TouchKeepsContents(s: State, t: Table, u: User)
    requires SameContents(s, t) && u in s.items
    ensures SameContents(s.(lru := Moved(s.lru, s.items[u])), Table(t.held[u := t.held[u].(used := t.clock)], t.clock + 1))
  {
  }

  lemma RenewKeepsContents(s: State, t: Table, u: User, item: Item)
    requires SameContents(s, t) && u in s.items && item.subId == item.sub.id
    requires forall v :: v in s.items && v != u ==> s.items[v] != s.items[u]
    ensures SameContents(Renewed(s, s.items[u], item), Table(t.held[u := Entry(item.sub, item.expiresAt, t.clock)], t.clock + 1))
  {
  }

  lemma RenewRefines(s: State, t: Table, u: User, item: Item)
    requires Refines(s, t) && u in s.items && item.user == u && item.subId == item.sub.id
    requires s.items[u] < |s.memory| && Good(Renewed(s, s.items[u], item))
    ensures Refines(Renewed(s, s.items[u], item), Table(t.held[u := Entry(item.sub, item.expiresAt, t.clock)], t.clock + 1))
  {
    var k := ItemIsListed(s, u);
    RecentAscends(s, t, u, s.memory[s.items[u] := item], Entry(item.sub, item.expiresAt, t.clock));
    forall v | v in s.items && v != u
      ensures s.items[v] != s.items[u]
    {
      assert Users(s.memory)[s.items[v]] == v;
    }
    RenewKeepsContents(s, t, u, item);
  }

  lemma GrowAscends(s: State, t: Table, item: Item, entry: Entry)
    requires Refines(s, t) && item.user !in s.items && entry.used == t.clock
    ensures Ascending(s.lru + [|s.memory|], Ranks(s.memory + [item], t.held[item.user := entry]))
  {
    var (rank, rank') := (Ranks(s.memory, t.held), Ranks(s.memory + [item], t.held[item.user := entry]));
    forall i | 0 <= i < |s.lru|
      ensures rank'[s.lru[i]] == rank[s.lru[i]] < rank'[|s.memory|]
    {
      ListedIsIndexed(s, t, i);
    }
    AscendingGrown(s.lru, |s.memory|, rank');
  }

  lemma GrowKeepsContents(s: State, t: Table, item: Item)
    requires SameContents(s, t) && item.user !in s.items && item.subId == item.sub.id
    ensures SameContents(Grown(s, item), Table(t.held[item.user := Entry(item.sub, item.expiresAt, t.clock)], t.clock + 1))
  {
  }

  lemma GrowRefines(s: State, t: Table, item: Item)
    requires Refines(s, t) && item.user !in s.items && item.subId == item.sub.id && Good(Grown(s, item))
    ensures Refines(Grown(s, item), Table(t.held[item.user := Entry(item.sub, item.expiresAt, t.clock)], t.clock + 1))
  {
    GrowAscends(s, t, item, Entry(item.sub, item.expiresAt, t.clock));
    GrowKeepsContents(s, t, item);
  }

  /** The front of the list is what was used longest ago. */
  lemma FrontIsOldest(s: State, t: Table)
    requires Refines(s, t) && s.lru != []
    ensures s.lru[0] < |s.memory|
    ensures forall u :: u in t.held ==> (UsedLongestAgo(t.held, u) <==> u == s.memory[s.lru[0]].user)
  {
    ListedIsIndexed(s, t, 0);
    var first := s.memory[s.lru[0]].user;
    forall u | u in t.held && u != first
      ensures t.held[first].used < t.held[u].used
    {
      assert s.items[u] in Held(s.lru) && Users(s.memory)[s.items[u]] == u;
      var i :| 0 <= i < |s.lru| && s.lru[i] == s.items[u];
      ListedIsIndexed(s, t, i);
    }
  }

  lemma NothingListed(s: State)
    requires Good(s)
    ensures s.items != map[] ==> s.lru != []
  {
    if s.items != map[] {
      var u :| u in s.items;
      assert s.items[u] in Held(s.lru);
    }
  }

  lemma SameSize<A, B, C>(a: map<A, B>, b: map<A, C>)
    requires a.Keys == b.Keys
    ensures |a| == |b|
  {
    assert |a| == |a.Keys| && |b| == |b.Keys|;
  }

  lemma EvictRefines(s: State, t: Table, c: Config)
    requires Refines(s, t) && Allocated(s)
    ensures Refines(Evicted(s, c), t.(held := Kept(t.held, c)))
  {
    SameSize(s.items, t.held);
    NothingListed(s);
    if Full(s, c) {
      FrontIsOldest(s, t);
      RemoveRefines(s, t, s.lru[0]);
      OneForgotten(t.held, c, s.memory[s.lru[0]].user);
    } else {
      NoneForgotten(t.held, c);
    }
  }

  lemma OneForgotten(m: map<User, Entry>, c: Config, u: User)
    requires |m| >= c.maxSize && forall v :: v in m ==> (UsedLongestAgo(m, v) <==> v == u)
    ensures Kept(m, c) == m - {u}
  {
  }

  lemma NoneForgotten(m: map<User, Entry>, c: Config)
    requires |m| < c.maxSize || m == map[]
    ensures Kept(m, c) == m
  {
  }

  predicate FairOp(s: State, c: Config, op: Op)
    requires Allocated(s)
  {
    op.Set? ==> Fair(s, c, op.user, op.sub.id)
  }

  lemma KnownUser(s: State, t: Table, c: Config, u: User, sub: Subscription, now: Time)
    requires Refines(s, t) && Allocated(s) && u in s.items
    ensures s.items[u] in s.lru && s.memory[s.items[u]].user == u && u in t.held
    ensures SetState(s, c, u, sub, now) == Renewed(s, s.items[u], Item(u, sub.id, sub, now + c.ttl))
    ensures TableStep(t, c, Set(u, sub, now)) == Table(t.held[u := Entry(sub, now + c.ttl, t.clock)], t.clock + 1)
  {
    var k := ItemIsListed(s, u);
  }

  lemma KnownIsGood(s: State, c: Config, u: User, item: Item)
    requires Good(s) && Allocated(s) && Fair(s, c, u, item.subId) && u in s.items && item.user == u
    ensures Good(Renewed(s, s.items[u], item))
  {
    FairForKnown(s, c, u, item.subId);
    RenewedIsGood(s, s.items[u], item);
  }

  lemma RenewedRefines(s: State, t: Table, c: Config, item: Item, s': State, t': Table)
    requires Refines(s, t) && Allocated(s) && item.user in s.items && item.subId == item.sub.id && Fair(s, c, item.user, item.subId)
    requires s' == Renewed(s, s.items[item.user], item)
    requires t' == Table(t.held[item.user := Entry(item.sub, item.expiresAt, t.clock)], t.clock + 1)
    ensures Refines(s', t')
  {
    KnownIsGood(s, c, item.user, item);
    RenewRefines(s, t, item.user, item);
  }

  lemma SetKnownRefines(s: State, t: Table, c: Config, u: User, sub: Subscription, now: Time)
    requires Refines(s, t) && Allocated(s) && Fair(s, c, u, sub.id) && u in s.items
    ensures Refines(SetState(s, c, u, sub, now), TableStep(t, c, Set(u, sub, now)))
  {
    KnownUser(s, t, c, u, sub, now);
    var (s', t') := (SetState(s, c, u, sub, now), TableStep(t, c, Set(u, sub, now)));
    RenewedRefines(s, t, c, Item(u, sub.id, sub, now + c.ttl), s', t');
  }

  lemma NewUser(s: State, t: Table, c: Config, u: User, sub: Subscription, now: Time)
    requires Refines(s, t) && Allocated(s) && u !in s.items
    ensures TableStep(t, c, Set(u, sub, now)) == Table(Kept(t.held, c)[u := Entry(sub, now + c.ttl, t.clock)], t.clock + 1)
    ensures SetState(s, c, u, sub, now) == Grown(Evicted(s, c), Item(u, sub.id, sub, now + c.ttl))
  {
    assert u !in t.held;
  }

  lemma NewIsGood(s: State, c: Config, u: User, sub: Subscription, now: Time)
    requires Good(s) && Allocated(s) && Fair(s, c, u, sub.id) && u !in s.items
    ensures Good(Grown(Evicted(s, c), Item(u, sub.id, sub, now + c.ttl)))
  {
    FairForNew(s, c, u, sub.id);
    EvictedIsGood(s, c);
    EvictionForgets(s, c);
    GrownIsGood(Evicted(s, c), Item(u, sub.id, sub, now + c.ttl));
  }

  lemma EvictThenGrowRefines(s: State, t: Table, c: Config, item: Item, s': State, t': Table)
    requires Refines(s, t) && Allocated(s) && item.user !in s.items && item.subId == item.sub.id
    requires s' == Grown(Evicted(s, c), item) && Good(s')
    requires t' == Table(Kept(t.held, c)[item.user := Entry(item.sub, item.expiresAt, t.clock)], t.clock + 1)
    ensures Refines(s', t')
  {
    EvictRefines(s, t, c);
    EvictionForgets(s, c);
    GrowRefines(Evicted(s, c), t.(held := Kept(t.held, c)), item);
  }

  lemma SetNewRefines(s: State, t: Table, c: Config, u: User, sub: Subscription, now: Time)
    requires Refines(s, t) && Allocated(s) && Fair(s, c, u, sub.id) && u !in s.items
    ensures Refines(SetState(s, c, u, sub, now), TableStep(t, c, Set(u, sub, now)))
  {
    NewUser(s, t, c, u, sub, now);
    NewIsGood(s, c, u, sub, now);
    var (s', t') := (SetState(s, c, u, sub, now), TableStep(t, c, Set(u, sub, now)));
    EvictThenGrowRefines(s, t, c, Item(u, sub.id, sub, now + c.ttl), s', t');
  }

  lemma SetRefines(s: State, t: Table, c: Config, u: User, sub: Subscription, now: Time)
    requires Refines(s, t) && Allocated(s) && Fair(s, c, u, sub.id)
    ensures Refines(SetState(s, c, u, sub, now), TableStep(t, c, Set(u, sub, now)))
  {
    if u in s.items {
      SetKnownRefines(s, t, c, u, sub, now);
    } else {
      SetNewRefines(s, t, c, u, sub, now);
    }
  }

  lemma EvictionForgets(s: State, c: Config)
    requires Allocated(s)
    ensures forall u :: u in Evicted(s, c).items ==> u in s.items
  {
  }

  function WithoutId(m: map<User, Entry>, b: SubId): map<User, Entry> {
    map u | u in m && m[u].sub.id != b :: m[u]
  }

  lemma OneHasId(m: map<User, Entry>, b: SubId, u: User)
    requires forall v :: v in m ==> (m[v].sub.id == b <==> v == u)
    ensures WithoutId(m, b) == m - {u}
  {
    forall v | v in m
      ensures v in WithoutId(m, b) <==> v != u
    {
      assert m[v].sub.id == b <==> v == u;
    }
  }

  lemma NoneHasId(m: map<User, Entry>, b: SubId)
    requires forall v :: v in m ==> m[v].sub.id != b
    ensures WithoutId(m, b) == m
  {
    forall v | v in m
      ensures v in WithoutId(m, b)
    {
      assert m[v].sub.id != b;
    }
  }

  lemma IdIsIndexed(s: State, t: Table, u: User)
    requires Refines(s, t) && u in t.held
    ensures t.held[u].sub.id in s.bySubID && s.bySubID[t.held[u].sub.id] == s.items[u]
  {
    var k := ItemIsListed(s, u);
    assert s.items[u] in Held(s.lru) && SubIds(s.memory)[s.items[u]] in s.bySubID;
  }

  lemma DropIdRefines(s: State, t: Table, b: SubId)
    requires Refines(s, t) && Allocated(s)
    ensures b in s.bySubID ==> Refines(Removed(s, s.bySubID[b]), t.(held := WithoutId(t.held, b)))
    ensures b !in s.bySubID ==> WithoutId(t.held, b) == t.held
  {
    forall v | v in t.held
      ensures t.held[v].sub.id == b ==> b in s.bySubID && s.bySubID[b] == s.items[v]
    {
      IdIsIndexed(s, t, v);
    }
    if b in s.bySubID {
      var e := s.bySubID[b];
      HolderIsIndexed(s, b);
      RemoveRefines(s, t, e);
      var u := s.memory[e].user;
      forall v | v in t.held
        ensures t.held[v].sub.id == b <==> v == u
      {
        var k := ItemIsListed(s, v);
      }
      OneHasId(t.held, b, u);
    } else {
      NoneHasId(t.held, b);
    }
  }

  /** The rest of the list with its stale elements dropped from the table. */
  function Swept(m: map<User, Entry>, memory: seq<Item>, rest: seq<Address>, now: Time): map<User, Entry> {
    map u | u in m && !(now > m[u].expiresAt && exists i :: 0 <= i < |rest| && rest[i] < |memory| && memory[rest[i]].user == u) :: m[u]
  }

  predicate Listed(s: State, rest: seq<Address>) {
    Distinct(rest) && forall i :: 0 <= i < |rest| ==> rest[i] in s.lru && rest[i] < |s.memory|
  }

  lemma TailIsListed(s: State, rest: seq<Address>)
    requires Good(s) && rest != [] && Listed(s, rest)
    ensures rest[0] < |s.memory| && Listed(s, rest[1..]) && Listed(Removed(s, rest[0]), rest[1..])
  {
    var (e, tail) := (rest[0], rest[1..]);
    RemovedIsGood(s, e);
    forall i | 0 <= i < |tail|
      ensures tail[i] in Removed(s, e).lru
    {
      assert tail[i] == rest[i + 1];
      assert tail[i] in Held(Removed(s, e).lru);
    }
  }

  lemma {:induction false} CleanupRefines(s: State, t: Table, rest: seq<Address>, now: Time)
    requires Refines(s, t) && Listed(s, rest)
    ensures Refines(CleanedUp(s, rest, now), t.(held := Swept(t.held, s.memory, rest, now)))
    decreases |rest|
  {
    if rest == [] {
      assert Swept(t.held, s.memory, rest, now) == t.held;
    } else {
      var (e, tail) := (rest[0], rest[1..]);
      var k :| 0 <= k < |s.lru| && s.lru[k] == e;
      ListedIsIndexed(s, t, k);
      TailIsListed(s, rest);
      if Stale(s.memory[e], now) {
        RemoveRefines(s, t, e);
        CleanupRefines(Removed(s, e), t.(held := t.held - {s.memory[e].user}), tail, now);
        SweptOne(t.held, s.memory, rest, now);
      } else {
        CleanupRefines(s, t, tail, now);
        SweptNone(t.held, s.memory, rest, now);
      }
    }
  }

  lemma SweptOne(m: map<User, Entry>, memory: seq<Item>, rest: seq<Address>, now: Time)
    requires rest != [] && rest[0] < |memory| && memory[rest[0]].user in m && now > m[memory[rest[0]].user].expiresAt
    ensures Swept(m, memory, rest, now) == Swept(m - {memory[rest[0]].user}, memory, rest[1..], now)
  {
    forall u | u in m && u != memory[rest[0]].user
      ensures u in Swept(m, memory, rest, now) <==> u in Swept(m - {memory[rest[0]].user}, memory, rest[1..], now)
    {
      SameInTail(memory, rest, u);
    }
  }

  lemma SweptNone(m: map<User, Entry>, memory: seq<Item>, rest: seq<Address>, now: Time)
    requires rest != [] && rest[0] < |memory| && memory[rest[0]].user in m && now <= m[memory[rest[0]].user].expiresAt
    ensures Swept(m, memory, rest, now) == Swept(m, memory, rest[1..], now)
  {
    forall u | u in m && u != memory[rest[0]].user
      ensures u in Swept(m, memory, rest, now) <==> u in Swept(m, memory, rest[1..], now)
    {
      SameInTail(memory, rest, u);
    }
  }

  lemma SameInTail(memory: seq<Item>, rest: seq<Address>, u: User)
    requires rest != [] && rest[0] < |memory| && memory[rest[0]].user != u
    ensures (exists i :: 0 <= i < |rest| && rest[i] < |memory| && memory[rest[i]].user == u)
       <==> (exists i :: 0 <= i < |rest[1..]| && rest[1..][i] < |memory| && memory[rest[1..][i]].user == u)
  {
    var tail := rest[1..];
    if i :| 0 <= i < |rest| && rest[i] < |memory| && memory[rest[i]].user == u {
      assert tail[i - 1] == rest[i];
    }
  }

  function FreshOnly(m: map<User, Entry>, now: Time): map<User, Entry> {
    map u | u in m && now <= m[u].expiresAt :: m[u]
  }

  lemma SweptAll(m: map<User, Entry>, memory: seq<Item>, rest: seq<Address>, now: Time)
    requires forall u :: u in m ==> exists i :: 0 <= i < |rest| && rest[i] < |memory| && memory[rest[i]].user == u
    ensures Swept(m, memory, rest, now) == FreshOnly(m, now)
  {
    forall u | u in m
      ensures u in Swept(m, memory, rest, now) <==> u in FreshOnly(m, now)
    {
      var i :| 0 <= i < |rest| && rest[i] < |memory| && memory[rest[i]].user == u;
    }
  }

  lemma AllListed(s: State, t: Table)
    requires Refines(s, t)
    ensures Listed(s, s.lru)
    ensures forall u :: u in t.held ==> exists i :: 0 <= i < |s.lru| && s.lru[i] < |s.memory| && s.memory[s.lru[i]].user == u
  {
    forall i | 0 <= i < |s.lru|
      ensures s.lru[i] < |s.memory|
    {
      ListedIsIndexed(s, t, i);
    }
    forall u | u in t.held
      ensures exists i :: 0 <= i < |s.lru| && s.lru[i] < |s.memory| && s.memory[s.lru[i]].user == u
    {
      var k := ItemIsListed(s, u);
    }
  }

  lemma CleanupSweepsAll(s: State, t: Table, now: Time)
    requires Refines(s, t) && Allocated(s)
    ensures Refines(CleanedUp(s, s.lru, now), t.(held := FreshOnly(t.held, now)))
  {
    AllListed(s, t);
    CleanupRefines(s, t, s.lru, now);
    SweptAll(t.held, s.memory, s.lru, now);
  }

  lemma TouchSectionRefines(s: State, t: Table, c: Config, u: User)
    requires Refines(s, t) && Allocated(s)
    ensures Refines(Apply(s, c, Touch(u)), TableStep(t, c, Touch(u)))
  {
    if u in s.items {
      TouchRefines(s, t, u);
    }
  }

  lemma DropStaleSectionRefines(s: State, t: Table, c: Config, u: User, now: Time)
    requires Refines(s, t) && Allocated(s)
    ensures Refines(Apply(s, c, DropStale(u, now)), TableStep(t, c, DropStale(u, now)))
  {
    DropRefines(s, t, u);
  }

  lemma InvalidateSectionRefines(s: State, t: Table, c: Config, u: User)
    requires Refines(s, t) && Allocated(s)
    ensures Refines(Apply(s, c, Invalidate(u)), TableStep(t, c, Invalidate(u)))
  {
    DropRefines(s, t, u);
  }

  lemma InvalidateIdSectionRefines(s: State, t: Table, c: Config, b: SubId)
    requires Refines(s, t) && Allocated(s)
    ensures Refines(Apply(s, c, InvalidateBySubID(b)), TableStep(t, c, InvalidateBySubID(b)))
  {
    DropIdRefines(s, t, b);
  }

  /** Every locked section does to the table what the reference does. */
  lemma SectionRefines(s: State, t: Table, c: Config, op: Op)
    requires Refines(s, t) && Allocated(s) && FairOp(s, c, op)
    ensures Refines(Apply(s, c, op), TableStep(t, c, op))
  {
    match op
    case Set(u, sub, now) => SetRefines(s, t, c, u, sub, now);
    case Touch(u) => TouchSectionRefines(s, t, c, u);
    case DropStale(u, now) => DropStaleSectionRefines(s, t, c, u, now);
    case Invalidate(u) => InvalidateSectionRefines(s, t, c, u);
    case InvalidateBySubID(b) => InvalidateIdSectionRefines(s, t, c, b);
    case Cleanup(now) => CleanupSweepsAll(s, t, now);
  }

  lemma DropRefines(s: State, t: Table, u: User)
    requires Refines(s, t) && Allocated(s)
    ensures u in s.items ==> Refines(Removed(s, s.items[u]), t.(held := t.held - {u}))
    ensures u !in s.items ==> t.held - {u} == t.held
  {
    if u in s.items {
      var k := ItemIsListed(s, u);
      RemoveRefines(s, t, s.items[u]);
    }
  }

  // ---------------------------------------------------------------- all runs

  function Step(s: State, c: Config, op: Op): (s': State)
    requires Allocated(s)
    ensures Allocated(s')
  {
    StaysAllocated(s, c, op);
    Apply(s, c, op)
  }

  predicate FairRun(s: State, c: Config, ops: seq<Op>)
    requires Allocated(s)
    decreases |ops|
  {
    ops == [] || (FairOp(s, c, ops[0]) && FairRun(Step(s, c, ops[0]), c, ops[1..]))
  }

  function Run(s: State, c: Config, ops: seq<Op>): (s': State)
    requires Allocated(s)
    ensures Allocated(s')
    decreases |ops|
  {
    if ops == [] then s else Run(Step(s, c, ops[0]), c, ops[1..])
  }

  function TableRun(t: Table, c: Config, ops: seq<Op>): Table
    decreases |ops|
  {
    if ops == [] then t else TableRun(TableStep(t, c, ops[0]), c, ops[1..])
  }

  lemma {:induction false} RunRefines(s: State, t: Table, c: Config, ops: seq<Op>)
    requires Refines(s, t) && Allocated(s) && FairRun(s, c, ops)
    ensures Refines(Run(s, c, ops), TableRun(t, c, ops))
    decreases |ops|
  {
    if ops != [] {
      SectionRefines(s, t, c, ops[0]);
      RunRefines(Step(s, c, ops[0]), TableStep(t, c, ops[0]), c, ops[1..]);
    }
  }

  lemma LookupAgrees(s: State, t: Table, u: User, now: Time)
    requires Refines(s, t) && Allocated(s)
    ensures Lookup(s, u, now) == TableLookup(t, u, now)
  {
  }

  /** From a refining state, every fair run ends in agreement and within the limit. */
  lemma RunAgrees(s: State, t: Table, c: Config, ops: seq<Op>, u: User, now: Time)
    requires Refines(s, t) && Allocated(s) && FairRun(s, c, ops) && |s.items| <= Limit(c)
    ensures OneToOne(Run(s, c, ops)) && Allocated(Run(s, c, ops))
    ensures Run(s, c, ops).items.Keys == TableRun(t, c, ops).held.Keys
    ensures |Run(s, c, ops).items| <= Limit(c)
    ensures Lookup(Run(s, c, ops), u, now) == TableLookup(TableRun(t, c, ops), u, now)
  {
    RunRefines(s, t, c, ops);
    SizeIsBounded(s, t, c, ops);
    LookupAgrees(Run(s, c, ops), TableRun(t, c, ops), u, now);
  }

  /** A cache just constructed. */
  predicate New(s: State) {
    s == Empty
  }

  /** The reference just constructed. */
  predicate NewTable(t: Table) {
    t.held == map[]
  }

  lemma NewRefines(s: State, t: Table)
    requires New(s) && NewTable(t)
    ensures Refines(s, t)
  {
    assert Held(s.lru) == {};
    EmptyIndexes(s.items, Users(s.memory));
    EmptyIndexes(s.bySubID, SubIds(s.memory));
  }

  lemma EmptyIndexes<K>(index: map<K, Address>, key: seq<K>)
    requires index == map[]
    ensures Indexes(index, {}, key)
  {
  }

  // ------------------------------------- ids that are present and not shared

  /** Every subscription id the run sets is present, and no two users have the same. */
  predicate Unshared(ops: seq<Op>) {
    && (forall i :: 0 <= i < |ops| && ops[i].Set? ==> ops[i].sub.id != "")
    && (forall i, j :: 0 <= i < |ops| && 0 <= j < |ops| && ops[i].Set? && ops[j].Set? && ops[i].sub.id == ops[j].sub.id ==>
          ops[i].user == ops[j].user)
  }

  /** Which user has which id. */
  function Owners(ops: seq<Op>): map<SubId, User> {
    if ops == [] then map[]
    else
      var last := ops[|ops| - 1];
      var earlier := Owners(ops[..|ops| - 1]);
      if last.Set? then earlier[last.sub.id := last.user] else earlier
  }

  predicate SetsOwn(op: Op, owner: map<SubId, User>) {
    op.Set? ==> op.sub.id != "" && op.sub.id in owner && owner[op.sub.id] == op.user
  }

  lemma {:induction false} OwnersOwn(ops: seq<Op>, all: seq<Op>)
    requires Unshared(all) && ops <= all
    ensures forall i :: 0 <= i < |ops| ==> SetsOwn(ops[i], Owners(ops))
    ensures forall id :: id in Owners(ops) ==>
              exists i :: 0 <= i < |ops| && ops[i].Set? && ops[i].sub.id == id && ops[i].user == Owners(ops)[id]
  {
    if ops != [] {
      var (front, last) := (ops[..|ops| - 1], ops[|ops| - 1]);
      OwnersOwn(front, all);
      forall i | 0 <= i < |ops|
        ensures SetsOwn(ops[i], Owners(ops))
      {
        assert ops[i] == all[i] && last == all[|ops| - 1];
        if i < |front| {
          assert SetsOwn(front[i], Owners(front)) && front[i] == ops[i];
        }
      }
      forall id | id in Owners(ops)
        ensures exists i :: 0 <= i < |ops| && ops[i].Set? && ops[i].sub.id == id && ops[i].user == Owners(ops)[id]
      {
        if last.Set? && last.sub.id == id {
          assert ops[|ops| - 1].user == Owners(ops)[id];
        } else {
          var i :| 0 <= i < |front| && front[i].Set? && front[i].sub.id == id && front[i].user == Owners(front)[id];
          assert ops[i] == front[i];
        }
      }
    }
  }

  /** Every id in the index leads to an element of its owner. */
  predicate Owned(s: State, owner: map<SubId, User>)
    requires Allocated(s)
  {
    forall id :: id in s.bySubID ==> id in owner && s.memory[s.bySubID[id]].user == owner[id]
  }

  lemma RemovedIsOwned(s: State, e: Address, owner: map<SubId, User>)
    requires Allocated(s) && e < |s.memory| && Owned(s, owner)
    ensures Allocated(Removed(s, e)) && Owned(Removed(s, e), owner)
  {
    RemovedIsAllocated(s, e);
  }

  lemma {:induction false} CleanedUpIsOwned(s: State, rest: seq<Address>, now: Time, owner: map<SubId, User>)
    requires Allocated(s) && Owned(s, owner) && forall i :: 0 <= i < |rest| ==> rest[i] < |s.memory|
    ensures Allocated(CleanedUp(s, rest, now)) && Owned(CleanedUp(s, rest, now), owner)
    decreases |rest|
  {
    CleanedUpIsAllocated(s, rest, now);
    if rest != [] {
      RemovedIsOwned(s, rest[0], owner);
      CleanedUpIsOwned(if Stale(s.memory[rest[0]], now) then Removed(s, rest[0]) else s, rest[1..], now, owner);
    }
  }

  lemma SetIsOwned(s: State, c: Config, u: User, sub: Subscription, now: Time, owner: map<SubId, User>)
    requires Good(s) && Allocated(s) && Owned(s, owner) && sub.id in owner && owner[sub.id] == u
    ensures Allocated(SetState(s, c, u, sub, now)) && Owned(SetState(s, c, u, sub, now), owner)
  {
    SetIsAllocated(s, c, u, sub, now);
    if u in s.items {
      assert s.items[u] in Held(s.lru) && Users(s.memory)[s.items[u]] == u;
    } else if s.lru != [] {
      RemovedIsOwned(s, s.lru[0], owner);
    }
  }

  lemma StepIsOwned(s: State, c: Config, op: Op, owner: map<SubId, User>)
    requires Good(s) && Allocated(s) && Owned(s, owner) && SetsOwn(op, owner)
    ensures FairOp(s, c, op) && Owned(Step(s, c, op), owner)
  {
    StaysAllocated(s, c, op);
    match op
    case Set(u, sub, now) => SetIsOwned(s, c, u, sub, now, owner);
    case Touch(u) =>
    case DropStale(u, _) => if u in s.items { RemovedIsOwned(s, s.items[u], owner); }
    case Invalidate(u) => if u in s.items { RemovedIsOwned(s, s.items[u], owner); }
    case InvalidateBySubID(b) => if b in s.bySubID { RemovedIsOwned(s, s.bySubID[b], owner); }
    case Cleanup(now) => CleanedUpIsOwned(s, s.lru, now, owner);
  }

  lemma {:induction false} OwnedRunIsFair(s: State, t: Table, c: Config, ops: seq<Op>, owner: map<SubId, User>)
    requires Refines(s, t) && Allocated(s) && Owned(s, owner)
    requires forall i :: 0 <= i < |ops| ==> SetsOwn(ops[i], owner)
    ensures FairRun(s, c, ops)
    decreases |ops|
  {
    if ops != [] {
      StepIsOwned(s, c, ops[0], owner);
      SectionRefines(s, t, c, ops[0]);
      OwnedRunIsFair(Step(s, c, ops[0]), TableStep(t, c, ops[0]), c, ops[1..], owner);
    }
  }

  /** Ids that are present and not shared between users keep every step of the run fair. */
  lemma UnsharedRunIsFair(s: State, t: Table, c: Config, ops: seq<Op>)
    requires New(s) && NewTable(t) && Unshared(ops)
    ensures Refines(s, t) && FairRun(s, c, ops)
  {
    NewRefines(s, t);
    OwnersOwn(ops, ops);
    OwnedRunIsFair(s, t, c, ops, Owners(ops));
  }

  /** After any run of a new cache on unshared ids the list and both indices agree one to one. */
  lemma CacheStaysTogether(s: State, t: Table, c: Config, ops: seq<Op>)
    requires New(s) && NewTable(t) && Unshared(ops)
    ensures OneToOne(Run(s, c, ops))
  {
    UnsharedRunIsFair(s, t, c, ops);
    RunRefines(s, t, c, ops);
  }

  /** The size is never above the limit, or one where the limit is below one. */
  lemma CacheIsBounded(s: State, t: Table, c: Config, ops: seq<Op>)
    requires New(s) && NewTable(t) && Unshared(ops)
    ensures |Run(s, c, ops).items| <= Limit(c)
  {
    UnsharedRunIsFair(s, t, c, ops);
    SizeIsBounded(s, t, c, ops);
  }

  /**
    After any run on unshared ids every lookup answers as the reference does: the
    last value set, unless it was invalidated, has expired or, being the one used
    longest ago, was forgotten for another.
   */
  lemma CacheIsTheTable(s: State, t: Table, c: Config, ops: seq<Op>, u: User, now: Time)
    requires New(s) && NewTable(t) && Unshared(ops)
    ensures Run(s, c, ops).items.Keys == TableRun(t, c, ops).held.Keys
    ensures Lookup(Run(s, c, ops), u, now) == TableLookup(TableRun(t, c, ops), u, now)
  {
    UnsharedRunIsFair(s, t, c, ops);
    RunAgrees(s, t, c, ops, u, now);
  }

  function Limit(c: Config): nat {
    if c.maxSize < 1 then 1 else c.maxSize
  }

  lemma FewerKeys(a: map<User, Entry>, b: map<User, Entry>)
    requires a.Keys <= b.Keys
    ensures |a| <= |b|
  {
    assert |a| == |a.Keys| && |b| == |b.Keys|;
    assert b.Keys == a.Keys + (b.Keys - a.Keys);
  }

  lemma OneMore(m: map<User, Entry>, u: User, entry: Entry)
    requires u !in m
    ensures |m[u := entry]| == |m| + 1
  {
    assert m[u := entry].Keys == m.Keys + {u};
    assert |m[u := entry]| == |m[u := entry].Keys| && |m| == |m.Keys|;
  }

  lemma OneLess(m: map<User, Entry>, u: User)
    requires u in m
    ensures |m - {u}| < |m|
  {
    OneMore(m - {u}, u, m[u]);
    assert (m - {u})[u := m[u]] == m;
  }

  /** Making room leaves room. */
  lemma KeptIsBelow(s: State, t: Table, c: Config)
    requires Refines(s, t) && Allocated(s) && |t.held| <= Limit(c)
    ensures |Kept(t.held, c)| < Limit(c)
  {
    SameSize(s.items, t.held);
    NothingListed(s);
    if Full(s, c) {
      FrontIsOldest(s, t);
      ListedIsIndexed(s, t, 0);
      OneForgotten(t.held, c, s.memory[s.lru[0]].user);
      OneLess(t.held, s.memory[s.lru[0]].user);
    } else {
      NoneForgotten(t.held, c);
    }
  }

  lemma StepIsBounded(s: State, t: Table, c: Config, op: Op)
    requires Refines(s, t) && Allocated(s) && |t.held| <= Limit(c)
    ensures |TableStep(t, c, op).held| <= Limit(c)
  {
    var m' := TableStep(t, c, op).held;
    if op.Set? && op.user !in t.held {
      KeptIsBelow(s, t, c);
      OneMore(Kept(t.held, c), op.user, m'[op.user]);
    } else {
      FewerKeys(m', t.held);
    }
  }

  /** The size never exceeds the limit, or one where the limit is below one. */
  lemma {:induction false} SizeIsBounded(s: State, t: Table, c: Config, ops: seq<Op>)
    requires Refines(s, t) && Allocated(s) && FairRun(s, c, ops) && |s.items| <= Limit(c)
    ensures |Run(s, c, ops).items| <= Limit(c)
    decreases |ops|
  {
    if ops != [] {
      var (s', t') := (Step(s, c, ops[0]), TableStep(t, c, ops[0]));
      SectionRefines(s, t, c, ops[0]);
      SameSize(s.items, t.held);
      StepIsBounded(s, t, c, ops[0]);
      SameSize(s'.items, t'.held);
      SizeIsBounded(s', t', c, ops[1..]);
    }
  }

  // ------------------------------------------------ what unfair ids break

  /** The stranded element: in the list, and known to no map but under a dead id. */
  function Stranded(c: Config, first: Subscription, second: Subscription): State {
    State(map[], map["" := 0, second.id := 1], [1], [Item(1, "", first, c.ttl), Item(1, second.id, second, c.ttl)])
  }

  /**
    An empty id: removing its entry leaves the index pointing at it, and using that
    index later removes the user's new entry from the map but not from the list.
   */
  lemma EmptyIdStrandsAnElement(s: State, c: Config, first: Subscription, second: Subscription)
    requires New(s) && c.maxSize >= 1 && first.id == "" && second.id != ""
    ensures var s1 := Step(Step(s, c, Set(1, first, 0)), c, Invalidate(1));
            var s2 := Step(Step(s1, c, Set(1, second, 0)), c, InvalidateBySubID(""));
            s2 == Stranded(c, first, second) && s2.items == map[] && |s2.lru| == 1
  {
    var (i1, i2) := (Item(1, "", first, c.ttl), Item(1, second.id, second, c.ttl));
    var a := Step(s, c, Set(1, first, 0));
    assert a == State(map[1 := 0], map["" := 0], [0], [i1]);
    var b := Step(a, c, Invalidate(1));
    assert b == State(map[], map["" := 0], [], [i1]);
    var d := Step(b, c, Set(1, second, 0));
    assert d == State(map[1 := 1], map["" := 0, second.id := 1], [1], [i1, i2]);
  }

  /** Sets for further users, one each. */
  function Fills(k: nat, subs: seq<Subscription>): seq<Op>
    decreases |subs|
  {
    if subs == [] then [] else [Set(k + 2, subs[0], 0)] + Fills(k + 1, subs[1..])
  }

  /** k entries of further users behind the stranded element. */
  predicate FilledBehind(s: State, k: nat) {
    && Allocated(s) && |s.items| == k && (forall u :: u in s.items ==> 2 <= u < k + 2)
    && s.lru != [] && s.lru[0] == 1 && 1 < |s.memory| && s.memory[1].user == 1
  }

  lemma OneMoreEntry(m: map<User, Address>, u: User, e: Address)
    requires u !in m
    ensures |m[u := e]| == |m| + 1
  {
    assert m[u := e].Keys == m.Keys + {u};
    assert |m[u := e]| == |m[u := e].Keys| && |m| == |m.Keys|;
  }

  /** A new entry while there is room, and when there is none: then the stranded element is evicted, and nobody else. */
  lemma FilledOnce(s: State, c: Config, k: nat, sub: Subscription)
    requires FilledBehind(s, k) && 0 < c.maxSize && k <= c.maxSize
    ensures var s' := Step(s, c, Set(k + 2, sub, 0));
            |s'.items| == k + 1 && (k < c.maxSize ==> FilledBehind(s', k + 1))
  {
    var item := Item(k + 2, sub.id, sub, c.ttl);
    var e := Evicted(s, c);
    assert e.items == s.items;
    OneMoreEntry(s.items, k + 2, |e.memory|);
    assert SetState(s, c, k + 2, sub, 0) == Grown(e, item);
  }

  /** One more Set, then the rest of the run. */
  lemma FillFirst(s: State, c: Config, k: nat, subs: seq<Subscription>, ops: seq<Op>) returns (s': State, rest: seq<Op>)
    requires FilledBehind(s, k) && 0 < c.maxSize && k <= c.maxSize && subs != [] && ops == Fills(k, subs)
    ensures rest == Fills(k + 1, subs[1..])
    ensures Allocated(s') && |s'.items| == k + 1 && (k < c.maxSize ==> FilledBehind(s', k + 1))
    ensures Run(s, c, ops) == Run(s', c, rest)
  {
    var op := Set(k + 2, subs[0], 0);
    rest := Fills(k + 1, subs[1..]);
    FilledOnce(s, c, k, subs[0]);
    FirstThenRest(s, c, op, rest);
    s' := Step(s, c, op);
  }

  lemma FirstThenRest(s: State, c: Config, op: Op, rest: seq<Op>)
    requires Allocated(s)
    ensures Run(s, c, [op] + rest) == Run(Step(s, c, op), c, rest)
  {
    assert ([op] + rest)[1..] == rest;
  }

  lemma {:induction false} FilledUp(s: State, c: Config, k: nat, subs: seq<Subscription>, ops: seq<Op>)
    requires FilledBehind(s, k) && 0 < c.maxSize && k + |subs| <= c.maxSize + 1 && subs != [] && ops == Fills(k, subs)
    ensures |Run(s, c, ops).items| == k + |subs|
    decreases |subs|
  {
    var s', rest := FillFirst(s, c, k, subs, ops);
    if |subs| == 1 {
      NothingMore(s', c, rest);
    } else {
      FilledUp(s', c, k + 1, subs[1..], rest);
    }
  }

  lemma NothingMore(s: State, c: Config, ops: seq<Op>)
    requires Allocated(s) && ops == []
    ensures Run(s, c, ops) == s
  {
  }

  /**
    The stranded element is evicted in place of a live one, whatever the limit:
    after one more user than it allows, the size is over it.
   */
  lemma EmptyIdBreaksTheBound(c: Config, first: Subscription, second: Subscription, subs: seq<Subscription>)
    requires 0 < c.maxSize && |subs| == c.maxSize + 1
    ensures var s := Stranded(c, first, second);
            Allocated(s) && |Run(s, c, Fills(0, subs)).items| == c.maxSize + 1 > Limit(c)
  {
    var s := Stranded(c, first, second);
    FilledUp(s, c, 0, subs, Fills(0, subs));
  }

  lemma SharedIdState(s: State, c: Config, one: Subscription, two: Subscription)
    requires New(s) && one.id == two.id && one.id != "" && c.maxSize >= 2
    ensures Run(s, c, [Set(1, one, 0), Set(2, two, 0)]) ==
              State(map[1 := 0, 2 := 1], map[one.id := 1], [0, 1], [Item(1, one.id, one, c.ttl), Item(2, two.id, two, c.ttl)])
  {
    var s1 := Step(s, c, Set(1, one, 0));
    assert s1 == State(map[1 := 0], map[one.id := 0], [0], [Item(1, one.id, one, c.ttl)]);
    var s2 := Step(s1, c, Set(2, two, 0));
    assert Run(s2, c, []) == s2;
    assert Run(s1, c, [Set(2, two, 0)]) == s2;
    assert [Set(1, one, 0), Set(2, two, 0)][1..] == [Set(2, two, 0)];
  }

  /** A shared id: after invalidating it, the first user's entry is still served. */
  lemma SharedIdLosesTheFirstEntry(s: State, c: Config, one: Subscription, two: Subscription)
    requires New(s) && one.id == two.id && one.id != "" && c.maxSize >= 2 && c.ttl >= 0
    ensures var m := Run(s, c, [Set(1, one, 0), Set(2, two, 0)]);
            Lookup(Step(m, c, InvalidateBySubID(one.id)), 1, 0) == Some(one)
  {
    SharedIdState(s, c, one, two);
  }
}
